/** The payload builders of the provider builder: the identity header it
    keeps, the authentication and billing-source payloads it builds with
    their error cases, and the user the identity names. */
module ProviderBuilder {
  import opened Wrappers
  import opened PyValues
  import opened PyTrees

  /** What the builders raise: their own error with a message, or a Python
      error from the objects they are given. */
  datatype BuildError = ProviderBuilderError(message: string) | PythonError(error: PyError)

  /** `d.get(k, default)` on an object that must be a dict. */
  function DictGetOr(d: Tree, k: string, default: Tree): Result<Tree, BuildError> {
    if d.Node? then Success(GetOr(d.items, k, default)) else Failure(PythonError(AttributeError))
  }

  /** `d.get(k)` on an object that must be a dict. */
  function DictGet(d: Tree, k: string): Result<Tree, BuildError> {
    DictGetOr(d, k, Leaf(VNone))
  }

  /** The identity header kept by the builder: a dict that has a truthy
      identity is kept as it is, anything else becomes the identity of a
      new header marked as coming from the sources client. */
  function IdentityHeaderFor(authHeader: Tree): Tree {
    if authHeader.Node? && TreeTruthy(GetOr(authHeader.items, "x-rh-identity", Leaf(VNone))) then authHeader
    else Node([Item("x-rh-identity", authHeader), Item("sources-client", Leaf(VStr("True")))])
  }

  class Builder {
    var identityHeader: Tree

    constructor (authHeader: Tree)
      ensures identityHeader == IdentityHeaderFor(authHeader)
    {
      identityHeader := IdentityHeaderFor(authHeader);
    }

    /** The user `_create_context` names: none when the stored header has
        no truthy identity, else the user of the decoded identity, where
        `decode` stands for base64 and JSON decoding, which fail with a
        `ValueError` on input that is not base64 or not JSON. */
    function ContextFor(decode: Tree -> Result<Tree, PyError>): (r: Option<Result<IdentityUser, BuildError>>)
      reads this
      ensures r.None? <==> !identityHeader.Node? || !TreeTruthy(GetOr(identityHeader.items, "x-rh-identity", Leaf(VNone)))
      ensures r.Some? ==> var d := decode(GetOr(identityHeader.items, "x-rh-identity", Leaf(VNone)));
        r.value == if d.Failure? then Failure(PythonError(d.error)) else ContextUser(d.value)
    {
      if identityHeader.Node? then
        var encoded := GetOr(identityHeader.items, "x-rh-identity", Leaf(VNone));
        if !TreeTruthy(encoded) then None
        else
          match decode(encoded)
          case Failure(e) => Some(Failure(PythonError(e)))
          case Success(decoded) => Some(ContextUser(decoded))
      else None
    }
  }

  /** The stored header is always a dict, and its identity is the given one
      unless a dict with a truthy identity was given; a wrapped header says
      it comes from the sources client. Storing a stored header again keeps
      it when it has a truthy identity. */
  lemma IdentityHeaderMeaning(authHeader: Tree)
    ensures var h := IdentityHeaderFor(authHeader);
      h.Node? &&
      (h == authHeader <==> authHeader.Node? && TreeTruthy(GetOr(authHeader.items, "x-rh-identity", Leaf(VNone)))) &&
      (h != authHeader ==>
        DistinctKeys(h.items) &&
        Lookup(h.items, "x-rh-identity") == Some(authHeader) &&
        Lookup(h.items, "sources-client") == Some(Leaf(VStr("True"))))
    ensures TreeTruthy(authHeader) ==> IdentityHeaderFor(IdentityHeaderFor(authHeader)) == IdentityHeaderFor(authHeader)
  {
    var wrapped := Node([Item("x-rh-identity", authHeader), Item("sources-client", Leaf(VStr("True")))]);
    assert Keys(wrapped.items) == ["x-rh-identity", "sources-client"];
    assert GetOr(wrapped.items, "x-rh-identity", Leaf(VNone)) == authHeader;
  }

  /** A builder names a user exactly when the header it was given is
      truthy, and then decodes the identity of a header that had one or the
      given header itself. */
  lemma ContextNeedsTruthyHeader(authHeader: Tree)
    ensures var h := IdentityHeaderFor(authHeader);
      (TreeTruthy(GetOr(h.items, "x-rh-identity", Leaf(VNone))) <==> TreeTruthy(authHeader)) &&
      (TreeTruthy(authHeader) && !(authHeader.Node? && TreeTruthy(GetOr(authHeader.items, "x-rh-identity", Leaf(VNone)))) ==>
        GetOr(h.items, "x-rh-identity", Leaf(VNone)) == authHeader)
  {
    if authHeader.Node? && TreeTruthy(GetOr(authHeader.items, "x-rh-identity", Leaf(VNone))) {
      assert authHeader.items != [];
    }
  }

  /** `{field: source[field]}` when that value is a non-empty dict, else the
      builder's error with `message`. */
  function RequiredDict(source: Tree, field: string, message: string): Result<Tree, BuildError> {
    var value :- DictGet(source, field);
    if TreeTruthy(value) && value.Node? then Success(Node([Item(field, value)]))
    else Failure(ProviderBuilderError(message))
  }

  /** `_build_credentials_auth(authentication)`. */
  function BuildCredentialsAuth(authentication: Tree): Result<Tree, BuildError> {
    RequiredDict(authentication, "credentials", "Missing credentials")
  }

  /** `_build_provider_data_source(billing_source)`. */
  function BuildProviderDataSource(billingSource: Tree): Result<Tree, BuildError> {
    RequiredDict(billingSource, "data_source", "Missing data_source")
  }

  /** The payload wraps the field's value exactly when it is a non-empty
      dict; a missing, empty or non-dict value gives the builder's error. */
  lemma RequiredDictMeaning(source: Tree, field: string, message: string)
    requires source.Node?
    ensures var value := GetOr(source.items, field, Leaf(VNone));
      RequiredDict(source, field, message) ==
        if value.Node? && value.items != [] then Success(Node([Item(field, value)]))
        else Failure(ProviderBuilderError(message))
    ensures Lookup(source.items, field).None? ==> RequiredDict(source, field, message) == Failure(ProviderBuilderError(message))
  {
    LookupFound(source.items, field);
  }

  /** The credentials payload is `{"credentials": c}` for a non-empty dict
      `c`, and "Missing credentials" otherwise. */
  lemma BuildCredentialsAuthMeaning(authentication: Tree)
    requires authentication.Node?
    ensures var c := GetOr(authentication.items, "credentials", Leaf(VNone));
      BuildCredentialsAuth(authentication) ==
        if c.Node? && c.items != [] then Success(Node([Item("credentials", c)]))
        else Failure(ProviderBuilderError("Missing credentials"))
  {
    RequiredDictMeaning(authentication, "credentials", "Missing credentials");
  }

  /** The billing payload is `{"data_source": d}` for a non-empty dict `d`,
      and "Missing data_source" otherwise. */
  lemma BuildProviderDataSourceMeaning(billingSource: Tree)
    requires billingSource.Node?
    ensures var d := GetOr(billingSource.items, "data_source", Leaf(VNone));
      BuildProviderDataSource(billingSource) ==
        if d.Node? && d.items != [] then Success(Node([Item("data_source", d)]))
        else Failure(ProviderBuilderError("Missing data_source"))
  {
    RequiredDictMeaning(billingSource, "data_source", "Missing data_source");
  }

  /** The provider model's case mapping and type names, which are not part
      of this model. */
  datatype ProviderTypes = ProviderTypes(
    caseMapping: string -> Option<string>,
    ocp: string,
    oci: string,
    ociLocal: string)

  /** `get_billing_source_for_provider(provider_type, billing_source)`. */
  function GetBillingSourceForProvider(types: ProviderTypes, providerType: string, billingSource: Tree): Result<Tree, BuildError> {
    var canonical := types.caseMapping(LowerAscii(providerType));
    if canonical.Some? && canonical.value in [types.ocp, types.oci, types.ociLocal] then Success(Node([]))
    else BuildProviderDataSource(billingSource)
  }

  /** OpenShift and OCI providers get an empty billing source whatever was
      sent (even something that is not a dict); any other type must send a
      data source. The provider type is matched case-insensitively. */
  lemma BillingSourceMeaning(types: ProviderTypes, providerType: string, billingSource: Tree)
    ensures var canonical := types.caseMapping(LowerAscii(providerType));
      var noBilling := canonical.Some? && (canonical.value == types.ocp || canonical.value == types.oci || canonical.value == types.ociLocal);
      (noBilling ==> GetBillingSourceForProvider(types, providerType, billingSource) == Success(Node([]))) &&
      (!noBilling ==> GetBillingSourceForProvider(types, providerType, billingSource) == BuildProviderDataSource(billingSource))
    ensures forall other :: LowerAscii(other) == LowerAscii(providerType) ==>
      GetBillingSourceForProvider(types, other, billingSource) == GetBillingSourceForProvider(types, providerType, billingSource)
  {
  }

  // ---------------------------------------------------------------------
  // The identity behind the header

  /** Who the decoded identity names. */
  datatype IdentityUser = IdentityUser(account: Tree, username: Tree, email: Tree)

  /** The username and email `_create_context` takes from a decoded header:
      those of the user, except that a System identity authenticated by
      uhc-auth is named by its cluster id and has an empty email. Missing
      "identity", "user" and "system" entries read as empty dicts, and a
      missing type as "User". */
  function ContextUser(decoded: Tree): Result<IdentityUser, BuildError> {
    var identity :- DictGetOr(decoded, "identity", Node([]));
    var account :- DictGet(identity, "account_number");
    var user :- DictGetOr(identity, "user", Node([]));
    var username :- DictGet(user, "username");
    var user := GetOr(identity.items, "user", Node([]));
    var email :- DictGet(user, "email");
    var identityType := GetOr(identity.items, "type", Leaf(VStr("User")));
    var authType := GetOr(identity.items, "auth_type", Leaf(VNone));
    if identityType == Leaf(VStr("System")) && authType == Leaf(VStr("uhc-auth")) then
      var system :- DictGetOr(identity, "system", Node([]));
      var clusterId :- DictGet(system, "cluster_id");
      Success(IdentityUser(account, clusterId, Leaf(VStr(""))))
    else Success(IdentityUser(account, username, email))
  }

  /** True when the decoded identity is a System identity authenticated by
      uhc-auth. */
  predicate IsClusterIdentity(identity: seq<Item>) {
    GetOr(identity, "type", Leaf(VStr("User"))) == Leaf(VStr("System")) &&
    GetOr(identity, "auth_type", Leaf(VNone)) == Leaf(VStr("uhc-auth"))
  }

  /** The identity rule: a System identity with uhc-auth is named by its
      cluster id and has no email; any other identity, including one
      without a type, is named by its user. The context cannot be built
      exactly when the header, its identity, its user or (for a cluster)
      its system is not a dict. */
  lemma ContextUserMeaning(decoded: Tree)
    ensures ContextUser(decoded).Failure? <==>
      !decoded.Node? ||
      !GetOr(decoded.items, "identity", Node([])).Node? ||
      !GetOr(GetOr(decoded.items, "identity", Node([])).items, "user", Node([])).Node? ||
      (IsClusterIdentity(GetOr(decoded.items, "identity", Node([])).items) &&
       !GetOr(GetOr(decoded.items, "identity", Node([])).items, "system", Node([])).Node?)
    ensures ContextUser(decoded).Failure? ==> ContextUser(decoded).error == PythonError(AttributeError)
    ensures ContextUser(decoded).Success? ==>
      var identity := GetOr(decoded.items, "identity", Node([])).items;
      var user := GetOr(identity, "user", Node([])).items;
      var u := ContextUser(decoded).value;
      u.account == GetOr(identity, "account_number", Leaf(VNone)) &&
      (IsClusterIdentity(identity) ==>
        u.username == GetOr(GetOr(identity, "system", Node([])).items, "cluster_id", Leaf(VNone)) &&
        u.email == Leaf(VStr(""))) &&
      (!IsClusterIdentity(identity) ==>
        u.username == GetOr(user, "username", Leaf(VNone)) &&
        u.email == GetOr(user, "email", Leaf(VNone)))
  {
  }

  /** An identity without a type is a user's, whatever its auth type. */
  lemma UntypedIdentityIsUser(account: Tree, user: seq<Item>, authType: Tree)
    ensures var identity := [Item("account_number", account), Item("user", Node(user)), Item("auth_type", authType)];
      ContextUser(Node([Item("identity", Node(identity))])) ==
        Success(IdentityUser(account, GetOr(user, "username", Leaf(VNone)), GetOr(user, "email", Leaf(VNone))))
  {
    var identity := [Item("account_number", account), Item("user", Node(user)), Item("auth_type", authType)];
    assert Keys(identity) == ["account_number", "user", "auth_type"];
    LookupFound(identity, "type");
    LookupAt(identity, 1);
  }
}
