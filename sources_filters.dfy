/** The filter-parameter check of the sources view and the exceptions it
    raises. */
module SourcesFilters {
  import opened Wrappers
  import opened PyValues

  const HttpNotFound: int := 404
  const HttpBadRequest: int := 400

  /** An API exception: its HTTP status and the detail it reports. */
  datatype ApiException = ApiException(statusCode: int, detail: Dict<string>)

  /** The body of an exception's detail: `{"detail": message}`. */
  function Detail(message: string): (d: Dict<string>)
    ensures d.keys == ["detail"] && Get(d, "detail") == Some(message)
  {
    Set(Empty(), "detail", message)
  }

  /** `SourceException(message)`: status 404. */
  function SourceException(message: string): (e: ApiException)
    ensures e.statusCode == HttpNotFound
    ensures Get(e.detail, "detail") == Some(message)
  {
    ApiException(HttpNotFound, Detail(message))
  }

  /** `SourceInvalidFilterException(message)`: status 400. */
  function SourceInvalidFilterException(message: string): (e: ApiException)
    ensures e.statusCode == HttpBadRequest
    ensures Get(e.detail, "detail") == Some(message)
  {
    ApiException(HttpBadRequest, Detail(message))
  }

  const ValidQueryParams: seq<string> := ["name", "limit", "offset"]

  /** The `params` comprehension over the first `n` keys: every key that is
      not a valid query parameter, with its value. */
  function InvalidParams(query: Dict<Value>, n: nat): Dict<Value>
    requires n <= |query.keys|
  {
    if n == 0 then Empty()
    else
      var rest := InvalidParams(query, n - 1);
      var k := query.keys[n - 1];
      if k !in ValidQueryParams then Set(rest, k, query.vals[k]) else rest
  }

  /** `check_filters(query)`: nothing, or the exception it raises. */
  function CheckFilters(query: Dict<Value>): Option<ApiException> {
    if InvalidParams(query, |query.keys|).keys != [] then Some(SourceException("Invalid Filter Parameter"))
    else None
  }

  /** The comprehension keeps exactly the keys that are not valid query
      parameters, with their values, whatever those are. */
  lemma {:induction false} InvalidParamsKeys(query: Dict<Value>, n: nat, k: string)
    requires n <= |query.keys|
    ensures k in InvalidParams(query, n).keys <==> k in query.keys[..n] && k !in ValidQueryParams
    ensures k in InvalidParams(query, n).keys ==> Get(InvalidParams(query, n), k) == Get(query, k)
    decreases n
  {
    if n > 0 {
      InvalidParamsKeys(query, n - 1, k);
      assert query.keys[..n] == query.keys[..n - 1] + [query.keys[n - 1]];
    }
  }

  /** A query passes exactly when all its keys are name, limit or offset; an
      empty query passes; otherwise the 404 "Invalid Filter Parameter"
      exception is raised, whatever the offending values (None included). */
  lemma CheckFiltersMeaning(query: Dict<Value>)
    ensures CheckFilters(query).None? <==> forall k :: k in query.keys ==> k in ValidQueryParams
    ensures query.keys == [] ==> CheckFilters(query).None?
    ensures CheckFilters(query).Some? ==>
      CheckFilters(query).value.statusCode == 404 &&
      Get(CheckFilters(query).value.detail, "detail") == Some("Invalid Filter Parameter")
  {
    var bad := InvalidParams(query, |query.keys|);
    assert query.keys[..|query.keys|] == query.keys;
    if bad.keys != [] {
      InvalidParamsKeys(query, |query.keys|, bad.keys[0]);
    } else {
      forall k | k in query.keys ensures k in ValidQueryParams {
        InvalidParamsKeys(query, |query.keys|, k);
      }
    }
  }

  /** The outcome depends on the key set alone. */
  lemma CheckFiltersKeysOnly(q1: Dict<Value>, q2: Dict<Value>)
    requires forall k :: k in q1.keys <==> k in q2.keys
    ensures CheckFilters(q1) == CheckFilters(q2)
  {
    CheckFiltersMeaning(q1);
    CheckFiltersMeaning(q2);
  }
}
