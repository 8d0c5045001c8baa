/** Kafka client settings: the managed-Kafka security keys layered into a
    configuration dict, the consumer and producer defaults, the back-off
    wait and the lookup of a value in message headers. */
module KafkaConfig {
  import opened Wrappers
  import opened PyValues

  // ---------------------------------------------------------------------
  // Configuration dicts

  /** The five managed-Kafka settings read from the environment. */
  datatype ManagedSettings = ManagedSettings(
    securityProtocol: Value,
    saslMechanism: Value,
    user: Value,
    password: Value,
    cacert: Value)

  /** `all(...)` over the five settings. */
  predicate AllSet(s: ManagedSettings) {
    Truthy(s.securityProtocol) && Truthy(s.saslMechanism) && Truthy(s.user) &&
    Truthy(s.password) && Truthy(s.cacert)
  }

  const SecurityKeys: seq<string> := ["security.protocol", "sasl.mechanism", "sasl.username", "sasl.password", "ssl.ca.location"]

  /** The setting each security key gets. */
  function SecurityValues(s: ManagedSettings): (m: map<string, Value>)
    ensures forall k :: k in SecurityKeys ==> k in m
  {
    map["security.protocol" := s.securityProtocol,
        "sasl.mechanism" := s.saslMechanism,
        "sasl.username" := s.user,
        "sasl.password" := s.password,
        "ssl.ca.location" := s.cacert]
  }

  /** The configuration after the managed settings are written into it,
      one security key after another. */
  function Managed(conf: Dict<Value>, s: ManagedSettings): Dict<Value> {
    if AllSet(s) then
      var d1 := Set(conf, "security.protocol", s.securityProtocol);
      var d2 := Set(d1, "sasl.mechanism", s.saslMechanism);
      var d3 := Set(d2, "sasl.username", s.user);
      var d4 := Set(d3, "sasl.password", s.password);
      Set(d4, "ssl.ca.location", s.cacert)
    else conf
  }

  /** A configuration dict, updated in place. */
  class Conf {
    var entries: Dict<Value>

    constructor (entries: Dict<Value>)
      ensures this.entries == entries
    {
      this.entries := entries;
    }
  }

  /** `_get_managed_kafka_config(conf)`: a dict passed in is updated in place
      and returned; anything else (`null` here) is replaced by a new empty
      dict first. */
  method ManagedKafkaConfig(conf: Conf?, s: ManagedSettings) returns (c: Conf)
    modifies conf
    ensures conf != null ==> c == conf
    ensures conf == null ==> fresh(c)
    ensures c.entries == Managed(if conf != null then old(conf.entries) else Empty(), s)
  {
    if conf == null {
      c := new Conf(Empty());
    } else {
      c := conf;
    }
    if AllSet(s) {
      c.entries := Set(c.entries, "security.protocol", s.securityProtocol);
      c.entries := Set(c.entries, "sasl.mechanism", s.saslMechanism);
      c.entries := Set(c.entries, "sasl.username", s.user);
      c.entries := Set(c.entries, "sasl.password", s.password);
      c.entries := Set(c.entries, "ssl.ca.location", s.cacert);
    }
  }

  /** With all five settings the security keys carry them and every other
      key is kept; with any setting missing nothing changes. The old keys
      keep their places. */
  lemma ManagedMeaning(conf: Dict<Value>, s: ManagedSettings, k: string)
    ensures Get(Managed(conf, s), k) ==
      if AllSet(s) && k in SecurityKeys then Some(SecurityValues(s)[k]) else Get(conf, k)
    ensures k in Managed(conf, s).keys <==> k in conf.keys || (AllSet(s) && k in SecurityKeys)
    ensures conf.keys <= Managed(conf, s).keys
    ensures !AllSet(s) ==> Managed(conf, s) == conf
  {
    if AllSet(s) {
      var d1 := Set(conf, "security.protocol", s.securityProtocol);
      var d2 := Set(d1, "sasl.mechanism", s.saslMechanism);
      var d3 := Set(d2, "sasl.username", s.user);
      var d4 := Set(d3, "sasl.password", s.password);
      SetMeaning(conf, "security.protocol", s.securityProtocol, k);
      SetMeaning(d1, "sasl.mechanism", s.saslMechanism, k);
      SetMeaning(d2, "sasl.username", s.user, k);
      SetMeaning(d3, "sasl.password", s.password, k);
      SetMeaning(d4, "ssl.ca.location", s.cacert, k);
    }
  }

  const ConsumerKeys: seq<string> := ["bootstrap.servers", "group.id", "queued.max.messages.kbytes", "enable.auto.commit", "max.poll.interval.ms"]

  function ConsumerValues(address: Value): (m: map<string, Value>)
    ensures forall k :: k in ConsumerKeys ==> k in m
  {
    map["bootstrap.servers" := address,
        "group.id" := VStr("hccm-group"),
        "queued.max.messages.kbytes" := VNum(1024.0),
        "enable.auto.commit" := VBool(false),
        "max.poll.interval.ms" := VNum(1080000.0)]
  }

  /** The consumer's defaults, in the order the literal lists them. */
  function ConsumerDefaults(address: Value): Dict<Value> {
    SetAll(Empty(), ConsumerKeys, ConsumerValues(address))
  }

  const ProducerKeys: seq<string> := ["bootstrap.servers", "message.timeout.ms"]

  function ProducerValues(address: Value): (m: map<string, Value>)
    ensures forall k :: k in ProducerKeys ==> k in m
  {
    map["bootstrap.servers" := address, "message.timeout.ms" := VNum(1000.0)]
  }

  /** The producer's defaults. */
  function ProducerDefaults(address: Value): Dict<Value> {
    SetAll(Empty(), ProducerKeys, ProducerValues(address))
  }

  /** The configuration a client gets: its defaults, then the managed
      settings, then the caller's settings. */
  function Layered(defaults: Dict<Value>, s: ManagedSettings, settings: Dict<Value>): Dict<Value> {
    Update(Managed(defaults, s), settings)
  }

  method ConsumerConfig(address: Value, s: ManagedSettings, settings: Dict<Value>) returns (c: Conf)
    ensures fresh(c)
    ensures c.entries == Layered(ConsumerDefaults(address), s, settings)
  {
    c := new Conf(ConsumerDefaults(address));
    c := ManagedKafkaConfig(c, s);
    c.entries := Update(c.entries, settings);
  }

  method ProducerConfig(address: Value, s: ManagedSettings, settings: Dict<Value>) returns (c: Conf)
    ensures fresh(c)
    ensures c.entries == Layered(ProducerDefaults(address), s, settings)
  {
    c := new Conf(ProducerDefaults(address));
    c := ManagedKafkaConfig(c, s);
    c.entries := Update(c.entries, settings);
  }

  /** Precedence of the layers: a caller setting wins, then a managed
      security key, then the default. */
  lemma LayeredMeaning(defaults: Dict<Value>, s: ManagedSettings, settings: Dict<Value>, k: string)
    ensures Get(Layered(defaults, s, settings), k) ==
      if k in settings.keys then Get(settings, k)
      else if AllSet(s) && k in SecurityKeys then Some(SecurityValues(s)[k])
      else Get(defaults, k)
    ensures k in Layered(defaults, s, settings).keys <==>
      k in defaults.keys || k in settings.keys || (AllSet(s) && k in SecurityKeys)
    ensures defaults.keys <= Layered(defaults, s, settings).keys
  {
    ManagedMeaning(defaults, s, k);
    UpdateMeaning(Managed(defaults, s), settings, k);
  }

  /** A default the caller does not set and the managed settings do not
      touch survives the layering. */
  lemma DefaultHolds(ks: seq<string>, vals: map<string, Value>, s: ManagedSettings, settings: Dict<Value>, k: string)
    requires forall c :: c in ks ==> c in vals
    requires k in ks && k !in settings.keys && k !in SecurityKeys
    ensures Get(Layered(SetAll(Empty(), ks, vals), s, settings), k) == Some(vals[k])
  {
    SetAllGet(Empty(), ks, vals, k);
    LayeredMeaning(SetAll(Empty(), ks, vals), s, settings, k);
  }

  /** A consumer default the caller does not set survives: the group
      "hccm-group", no auto-commit, the given address and the rest; the
      managed security keys never touch them. */
  lemma ConsumerDefaultsHold(address: Value, s: ManagedSettings, settings: Dict<Value>, k: string)
    requires k in ConsumerKeys && k !in settings.keys
    ensures Get(Layered(ConsumerDefaults(address), s, settings), k) == Some(ConsumerValues(address)[k])
  {
    assert k !in SecurityKeys by {
      assert forall c :: c in SecurityKeys ==> c[0] == 's';
    }
    DefaultHolds(ConsumerKeys, ConsumerValues(address), s, settings, k);
  }

  /** The producer waits 1000 ms for delivery unless the caller says
      otherwise, and always knows the address unless overridden. */
  lemma ProducerDefaultsHold(address: Value, s: ManagedSettings, settings: Dict<Value>, k: string)
    requires k in ProducerKeys
    ensures Get(Layered(ProducerDefaults(address), s, settings), k) ==
      if k in settings.keys then Get(settings, k) else Some(ProducerValues(address)[k])
  {
    if k !in settings.keys {
      assert k !in SecurityKeys by {
        assert forall c :: c in SecurityKeys ==> c[0] == 's';
      }
      DefaultHolds(ProducerKeys, ProducerValues(address), s, settings, k);
    } else {
      LayeredMeaning(ProducerDefaults(address), s, settings, k);
    }
  }

  // ---------------------------------------------------------------------
  // Back-off

  function Pow2(n: nat): (r: nat)
    ensures r >= 1
  {
    if n == 0 then 1 else 2 * Pow2(n - 1)
  }

  /** The wait before the jitter: `min(maximum, 2 ** interval)`. */
  function BaseWait(interval: nat, maximum: int): int {
    if maximum <= Pow2(interval) then maximum else Pow2(interval)
  }

  /** The whole wait, `jitter` being the `random.random()` draw. */
  function Wait(interval: nat, maximum: int, jitter: real): real {
    BaseWait(interval, maximum) as real + jitter
  }

  lemma {:induction false} Pow2Monotone(i: nat, j: nat)
    requires i <= j
    ensures Pow2(i) <= Pow2(j)
    decreases j
  {
    if i < j {
      Pow2Monotone(i, j - 1);
    }
  }

  /** The wait never exceeds the maximum by a whole second, is at least
      the base wait, and the base wait grows with the interval until it is
      capped by the maximum. */
  lemma WaitBounds(interval: nat, maximum: int, jitter: real)
    requires 0.0 <= jitter < 1.0
    ensures BaseWait(interval, maximum) <= maximum
    ensures Wait(interval, maximum, jitter) < maximum as real + 1.0
    ensures Wait(interval, maximum, jitter) >= BaseWait(interval, maximum) as real
    ensures forall later: nat :: interval <= later ==> BaseWait(interval, maximum) <= BaseWait(later, maximum)
  {
    forall later: nat | interval <= later ensures BaseWait(interval, maximum) <= BaseWait(later, maximum) {
      Pow2Monotone(interval, later);
    }
  }

  // ---------------------------------------------------------------------
  // Headers

  /** An item of a message header: the key is text, the value raw bytes,
      or `None` for a header sent without a value. */
  datatype HeaderItem = Text(s: string) | Raw(bytes: seq<int>) | NoValue

  type Header = seq<HeaderItem>

  /** `item.decode("ascii")`: text values and `None` have no `decode`;
      bytes decode when every one is below 128. */
  function Decode(item: HeaderItem): Result<string, PyError> {
    match item
    case Text(_) => Failure(AttributeError)
    case NoValue => Failure(AttributeError)
    case Raw(bytes) =>
      if forall i :: 0 <= i < |bytes| ==> 0 <= bytes[i] < 128 then
        Success(seq(|bytes|, i requires 0 <= i < |bytes| && 0 <= bytes[i] < 128 => bytes[i] as char))
      else Failure(UnicodeDecodeError)
  }

  /** The inner loop over one header from item `j` on: the first item that
      is not the header type, decoded. */
  function ScanItems(header: Header, headerType: string, j: nat): Option<Result<string, PyError>>
    requires j <= |header|
    decreases |header| - j
  {
    if j == |header| then None
    else if header[j] == Text(headerType) then ScanItems(header, headerType, j + 1)
    else Some(Decode(header[j]))
  }

  /** The outer loop from header `i` on: headers that contain the header
      type are scanned, the first decoded item is the result. */
  function ScanHeaders(headers: seq<Header>, headerType: string, i: nat): Result<Option<string>, PyError>
    requires i <= |headers|
    decreases |headers| - i
  {
    if i == |headers| then Success(None)
    else if Text(headerType) in headers[i] then
      match ScanItems(headers[i], headerType, 0)
      case Some(r) => if r.Success? then Success(Some(r.value)) else Failure(r.error)
      case None => ScanHeaders(headers, headerType, i + 1)
    else ScanHeaders(headers, headerType, i + 1)
  }

  /** `extract_from_header(headers, header_type)`; `None` headers give
      `None`. */
  function ExtractFromHeader(headers: Option<seq<Header>>, headerType: string): Result<Option<string>, PyError> {
    if headers.None? then Success(None) else ScanHeaders(headers.value, headerType, 0)
  }

  /** A header the search answers from: it contains the header type and
      some item other than it. */
  predicate Answers(header: Header, headerType: string) {
    Text(headerType) in header && exists j :: 0 <= j < |header| && header[j] != Text(headerType)
  }

  /** The item a header answers with: its first item that is not the
      header type. */
  predicate FirstOther(header: Header, headerType: string, j: int) {
    0 <= j < |header| && header[j] != Text(headerType) && forall j' :: 0 <= j' < j ==> header[j'] == Text(headerType)
  }

  /** The inner loop finds nothing exactly when every item from `j` on is
      the header type, and otherwise answers with the first other item,
      decoded. */
  lemma {:induction false} ScanItemsMeaning(header: Header, headerType: string, j: nat)
    requires j <= |header|
    ensures ScanItems(header, headerType, j).None? <==> forall j' :: j <= j' < |header| ==> header[j'] == Text(headerType)
    ensures forall k ::
        (j <= k < |header| && header[k] != Text(headerType) &&
         (forall j' :: j <= j' < k ==> header[j'] == Text(headerType))) ==>
        ScanItems(header, headerType, j) == Some(Decode(header[k]))
    decreases |header| - j
  {
    if j < |header| && header[j] == Text(headerType) {
      ScanItemsMeaning(header, headerType, j + 1);
    }
  }

  /** The search answers from the first header that answers, with the
      decoded first item of it that is not the header type; with no such
      header the answer is `None`. */
  lemma {:induction false} ScanHeadersMeaning(headers: seq<Header>, headerType: string, i: nat)
    requires i <= |headers|
    ensures (forall i' :: i <= i' < |headers| ==> !Answers(headers[i'], headerType)) ==>
      ScanHeaders(headers, headerType, i) == Success(None)
    ensures forall h, k ::
      (i <= h < |headers| && Answers(headers[h], headerType) && FirstOther(headers[h], headerType, k) &&
       (forall i' :: i <= i' < h ==> !Answers(headers[i'], headerType))) ==>
      ScanHeaders(headers, headerType, i) == (if Decode(headers[h][k]).Success? then Success(Some(Decode(headers[h][k]).value)) else Failure(Decode(headers[h][k]).error))
    decreases |headers| - i
  {
    if i < |headers| {
      ScanHeadersMeaning(headers, headerType, i + 1);
      ScanItemsMeaning(headers[i], headerType, 0);
      if !Answers(headers[i], headerType) && Text(headerType) in headers[i] {
        assert ScanItems(headers[i], headerType, 0).None?;
      }
      forall h, k |
        i <= h < |headers| && Answers(headers[h], headerType) && FirstOther(headers[h], headerType, k) &&
        (forall i' :: i <= i' < h ==> !Answers(headers[i'], headerType))
        ensures ScanHeaders(headers, headerType, i) == (if Decode(headers[h][k]).Success? then Success(Some(Decode(headers[h][k]).value)) else Failure(Decode(headers[h][k]).error))
      {
        if h == i {
          assert ScanItems(headers[i], headerType, 0) == Some(Decode(headers[h][k]));
        } else {
          assert !Answers(headers[i], headerType);
        }
      }
    }
  }
}
