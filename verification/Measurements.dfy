/**
 Measurements and their JSON form. A JSON object is the list of its members; printing and parsing of
 text are taken to be exact, and numbers are reals.
 */
module Measurements {
  import opened Common

  datatype Quality = GoodQuality | UncertainQuality | BadQuality

  datatype Measurement = Measurement(
    deviceId: string, metric: string, unit: string, schemaVersion: int,
    sequence: int, timestampMs: int, value: real, quality: Quality)

  /** What measurement_validate accepts of the values the C record can hold. */
  predicate Valid(m: Measurement) {
    && m.schemaVersion == 1
    && 1 <= |m.deviceId| <= 63 && 1 <= |m.metric| <= 31 && 1 <= |m.unit| <= 15
    && 1 <= m.sequence <= 0xFFFF_FFFF
    && 1 <= m.timestampMs < 0x8000_0000_0000_0000
  }

  /** The texts fit arrays of 64, 32 and 16 characters with their terminators; the sequence fits 32 bits and the
      time 63 bits. */
  lemma ValidMeans(m: Measurement)
    ensures Valid(m) <==>
              && m.schemaVersion == 1
              && m.deviceId != "" && |m.deviceId| + 1 <= 64 && m.metric != "" && |m.metric| + 1 <= 32
              && m.unit != "" && |m.unit| + 1 <= 16
              && 0 < m.sequence < 0x1_0000_0000 && 0 < m.timestampMs < 0x8000_0000_0000_0000
  {}

  datatype JsonValue = JsonString(text: string) | JsonNumber(number: real)
  datatype Key =
    | DeviceId | Metric | Unit | SchemaVersion | Sequence | TimestampMs | Value | QualityKey | MessageId
    | OtherKey(name: string)
  datatype Member = Member(key: Key, value: JsonValue)
  type Json = seq<Member>

  /** cJSON_GetObjectItemCaseSensitive: the first member of that name. */
  function Get(j: Json, key: Key): Option<JsonValue> {
    if j == [] then None
    else if j[0].key == key then Some(j[0].value)
    else Get(j[1..], key)
  }

  function QualityText(q: Quality): string {
    match q
    case GoodQuality => "good"
    case UncertainQuality => "uncertain"
    case BadQuality => "bad"
  }

  /** measurement_to_json, in the order in which the members are added. */
  function ToJson(m: Measurement): Json {
    [ Member(DeviceId, JsonString(m.deviceId)),
      Member(Metric, JsonString(m.metric)),
      Member(Unit, JsonString(m.unit)),
      Member(SchemaVersion, JsonNumber(m.schemaVersion as real)),
      Member(Sequence, JsonNumber(m.sequence as real)),
      Member(TimestampMs, JsonNumber(m.timestampMs as real)),
      Member(Value, JsonNumber(m.value)),
      Member(QualityKey, JsonString(QualityText(m.quality))) ]
  }

  function TextField(j: Json, key: Key, capacity: nat): Option<string> {
    match Get(j, key)
    case Some(JsonString(text)) => if 1 <= |text| < capacity then Some(text) else None
    case _ => None
  }

  /** A whole number in `1 .. limit - 1`. */
  function WholeField(j: Json, key: Key, limit: int): Option<int> {
    match Get(j, key)
    case Some(JsonNumber(n)) =>
      if 1.0 <= n < limit as real && n == n.Floor as real then Some(n.Floor) else None
    case _ => None
  }

  function QualityField(j: Json): Option<Quality> {
    match Get(j, QualityKey)
    case Some(JsonString(text)) =>
      if text == "good" then Some(GoodQuality)
      else if text == "uncertain" then Some(UncertainQuality)
      else if text == "bad" then Some(BadQuality)
      else None
    case _ => None
  }

  /** measurement_from_json: every field must be present, of its type and in range. */
  function FromJson(j: Json): Option<Measurement> {
    match (TextField(j, DeviceId, 64), TextField(j, Metric, 32), TextField(j, Unit, 16),
           WholeField(j, Sequence, 0x1_0000_0000), WholeField(j, TimestampMs, 0x8000_0000_0000_0000),
           QualityField(j))
    case (Some(deviceId), Some(metric), Some(unit), Some(sequence), Some(timestampMs), Some(quality)) =>
      if Get(j, SchemaVersion) == Some(JsonNumber(1.0)) && Get(j, Value).Some? && Get(j, Value).value.JsonNumber? then
        Some(Measurement(deviceId, metric, unit, 1, sequence, timestampMs, Get(j, Value).value.number, quality))
      else None
    case _ => None
  }

  lemma {:induction false} GetPrefix(j: Json, more: Json, key: Key)
    requires Get(j, key).Some?
    ensures Get(j + more, key) == Get(j, key)
    decreases |j|
  {
    if j[0].key != key {
      assert (j + more)[1..] == j[1..] + more;
      GetPrefix(j[1..], more, key);
    } else {
      assert (j + more)[0] == j[0];
    }
  }

  lemma {:induction false} GetAppended(j: Json, last: Member)
    requires Get(j, last.key).None?
    ensures Get(j + [last], last.key) == Some(last.value)
    decreases |j|
  {
    if j != [] {
      assert (j + [last])[1..] == j[1..] + [last];
      GetAppended(j[1..], last);
    }
  }

  lemma {:induction false} GetAt(j: Json, k: nat, key: Key)
    requires k <= |j| && forall i | 0 <= i < k :: j[i].key != key
    ensures k < |j| && j[k].key == key ==> Get(j, key) == Some(j[k].value)
    ensures k == |j| ==> Get(j, key) == None
    decreases k
  {
    if k > 0 { GetAt(j[1..], k - 1, key); }
  }

  lemma ToJsonGet(m: Measurement)
    ensures Get(ToJson(m), DeviceId) == Some(JsonString(m.deviceId))
    ensures Get(ToJson(m), Metric) == Some(JsonString(m.metric))
    ensures Get(ToJson(m), Unit) == Some(JsonString(m.unit))
    ensures Get(ToJson(m), SchemaVersion) == Some(JsonNumber(m.schemaVersion as real))
    ensures Get(ToJson(m), Sequence) == Some(JsonNumber(m.sequence as real))
    ensures Get(ToJson(m), TimestampMs) == Some(JsonNumber(m.timestampMs as real))
    ensures Get(ToJson(m), Value) == Some(JsonNumber(m.value))
    ensures Get(ToJson(m), QualityKey) == Some(JsonString(QualityText(m.quality)))
    ensures Get(ToJson(m), MessageId) == None
  {
    hide Get;
    var j := ToJson(m);
    GetAt(j, 0, DeviceId);
    GetAt(j, 1, Metric);
    GetAt(j, 2, Unit);
    GetAt(j, 3, SchemaVersion);
    GetAt(j, 4, Sequence);
    GetAt(j, 5, TimestampMs);
    GetAt(j, 6, Value);
    GetAt(j, 7, QualityKey);
    GetAt(j, 8, MessageId);
  }

  lemma WholeNumber(n: int)
    ensures (n as real).Floor == n
  {}

  lemma QualityTextParses(q: Quality, j: Json)
    requires Get(j, QualityKey) == Some(JsonString(QualityText(q)))
    ensures QualityField(j) == Some(q)
  {
    hide Get;
  }

  /** The three words for the quality. */
  lemma QualityWords()
    ensures QualityText(GoodQuality) == "good" && QualityText(UncertainQuality) == "uncertain" && QualityText(BadQuality) == "bad"
  {}

  /** `j` says what `m` is, field by field. */
  predicate Says(j: Json, m: Measurement) {
    && Get(j, DeviceId) == Some(JsonString(m.deviceId))
    && Get(j, Metric) == Some(JsonString(m.metric))
    && Get(j, Unit) == Some(JsonString(m.unit))
    && Get(j, SchemaVersion) == Some(JsonNumber(m.schemaVersion as real))
    && Get(j, Sequence) == Some(JsonNumber(m.sequence as real))
    && Get(j, TimestampMs) == Some(JsonNumber(m.timestampMs as real))
    && Get(j, Value) == Some(JsonNumber(m.value))
    && Get(j, QualityKey) == Some(JsonString(QualityText(m.quality)))
  }

  lemma QualityRead(j: Json, q: Quality)
    ensures QualityField(j) == Some(q) <==> Get(j, QualityKey) == Some(JsonString(QualityText(q)))
  {
    hide Get;
  }

  lemma WholeRead(j: Json, key: Key, limit: int, n: int)
    ensures WholeField(j, key, limit) == Some(n) <==> 1 <= n < limit && Get(j, key) == Some(JsonNumber(n as real))
  {
    hide Get;
    WholeNumber(n);
  }

  /** Which objects are accepted, and as what: exactly those that say a valid measurement, whatever other
      members they have. */
  lemma AcceptedIffSaid(j: Json, m: Measurement)
    ensures FromJson(j) == Some(m) <==> Valid(m) && Says(j, m)
  {
    hide Get, QualityField, WholeField;
    QualityRead(j, m.quality);
    WholeRead(j, Sequence, 0x1_0000_0000, m.sequence);
    WholeRead(j, TimestampMs, 0x8000_0000_0000_0000, m.timestampMs);
  }

  /** A measurement survives serialisation, also when members are appended to its JSON. */
  lemma JsonRoundTrip(m: Measurement, more: Json)
    requires Valid(m)
    ensures FromJson(ToJson(m) + more) == Some(m)
  {
    hide Get, ToJson, QualityField, QualityText;
    var j := ToJson(m);
    ToJsonGet(m);
    GetPrefix(j, more, DeviceId);
    GetPrefix(j, more, Metric);
    GetPrefix(j, more, Unit);
    GetPrefix(j, more, SchemaVersion);
    GetPrefix(j, more, Sequence);
    GetPrefix(j, more, TimestampMs);
    GetPrefix(j, more, Value);
    GetPrefix(j, more, QualityKey);
    QualityTextParses(m.quality, j + more);
    WholeNumber(m.sequence);
    WholeNumber(m.timestampMs);
  }

  // ---------------------------------------------------------------- the message id in a payload

  /** gateway_create_delivery_payload: add the message id, unless the payload already has one. */
  function Enrich(payload: Json, messageId: string): Option<Json> {
    if messageId == "" || Get(payload, MessageId).Some? then None
    else Some(payload + [Member(MessageId, JsonString(messageId))])
  }

  /** A payload gets its id unless there is none to give or it has one already, and keeps every other member. */
  lemma EnrichIff(payload: Json, messageId: string, key: Key)
    ensures Enrich(payload, messageId).Some? <==> messageId != "" && Get(payload, MessageId) == None
    ensures Enrich(payload, messageId).Some? ==>
              var j := Enrich(payload, messageId).value;
              && Get(j, MessageId) == Some(JsonString(messageId))
              && (key != MessageId ==> Get(j, key) == Get(payload, key))
  {
    hide Get;
    var last := Member(MessageId, JsonString(messageId));
    if Get(payload, MessageId) == None {
      GetAppended(payload, last);
      if key != MessageId { GetOther(payload, last, key); }
    }
  }

  lemma {:induction false} GetOther(j: Json, last: Member, key: Key)
    requires key != last.key
    ensures Get(j + [last], key) == Get(j, key)
    decreases |j|
  {
    if j == [] {
      assert (j + [last])[1..] == [];
    } else {
      assert (j + [last])[1..] == j[1..] + [last];
      GetOther(j[1..], last, key);
    }
  }

  predicate HexDigit(c: char) { '0' <= c <= '9' || 'a' <= c <= 'f' }

  /** What lower(hex(randomblob(16))) yields and what the consumer accepts. */
  predicate HexId(id: string) { |id| == 32 && forall i | 0 <= i < 32 :: HexDigit(id[i]) }

  /** The payload of a stored measurement can always be enriched, keeps the measurement, and carries the
      message id. */
  lemma EnrichRoundTrip(m: Measurement, id: string)
    requires Valid(m) && id != ""
    ensures Enrich(ToJson(m), id).Some?
    ensures FromJson(Enrich(ToJson(m), id).value) == Some(m)
    ensures Get(Enrich(ToJson(m), id).value, MessageId) == Some(JsonString(id))
  {
    hide FromJson, ToJson, Get;
    ToJsonGet(m);
    JsonRoundTrip(m, [Member(MessageId, JsonString(id))]);
    GetAppended(ToJson(m), Member(MessageId, JsonString(id)));
  }
}
