/** The JSON wire form of a request, abstracted to an unordered key/value map,
    and the null-omitting serialisation policy the client configures. */
module Json {
  import opened Wrappers

  /** C#'s `long`. */
  newtype Int64 = x: int | -0x8000_0000_0000_0000 <= x < 0x8000_0000_0000_0000

  datatype JsonValue = JString(str: string) | JNumber(num: int)

  /** A JSON object: its members by key. Key order is not modelled. */
  type Wire = map<string, JsonValue>

  /** One declared serialisable property of a record: its JSON name and its
      current value, `None` when the C# field holds `null`. */
  datatype Property = Property(name: string, value: Option<JsonValue>)

  function StringProperty(name: string, s: Option<string>): Property {
    match s
    case None => Property(name, None)
    case Some(v) => Property(name, Some(JString(v)))
  }

  function NumberProperty(name: string, n: Int64): Property {
    Property(name, Some(JNumber(n as int)))
  }

  /** No two properties of a record share a JSON name (the serialiser refuses
      a contract with a duplicate name). */
  predicate DistinctNames(props: seq<Property>) {
    forall i, j | 0 <= i < j < |props| :: props[i].name != props[j].name
  }

  /** Serialisation with null values ignored: a property is emitted exactly
      when its value is not null, and then with that value; nothing else is
      emitted. */
  function Serialize(props: seq<Property>): (w: Wire)
    requires DistinctNames(props)
    ensures forall i | 0 <= i < |props| :: props[i].name in w <==> props[i].value.Some?
    ensures forall i | 0 <= i < |props| && props[i].value.Some? :: w[props[i].name] == props[i].value.value
    ensures forall k | k in w :: exists i | 0 <= i < |props| :: props[i].name == k
    decreases |props|
  {
    if |props| == 0 then map[]
    else
      var rest := Serialize(props[1..]);
      match props[0].value
      case None => rest
      case Some(v) => rest[props[0].name := v]
  }

  /** The wire carries the nullable string `s` under `key`: the key is present
      exactly when `s` is not null, and then holds `s` unchanged. */
  predicate Carries(w: Wire, key: string, s: Option<string>) {
    && (key in w <==> s.Some?)
    && (s.Some? ==> w[key] == JString(s.value))
  }

  /** Setting one key leaves what another key carries unchanged. */
  lemma CarriesAfterUpdate(w: Wire, key: string, v: JsonValue, other: string, s: Option<string>)
    requires other != key && Carries(w, other, s)
    ensures Carries(w[key := v], other, s)
  {
  }

  /** A key that is either absent or holds a string. */
  predicate StringOrAbsent(w: Wire, key: string) {
    key in w ==> w[key].JString?
  }

  /** Reads a nullable string member: absent reads as null. */
  function GetString(w: Wire, key: string): (s: Option<string>)
    requires StringOrAbsent(w, key)
    ensures Carries(w, key, s)
  {
    if key in w then Some(w[key].str) else None
  }

  /** Reads a `long` member, if present, a number and in range. */
  function GetInt64(w: Wire, key: string): (n: Option<Int64>)
    ensures n.Some? <==> key in w && w[key].JNumber? && -0x8000_0000_0000_0000 <= w[key].num < 0x8000_0000_0000_0000
    ensures n.Some? ==> w[key] == JNumber(n.value as int)
  {
    if key in w && w[key].JNumber? && -0x8000_0000_0000_0000 <= w[key].num < 0x8000_0000_0000_0000
    then Some(w[key].num as Int64)
    else None
  }
}
