/** The field serialiser: logrus entry fields (string keys, values of any
    dynamic type) become the string-to-string map that is sent to Rollbar. */
module Fields {

  import opened Logrus

  /** The renderings the serialiser delegates to; their internals are not
      modelled, so the model is stated for every choice of them. */
  datatype Formatters = Formatters(
    rfc3339: Instant -> string,    // t.Format(time.RFC3339)
    timeString: Instant -> string, // time.Time's own String() method
    stringOf: Object -> string,    // s.String() of a fmt.Stringer
    plusV: Object -> string)       // fmt.Sprintf("%+v", v)

  /** Whether the value's dynamic type implements fmt.Stringer: time.Time does. */
  predicate IsStringer(v: Value) {
    v.TimeVal? || v.StringerVal?
  }

  /** What the value's String() method returns. */
  function StringMethod(v: Value, f: Formatters): string
    requires IsStringer(v)
  {
    match v
    case TimeVal(t) => f.timeString(t)
    case StringerVal(o) => f.stringOf(o)
  }

  /** One entry of convertFields: the type switch, first matching rule wins. */
  function ConvertValue(v: Value, f: Formatters): (r: string)
    ensures v.TimeVal? ==> r == f.rfc3339(v.t)
    ensures !v.TimeVal? && IsStringer(v) ==> r == StringMethod(v, f)
    ensures !IsStringer(v) ==> r == f.plusV(v.obj)
  {
    if v.TimeVal? then f.rfc3339(v.t)
    else if IsStringer(v) then StringMethod(v, f)
    else f.plusV(v.obj)
  }

  /** The map convertFields is meant to produce: every key, each converted on its own. */
  function ConvertedFields(fields: map<string, Value>, f: Formatters): map<string, string>
  {
    map k | k in fields :: ConvertValue(fields[k], f)
  }

  /** convertFields: allocate an empty map and fill it key by key. */
  method ConvertFields(fields: map<string, Value>, f: Formatters) returns (m: map<string, string>)
    ensures m.Keys == fields.Keys
    ensures forall k :: k in fields ==> m[k] == ConvertValue(fields[k], f)
    ensures m == ConvertedFields(fields, f)
  {
    m := map[];
    var todo := fields.Keys;
    while todo != {}
      invariant todo <= fields.Keys
      invariant m.Keys == fields.Keys - todo
      invariant forall k :: k in m ==> m[k] == ConvertValue(fields[k], f)
      decreases todo
    {
      var k :| k in todo;
      m := m[k := ConvertValue(fields[k], f)];
      todo := todo - {k};
    }
  }

  /** No key is added or dropped. */
  lemma ConvertedKeys(fields: map<string, Value>, f: Formatters)
    ensures ConvertedFields(fields, f).Keys == fields.Keys
    ensures |ConvertedFields(fields, f)| == |fields|
  {
  }

  /** A time takes the RFC 3339 path although time.Time is a Stringer, so
      wherever the two renderings differ the String() text is never sent. */
  lemma TimeWinsOverStringer(t: Instant, f: Formatters)
    ensures IsStringer(TimeVal(t))
    ensures ConvertValue(TimeVal(t), f) == f.rfc3339(t)
    ensures f.rfc3339(t) != f.timeString(t) ==> ConvertValue(TimeVal(t), f) != StringMethod(TimeVal(t), f)
  {
  }

  /** Each output entry depends on that key's own input value and nothing else:
      two field maps that agree on a key give the same text for it. */
  lemma ConvertedLocal(a: map<string, Value>, b: map<string, Value>, k: string, f: Formatters)
    requires k in a && k in b && a[k] == b[k]
    ensures k in ConvertedFields(a, f) && k in ConvertedFields(b, f)
    ensures ConvertedFields(a, f)[k] == ConvertedFields(b, f)[k]
  {
  }

  /** Setting one field changes exactly that key of the output. */
  lemma ConvertedUpdate(fields: map<string, Value>, k: string, v: Value, f: Formatters)
    ensures ConvertedFields(fields[k := v], f) == ConvertedFields(fields, f)[k := ConvertValue(v, f)]
  {
  }

  /** Converting is compositional over disjoint field maps. */
  lemma ConvertedUnion(a: map<string, Value>, b: map<string, Value>, f: Formatters)
    requires a.Keys !! b.Keys
    ensures ConvertedFields(a + b, f) == ConvertedFields(a, f) + ConvertedFields(b, f)
  {
  }

  /** The two-field example: a plain value and a timestamp. */
  lemma UserAndTimestampExample(alice: Object, at: Instant, f: Formatters)
    ensures ConvertedFields(map["user" := OtherVal(alice), "at" := TimeVal(at)], f)
            == map["user" := f.plusV(alice), "at" := f.rfc3339(at)]
  {
  }
}
