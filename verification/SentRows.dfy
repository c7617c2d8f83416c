/**
 Whether two blocks are the same data, src/sent-rows.ts: a comparison that walks
 values rather than serializing them, against what JSON writes of each.
 */
module SentRows {
  import opened Options

  /** JSON text, parsed: an object's key order doesn't count. */
  datatype Json =
    | JNull
    | JBool(b: bool)
    | JNumber(n: real)
    | JString(s: string)
    | JArray(items: seq<Json>)
    | JObject(fields: map<string, Json>)

  /**
   A value: `Unwritten` a function or a symbol, `Item`s an array's (a hole is Undefined), `Plain` a plain object without
   its own toJSON, and `Opaque` any other object, as JSON writes it, or None where it writes nothing.
   */
  datatype Value =
    | Undefined
    | Unwritten
    | Null
    | NonFinite
    | Boolean(b: bool)
    | Number(n: real)
    | Text(s: string)
    | Items(items: seq<Value>)
    | Plain(fields: map<string, Value>)
    | Opaque(written: Option<Json>)

  predicate Absent(v: Value) {
    v.Undefined? || v.Unwritten?
  }

  // --------------------------------------------------------------------------
  // What JSON writes
  // --------------------------------------------------------------------------

  /** What JSON.stringify writes, parsed back; None where it gives undefined. */
  function Written(v: Value): Option<Json>
    decreases v
  {
    match v
    case Undefined => None
    case Unwritten => None
    case Null => Some(JNull)
    case NonFinite => Some(JNull)
    case Boolean(b) => Some(JBool(b))
    case Number(n) => Some(JNumber(n))
    case Text(s) => Some(JString(s))
    case Items(items) => Some(JArray(seq(|items|, i requires 0 <= i < |items| => Written(items[i]).Or(JNull))))
    case Plain(fields) => Some(JObject(map k | k in fields && Written(fields[k]).Some? :: Written(fields[k]).value))
    case Opaque(written) => written
  }

  /** As the source parses what it serialized. */
  function Parsed(v: Value): Json {
    Written(v).Or(JNull)
  }

  // --------------------------------------------------------------------------
  // The walk
  // --------------------------------------------------------------------------

  function AsJson(v: Value): Value {
    if v.NonFinite? then Null else if Absent(v) then Undefined else v
  }

  predicate IsObject(v: Value) {
    v.Items? || v.Plain? || v.Opaque?
  }

  function PresentKeys(fields: map<string, Value>): set<string> {
    set k | k in fields && !Absent(fields[k])
  }

  /** An array's element against null, as an absent one is compared. */
  predicate SameAsNull(v: Value) {
    AsJson(v) == Null || (v.Opaque? && Parsed(v) == JNull)
  }

  /** The comparison; that one object is itself is a shortcut it takes to the same answer (SameAsItself). */
  predicate SameData(a: Value, b: Value)
    decreases a
  {
    var left, right := AsJson(a), AsJson(b);
    if !IsObject(left) && left == right then true
    else if left.Opaque? || right.Opaque? then Parsed(left) == Parsed(right)
    else if left.Items? && right.Items? then
      && |left.items| == |right.items|
      && forall i | 0 <= i < |left.items| :: SameItem(a, b, i)
    else if left.Plain? && right.Plain? then
      && |PresentKeys(left.fields)| == |PresentKeys(right.fields)|
      && forall k | k in PresentKeys(left.fields) ::
        k in right.fields && !Absent(right.fields[k]) && SameData(left.fields[k], right.fields[k])
    else false
  }

  predicate SameItem(a: Value, b: Value, i: nat)
    requires a.Items? && b.Items? && i < |a.items| && i < |b.items|
    decreases a, 0
  {
    var x, y := a.items[i], b.items[i];
    if Absent(x) then Absent(y) || SameAsNull(y)
    else if Absent(y) then SameAsNull(x)
    else SameData(x, y)
  }

  // --------------------------------------------------------------------------
  // Against what JSON writes
  // --------------------------------------------------------------------------

  /** An object JSON writes nothing of, as one whose toJSON gives undefined. */
  predicate Silent(v: Value) {
    v == Opaque(None)
  }

  /** No field the walk reaches holds such an object. */
  predicate NoSilentField(v: Value)
    decreases v
  {
    match v
    case Items(items) => forall i | 0 <= i < |items| :: NoSilentField(items[i])
    case Plain(fields) => forall k | k in fields :: !Silent(fields[k]) && NoSilentField(fields[k])
    case _ => true
  }

  lemma SubsetOfSameSize(a: set<string>, b: set<string>)
    requires a <= b && |a| == |b|
    ensures a == b
  {
    assert b == a + (b - a) && |b| == |a| + |b - a|;
    assert b - a == {};
  }

  lemma PlainWritten(fields: map<string, Value>)
    requires NoSilentField(Plain(fields))
    ensures Written(Plain(fields)).value.fields.Keys == PresentKeys(fields)
    ensures forall k | k in PresentKeys(fields) :: Written(Plain(fields)).value.fields[k] == Parsed(fields[k])
  {
  }

  lemma {:induction false} SameItems(a: Value, b: Value)
    requires a.Items? && b.Items? && NoSilentField(a) && NoSilentField(b)
    ensures SameData(a, b) <==> Parsed(a) == Parsed(b)
    decreases a, 0
  {
    var x, y := Written(a).value.items, Written(b).value.items;
    if |a.items| == |b.items| {
      forall i | 0 <= i < |a.items| ensures SameItem(a, b, i) <==> x[i] == y[i] {
        if !Absent(a.items[i]) && !Absent(b.items[i]) { WalkIsJson(a.items[i], b.items[i]); }
      }
      if SameData(a, b) { assert x == y; }
    }
  }

  lemma {:induction false} SamePlain(a: Value, b: Value)
    requires a.Plain? && b.Plain? && NoSilentField(a) && NoSilentField(b)
    ensures SameData(a, b) <==> Parsed(a) == Parsed(b)
    decreases a, 0
  {
    var x, y, p, q := Written(a).value.fields, Written(b).value.fields, PresentKeys(a.fields), PresentKeys(b.fields);
    PlainWritten(a.fields);
    PlainWritten(b.fields);
    forall k | k in p && k in q ensures SameData(a.fields[k], b.fields[k]) <==> x[k] == y[k] {
      WalkIsJson(a.fields[k], b.fields[k]);
    }
    if SameData(a, b) {
      SubsetOfSameSize(p, q);
      assert x == y;
    }
    if x == y { assert p == x.Keys == y.Keys == q; }
  }

  /** Where no field holds an object JSON writes nothing of, the walk answers what comparing the JSON would. */
  lemma {:induction false} WalkIsJson(a: Value, b: Value)
    requires !Absent(a) && !Absent(b) && NoSilentField(a) && NoSilentField(b)
    ensures SameData(a, b) <==> Parsed(a) == Parsed(b)
    decreases a
  {
    if a.Items? && b.Items? { SameItems(a, b); }
    else if a.Plain? && b.Plain? { SamePlain(a, b); }
  }

  /** The same object is the same data, so the shortcut for one changes no answer. */
  lemma {:induction false} SameAsItself(a: Value)
    ensures SameData(a, a)
    decreases a
  {
    match a
    case Items(items) =>
      forall i | 0 <= i < |items| ensures SameItem(a, a, i) { SameAsItself(items[i]); }
    case Plain(fields) =>
      forall k | k in PresentKeys(fields) ensures SameData(fields[k], fields[k]) { SameAsItself(fields[k]); }
    case _ =>
  }

  // --------------------------------------------------------------------------
  // And where it doesn't
  // --------------------------------------------------------------------------

  /** A value of plain data that JSON writes as given. */
  function Of(j: Json): Value
    decreases j
  {
    match j
    case JNull => Null
    case JBool(b) => Boolean(b)
    case JNumber(n) => Number(n)
    case JString(s) => Text(s)
    case JArray(items) => Items(seq(|items|, i requires 0 <= i < |items| => Of(items[i])))
    case JObject(fields) => Plain(map k | k in fields :: Of(fields[k]))
  }

  lemma {:induction false} WritesBack(j: Json)
    ensures Written(Of(j)) == Some(j) && NoSilentField(Of(j)) && !Absent(Of(j)) && !Of(j).Opaque?
    decreases j
  {
    match j
    case JArray(items) =>
      forall i | 0 <= i < |items| ensures Written(Of(items[i])) == Some(items[i]) && NoSilentField(Of(items[i])) {
        WritesBack(items[i]);
      }
      assert Written(Of(j)).value.items == items;
    case JObject(fields) =>
      forall k | k in fields
        ensures Written(Of(fields[k])) == Some(fields[k]) && NoSilentField(Of(fields[k])) && !Of(fields[k]).Opaque?
      {
        WritesBack(fields[k]);
      }
      assert Written(Of(j)).value.fields == fields;
    case _ =>
  }

  /** A walked value with such a field is not the same data as its own JSON read back. */
  lemma {:induction false} SilentFieldMissed(a: Value)
    requires !NoSilentField(a)
    ensures !SameData(a, Of(Parsed(a)))
    decreases a
  {
    var b := Of(Parsed(a));
    WritesBack(Parsed(a));
    match a
    case Items(items) =>
      var i :| 0 <= i < |items| && !NoSilentField(items[i]);
      SilentFieldMissed(items[i]);
      WritesBack(Parsed(items[i]));
      assert b.items[i] == Of(Parsed(items[i]));
      assert !SameItem(a, b, i);
    case Plain(fields) =>
      var k :| k in fields && (Silent(fields[k]) || !NoSilentField(fields[k]));
      if Silent(fields[k]) {
        assert Written(fields[k]).None?;
        assert k !in Written(a).value.fields;
        assert k !in b.fields;
        assert k in PresentKeys(fields);
      } else {
        SilentFieldMissed(fields[k]);
        assert k in PresentKeys(fields) && b.fields[k] == Of(Parsed(fields[k]));
      }
  }

  /**
   So the walk answers what JSON would, for every value of plain data beside it, exactly where no field of a value is
   silent.
   */
  lemma WalkIsJsonExactly(a: Value)
    requires !Absent(a)
    ensures NoSilentField(a) <==> forall b | !Absent(b) && NoSilentField(b) :: SameData(a, b) <==>
      Parsed(a) == Parsed(b)
  {
    if NoSilentField(a) {
      forall b | !Absent(b) && NoSilentField(b) ensures SameData(a, b) <==> Parsed(a) == Parsed(b) { WalkIsJson(a, b); }
    } else {
      SilentFieldMissed(a);
      WritesBack(Parsed(a));
      assert Parsed(a) == Parsed(Of(Parsed(a)));
    }
  }

  /**
   A field whose toJSON gives nothing counts as null: missed against the object without it, and taken for the one with
   null.
   */
  lemma SilentFieldCountsAsNull(key: string)
    ensures var silent := Plain(map[key := Opaque(None)]);
      && Parsed(silent) == Parsed(Plain(map[])) && !SameData(silent, Plain(map[]))
      && Parsed(silent) != Parsed(Plain(map[key := Null])) && SameData(silent, Plain(map[key := Null]))
  {
    var silent, nulled: map<string, Value> := map[key := Opaque(None)], map[key := Null];
    assert PresentKeys(silent) == {key} && PresentKeys(nulled) == {key};
    assert Written(silent[key]).None? && Written(Plain(silent)).value.fields == map[];
    assert key in Written(Plain(nulled)).value.fields;
    assert SameData(silent[key], nulled[key]);
  }
}
