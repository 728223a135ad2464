/** The three value deconstructors of the Android bridge module: the general copy of a
    ReadableMap / ReadableArray into plain Java maps and lists, and the flattening of a
    tag map into a map of strings.

    The Java methods fill a `HashMap` through a key-set iterator and an `ArrayList` through
    a counted `for` loop; those loops are the methods below. Each method is proved equal to
    a specification function (`CopyMap`, `CopyArray`, `TagsOf`), and the
    properties the bridge relies on are lemmas about those functions. */
module Deconstruct {
  import opened Wrappers
  import opened ReadableValues
  import opened TimingEvents

  /** Whether the general copy's `switch` has a case for this kind (its `default` does nothing). */
  predicate Kept(v: Readable) {
    !v.Unsupported?
  }

  /** `ArrayList.add(index, x)`: insert `x` at `index`, shifting the later elements up;
      an index past the current size raises. */
  function ListAdd(list: seq<Readable>, index: int, x: Readable): (r: Result<seq<Readable>>)
    ensures r.Success? <==> 0 <= index <= |list|
    ensures r.Failure? ==> r.error == IndexOutOfBounds
    ensures r.Success? ==> |r.value| == |list| + 1 && r.value[index] == x
    ensures r.Success? ==> forall j :: 0 <= j < index ==> r.value[j] == list[j]
    ensures r.Success? ==> forall j :: index < j < |r.value| ==> r.value[j] == list[j - 1]
  {
    if 0 <= index <= |list| then Success(list[..index] + [x] + list[index..])
    else Failure(IndexOutOfBounds)
  }

  /** The position of the first element the array copy skips, or |a| if there is none. */
  function FirstSkipped(a: seq<Readable>): (p: nat)
    ensures p <= |a|
    ensures forall j :: 0 <= j < p ==> Kept(a[j])
    ensures p < |a| ==> !Kept(a[p])
  {
    if a == [] || !Kept(a[0]) then 0 else 1 + FirstSkipped(a[1..])
  }

  /** The copy of one kept entry: scalars are copied as they are, nested maps and arrays
      recursively. Every failure is an `IndexOutOfBounds` from a nested array. */
  function Copy(v: Readable): (r: Result<Readable>)
    requires Kept(v)
    decreases v, 1
    ensures r.Failure? ==> r.error == IndexOutOfBounds
    ensures r.Success? ==> AllSupported(r.value)
    ensures r.Success? && !v.MapValue? && !v.ArrayValue? ==> r.value == v
    ensures r.Success? ==> (v.MapValue? <==> r.value.MapValue?) && (v.ArrayValue? <==> r.value.ArrayValue?)
  {
    match v
    case MapValue(m) =>
      var c :- CopyMap(m);
      Success(MapValue(c))
    case ArrayValue(a) =>
      var c :- CopyArray(a);
      Success(ArrayValue(c))
    case _ => Success(v)
  }

  /** The general map copy: every kept key, with its copied value; unsupported keys are
      dropped. It fails iff the copy of some kept value fails. */
  function CopyMap(m: map<string, Readable>): (r: Result<map<string, Readable>>)
    decreases MapValue(m), 0
    ensures r.Failure? <==> exists k :: k in m && Kept(m[k]) && Copy(m[k]).Failure?
    ensures r.Failure? ==> r.error == IndexOutOfBounds
    ensures r.Success? ==> r.value.Keys == set k | k in m && Kept(m[k])
    ensures r.Success? ==> forall k :: k in r.value ==> Copy(m[k]) == Success(r.value[k])
    ensures r.Success? ==> forall k :: k in r.value ==> AllSupported(r.value[k])
  {
    if exists k :: k in m && Kept(m[k]) && Copy(m[k]).Failure? then Failure(IndexOutOfBounds)
    else Success(map k | k in m && Kept(m[k]) :: Copy(m[k]).value)
  }

  /** The general array copy with positional `add(i, ..)`: the elements before the first
      skipped one are copied in order; a kept element after a skipped one is inserted past
      the list's end and raises; skipped elements at the end are simply dropped. */
  function CopyArray(a: seq<Readable>): (r: Result<seq<Readable>>)
    decreases ArrayValue(a), 0
    ensures r.Success? <==>
              (forall j :: FirstSkipped(a) < j < |a| ==> !Kept(a[j])) &&
              (forall j :: 0 <= j < FirstSkipped(a) ==> Copy(a[j]).Success?)
    ensures r.Failure? ==> r.error == IndexOutOfBounds
    ensures r.Success? ==> |r.value| == FirstSkipped(a)
    ensures r.Success? ==> forall j :: 0 <= j < |r.value| ==> Copy(a[j]) == Success(r.value[j])
    ensures r.Success? ==> forall j :: 0 <= j < |r.value| ==> AllSupported(r.value[j])
  {
    var p := FirstSkipped(a);
    if exists j :: p < j < |a| && Kept(a[j]) then Failure(IndexOutOfBounds)
    else if exists j :: 0 <= j < p && Copy(a[j]).Failure? then Failure(IndexOutOfBounds)
    else Success(seq(p, j requires 0 <= j < p => Copy(a[j]).value))
  }

  /** One case of the `switch` on `ReadableType` shared by the map and array copies. */
  method ConvertEntry(v: Readable) returns (r: Result<Readable>)
    requires Kept(v)
    decreases v, 1
    ensures r == Copy(v)
  {
    match v
    case NullValue =>
      r := Success(NullValue);
    case BooleanValue(b) =>
      r := Success(BooleanValue(b));
    case NumberValue(d) =>
      r := Success(NumberValue(d));
    case StringValue(s) =>
      r := Success(StringValue(s));
    case MapValue(m) =>
      var c :- DeconstructMap(NonNull(m));
      r := Success(MapValue(c));
    case ArrayValue(a) =>
      var c :- DeconstructArray(a);
      r := Success(ArrayValue(c));
  }

  /** `recursivelyDeconstructReadableMap`: a null map gives an empty map; otherwise the
      keys are visited in the iterator's (unspecified) order and each kept one is put. */
  method DeconstructMap(readableMap: Nullable<ReadableMap>) returns (r: Result<map<string, Readable>>)
    decreases if readableMap.NonNull? then MapValue(readableMap.value) else NullValue, 0
    ensures readableMap.Null? ==> r == Success(map[])
    ensures readableMap.NonNull? ==> r == CopyMap(readableMap.value)
  {
    var deconstructedMap: map<string, Readable> := map[];
    if readableMap.Null? {
      return Success(deconstructedMap);
    }
    var m := readableMap.value;
    var keys := m.Keys;
    while keys != {}
      invariant keys <= m.Keys
      invariant forall k :: k in deconstructedMap ==> k in m && k !in keys && Kept(m[k])
      invariant forall k :: k in m && k !in keys && Kept(m[k]) ==> k in deconstructedMap
      invariant forall k :: k in deconstructedMap ==> Copy(m[k]) == Success(deconstructedMap[k])
      decreases keys
    {
      var key :| key in keys;
      keys := keys - {key};
      if Kept(m[key]) {
        var c := ConvertEntry(m[key]);
        if c.Failure? {
          assert CopyMap(m).Failure?;
          return Failure(c.error);
        }
        deconstructedMap := deconstructedMap[key := c.value];
      }
    }
    assert CopyMap(m).Success?;
    assert CopyMap(m).value.Keys == deconstructedMap.Keys;
    assert forall k :: k in deconstructedMap ==> CopyMap(m).value[k] == deconstructedMap[k];
    assert CopyMap(m).value == deconstructedMap;
    r := Success(deconstructedMap);
  }

  /** `recursivelyDeconstructReadableArray`: a counted loop that inserts each kept element
      at its own index with `ArrayList.add(i, ..)`. */
  method DeconstructArray(a: seq<Readable>) returns (r: Result<seq<Readable>>)
    decreases ArrayValue(a), 0
    ensures r == CopyArray(a)
  {
    ghost var p := FirstSkipped(a);
    var deconstructedList: seq<Readable> := [];
    for i := 0 to |a|
      invariant |deconstructedList| == if i <= p then i else p
      invariant forall j :: 0 <= j < |deconstructedList| ==> Copy(a[j]) == Success(deconstructedList[j])
      invariant forall j :: p < j < i ==> !Kept(a[j])
    {
      if Kept(a[i]) {
        var c := ConvertEntry(a[i]);
        if c.Failure? {
          return Failure(c.error);
        }
        var added := ListAdd(deconstructedList, i, c.value);
        if added.Failure? {
          return Failure(added.error);
        }
        deconstructedList := added.value;
      }
    }
    assert CopyArray(a).Success?;
    assert CopyArray(a).value == deconstructedList;
    return Success(deconstructedList);
  }

  /** Whether the tags copy has a case for this kind: maps, arrays and unsupported kinds
      are dropped. */
  predicate IsTagValue(v: Readable) {
    v.NullValue? || v.BooleanValue? || v.NumberValue? || v.StringValue?
  }

  /** `String.valueOf(boolean)`. */
  function BooleanText(b: bool): (s: string)
    ensures s == "true" || s == "false"
    ensures b <==> s == "true"
  {
    if b then "true" else "false"
  }

  /** The tag a kept value becomes; numbers are formatted by `formatDouble`
      (Java's `String.valueOf(double)`). */
  function TagValue(v: Readable, formatDouble: Double -> string): (t: Nullable<string>)
    requires IsTagValue(v)
    ensures t.Null? <==> v.NullValue?
    ensures v.BooleanValue? ==> (t.value == "true" <==> v.b) && (t.value == "false" <==> !v.b)
    ensures v.NumberValue? ==> t.value == formatDouble(v.d)
    ensures v.StringValue? ==> t.value == v.s
  {
    match v
    case NullValue => Null
    case BooleanValue(b) => NonNull(BooleanText(b))
    case NumberValue(d) => NonNull(formatDouble(d))
    case StringValue(s) => NonNull(s)
  }

  /** The tag map built from a non-null ReadableMap, stated kind by kind. */
  function TagsOf(m: ReadableMap, formatDouble: Double -> string): (t: Tags)
    ensures t.Keys <= m.Keys
    ensures forall k :: k in m ==> (k in t <==> IsTagValue(m[k]))
    ensures forall k :: k in m && m[k].NullValue? ==> k in t && t[k] == Null
    ensures forall k :: k in m && m[k].BooleanValue? ==> k in t && t[k] == NonNull(BooleanText(m[k].b))
    ensures forall k :: k in m && m[k].NumberValue? ==> k in t && t[k] == NonNull(formatDouble(m[k].d))
    ensures forall k :: k in m && m[k].StringValue? ==> k in t && t[k] == NonNull(m[k].s)
  {
    map k | k in m && IsTagValue(m[k]) :: TagValue(m[k], formatDouble)
  }

  /** `recursivelyDeconstructReadableMapString`: unlike the general copy it has no null
      guard, so a null tag map raises as soon as its key-set iterator is requested. */
  method DeconstructTags(readableMap: Nullable<ReadableMap>, formatDouble: Double -> string)
    returns (r: Result<Tags>)
    ensures readableMap.Null? ==> r == Failure(NullPointer)
    ensures readableMap.NonNull? ==> r == Success(TagsOf(readableMap.value, formatDouble))
  {
    if readableMap.Null? {
      return Failure(NullPointer);
    }
    var m := readableMap.value;
    var keys := m.Keys;
    var deconstructedMap: Tags := map[];
    while keys != {}
      invariant keys <= m.Keys
      invariant deconstructedMap.Keys == set k | k in m && k !in keys && IsTagValue(m[k])
      invariant forall k :: k in deconstructedMap ==> deconstructedMap[k] == TagValue(m[k], formatDouble)
      decreases keys
    {
      var key :| key in keys;
      keys := keys - {key};
      match m[key]
      case NullValue =>
        deconstructedMap := deconstructedMap[key := Null];
      case BooleanValue(b) =>
        deconstructedMap := deconstructedMap[key := NonNull(BooleanText(b))];
      case NumberValue(d) =>
        deconstructedMap := deconstructedMap[key := NonNull(formatDouble(d))];
      case StringValue(s) =>
        deconstructedMap := deconstructedMap[key := NonNull(s)];
      case _ =>
    }
    assert forall k :: k in m && IsTagValue(m[k]) ==> k in deconstructedMap;
    assert deconstructedMap == TagsOf(m, formatDouble);
    return Success(deconstructedMap);
  }

  /** On a tree built only from supported kinds the general copy is the identity. */
  lemma {:induction false} CopyIdentity(v: Readable)
    requires AllSupported(v)
    ensures Kept(v) && Copy(v) == Success(v)
    decreases v
  {
    match v
    case MapValue(m) =>
      forall k | k in m
        ensures Kept(m[k]) && Copy(m[k]) == Success(m[k])
      {
        CopyIdentity(m[k]);
      }
      CopyMapOfFixedPoints(m);
    case ArrayValue(a) =>
      forall j | 0 <= j < |a|
        ensures Kept(a[j]) && Copy(a[j]) == Success(a[j])
      {
        CopyIdentity(a[j]);
      }
      CopyArrayOfFixedPoints(a);
    case _ =>
  }

  /** A map whose values the copy leaves unchanged is itself left unchanged. */
  lemma CopyMapOfFixedPoints(m: map<string, Readable>)
    requires forall k :: k in m ==> Kept(m[k]) && Copy(m[k]) == Success(m[k])
    ensures CopyMap(m) == Success(m)
  {
    assert CopyMap(m).Success?;
    assert CopyMap(m).value.Keys == m.Keys;
    assert forall k :: k in m ==> CopyMap(m).value[k] == m[k];
    assert CopyMap(m).value == m;
  }

  /** An array whose elements the copy leaves unchanged is itself left unchanged. */
  lemma CopyArrayOfFixedPoints(a: seq<Readable>)
    requires forall j :: 0 <= j < |a| ==> Kept(a[j]) && Copy(a[j]) == Success(a[j])
    ensures CopyArray(a) == Success(a)
  {
    assert FirstSkipped(a) == |a|;
    assert CopyArray(a).Success?;
    assert CopyArray(a).value == a;
  }

  /** Copying a copy changes nothing. */
  lemma CopyIdempotent(v: Readable)
    requires Kept(v) && Copy(v).Success?
    ensures Kept(Copy(v).value) && Copy(Copy(v).value) == Copy(v)
  {
    CopyIdentity(Copy(v).value);
  }

  /** The general map copy on supported values keeps every key with an equal value. */
  lemma CopyMapIdentity(m: ReadableMap)
    requires forall k :: k in m ==> AllSupported(m[k])
    ensures CopyMap(m) == Success(m)
  {
    CopyIdentity(MapValue(m));
  }

  /** When every element is kept and copies, the array copy preserves length and order. */
  lemma ArrayPositionsPreserved(a: seq<Readable>)
    requires forall j :: 0 <= j < |a| ==> Kept(a[j]) && Copy(a[j]).Success?
    ensures CopyArray(a).Success? && |CopyArray(a).value| == |a|
    ensures forall j :: 0 <= j < |a| ==> CopyArray(a).value[j] == Copy(a[j]).value
  {
    assert FirstSkipped(a) == |a|;
  }

  /** A skipped element followed by a kept one makes the array copy raise. */
  lemma SkipThenKeptFails(a: seq<Readable>, i: nat, j: nat)
    requires i < j < |a| && !Kept(a[i]) && Kept(a[j])
    ensures CopyArray(a) == Failure(IndexOutOfBounds)
  {
    assert FirstSkipped(a) <= i;
  }

  /** The tags example: `{a: true, b: 3.5, c: "x", d: null, e: {nested: 1}}` becomes
      `{a: "true", b: "3.5", c: "x", d: null}`, with `e` absent. */
  lemma TagsExample(three: Double, half: Double, formatDouble: Double -> string)
    requires formatDouble(half) == "3.5"
    ensures TagsOf(map["a" := BooleanValue(true), "b" := NumberValue(half), "c" := StringValue("x"),
                       "d" := NullValue, "e" := MapValue(map["nested" := NumberValue(three)])],
                   formatDouble)
         == map["a" := NonNull("true"), "b" := NonNull("3.5"), "c" := NonNull("x"), "d" := Null]
  {
    var m := map["a" := BooleanValue(true), "b" := NumberValue(half), "c" := StringValue("x"),
                 "d" := NullValue, "e" := MapValue(map["nested" := NumberValue(three)])];
    var t := TagsOf(m, formatDouble);
    assert "e" !in t;
    assert t.Keys == {"a", "b", "c", "d"};
  }
}
