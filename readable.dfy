/** The dynamically typed values that React Native hands to a native module:
    a `ReadableMap` or `ReadableArray` whose entries are tagged with a `ReadableType`. */
module ReadableValues {
  import opened Wrappers

  /** An IEEE-754 binary64 number, kept as its bit pattern. The model never does
      arithmetic on it; formatting it as text is a parameter where it is needed. */
  datatype Double = Double(bits: bv64)

  /** One entry of a ReadableMap or ReadableArray, by its `ReadableType`.
      `Unsupported` stands for a kind outside those six, which `ReadableType` does not have;
      it exercises the `default` branches of the bridge's `switch` statements. */
  datatype Readable =
    | NullValue
    | BooleanValue(b: bool)
    | NumberValue(d: Double)
    | StringValue(s: string)
    | MapValue(entries: map<string, Readable>)
    | ArrayValue(items: seq<Readable>)
    | Unsupported

  type ReadableMap = map<string, Readable>

  /** True iff no `Unsupported` value occurs anywhere in the tree. */
  predicate AllSupported(v: Readable) {
    match v
    case Unsupported => false
    case MapValue(m) => forall k :: k in m ==> AllSupported(m[k])
    case ArrayValue(a) => forall i :: 0 <= i < |a| ==> AllSupported(a[i])
    case _ => true
  }

  /** React Native's `ReadableMap.getString(key)`: null for a null entry, the string
      for a string entry; any other kind (or a missing key) raises. */
  function GetString(m: ReadableMap, key: string): (r: Result<Nullable<string>>)
    ensures r.Success? <==> key in m && (m[key].NullValue? || m[key].StringValue?)
    ensures r == Success(Null) <==> key in m && m[key].NullValue?
    ensures r.Success? && r.value.NonNull? ==> m[key] == StringValue(r.value.value)
  {
    if key !in m then Failure(UnexpectedNativeType)
    else match m[key]
      case NullValue => Success(Null)
      case StringValue(s) => Success(NonNull(s))
      case _ => Failure(UnexpectedNativeType)
  }

  /** React Native's `ReadableMap.getBoolean(key)`: the boolean of a boolean entry;
      a null entry, any other kind or a missing key raises. */
  function GetBoolean(m: ReadableMap, key: string): (r: Result<bool>)
    ensures r.Success? <==> key in m && m[key].BooleanValue?
    ensures r.Success? ==> m[key] == BooleanValue(r.value)
  {
    if key in m && m[key].BooleanValue? then Success(m[key].b) else Failure(UnexpectedNativeType)
  }
}
