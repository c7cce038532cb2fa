/** Dictionary-shaped documents as the property, booking and user code passes
    them around: string keys mapped to dynamically typed values, with the
    Python truthiness, `dict.get`, equality-filter matching, `str()` and `*`
    the code relies on. Dates are day numbers; an availability range is a
    `Span`. */
module Documents {
  import opened Common

  datatype Value =
    | Null
    | Str(s: string)
    | Num(n: int)
    | Bool(b: bool)
    | List(items: seq<Value>)
    | Span(start: int, end: int)   // {"start_date": start, "end_date": end}

  type Doc = map<string, Value>

  /** Python truthiness: `None`, `""`, `0`, `False` and `[]` are false. */
  predicate Truthy(v: Value)
  {
    match v
    case Null => false
    case Str(s) => s != ""
    case Num(n) => n != 0
    case Bool(b) => b
    case List(items) => |items| > 0
    case Span(_, _) => true
  }

  /** `d.get(k, default)`. */
  function Get(d: Doc, k: string, default: Value): (v: Value)
    ensures k in d ==> v == d[k]
    ensures k !in d ==> v == default
  {
    if k in d then d[k] else default
  }

  /** A Mongo equality filter: every filtered field equals the given value,
      a missing field counting as null. */
  predicate Matches(d: Doc, filter: Doc)
  {
    forall k :: k in filter ==> Get(d, k, Null) == filter[k]
  }

  /** `find_one(filter)`: position of the first matching document. */
  function FindOne(docs: seq<Doc>, filter: Doc): (r: Option<nat>)
    ensures r.Some? ==> r.value < |docs| && Matches(docs[r.value], filter)
    ensures r.Some? ==> forall j :: 0 <= j < r.value ==> !Matches(docs[j], filter)
    ensures r.None? <==> forall j :: 0 <= j < |docs| ==> !Matches(docs[j], filter)
  {
    FirstIndex(docs, (d: Doc) => Matches(d, filter))
  }

  /** `find(filter)`: the matching documents in natural order. */
  function FindAll(docs: seq<Doc>, filter: Doc): (r: seq<Doc>)
    ensures |r| <= |docs|
    ensures forall i :: 0 <= i < |r| ==> r[i] in docs && Matches(r[i], filter)
    ensures forall j :: 0 <= j < |docs| && Matches(docs[j], filter) ==> docs[j] in r
    ensures |r| == Count(docs, (d: Doc) => Matches(d, filter))
  {
    FilterCount(docs, (d: Doc) => Matches(d, filter));
    Filter(docs, (d: Doc) => Matches(d, filter))
  }

  /** A single-field filter `{k: v}`. */
  function Field(k: string, v: Value): (f: Doc)
    ensures forall d :: Matches(d, f) <==> Get(d, k, Null) == v
  {
    map[k := v]
  }

  // ---------------------------------------------------------------------
  // str() and repr()

  /** Python's `str` of a non-list value. */
  function ShowScalar(v: Value): string
    requires !v.List?
  {
    match v
    case Null => "None"
    case Str(s) => s
    case Num(n) => IntToString(n)
    case Bool(b) => if b then "True" else "False"
    case Span(a, b) => "{'start_date': " + IntToString(a) + ", 'end_date': " + IntToString(b) + "}"
  }

  /** Python's `repr`, as it appears inside a printed list. */
  function Repr(v: Value): string
    decreases v
  {
    match v
    case Str(s) => "'" + s + "'"
    case List(_) => "[" + ReprItems(v, 0) + "]"
    case _ => ShowScalar(v)
  }

  function ReprItems(v: Value, i: nat): string
    requires v.List? && i <= |v.items|
    decreases v, |v.items| - i
  {
    if i == |v.items| then ""
    else (if i == 0 then "" else ", ") + Repr(v.items[i]) + ReprItems(v, i + 1)
  }

  /** Python's `str`, as an f-string renders a value. */
  function Show(v: Value): (r: string)
    ensures v.Str? ==> r == v.s
    ensures v.Num? ==> r == IntToString(v.n)
  {
    if v.List? then Repr(v) else ShowScalar(v)
  }

  // ---------------------------------------------------------------------
  // The `*` operator

  function Repeat<T>(s: seq<T>, k: int): (r: seq<T>)
    ensures |r| == if k <= 0 then 0 else k * |s|
    decreases k
  {
    if k <= 0 then [] else s + Repeat(s, k - 1)
  }

  /** `v * k` for an integer `k`: numbers (and booleans, as 0/1) multiply,
      strings and lists repeat, anything else raises `TypeError`. */
  function Mul(v: Value, k: int): (r: Outcome<Value>)
    ensures v.Num? ==> r == Returned(Num(v.n * k))
    ensures v.Null? || v.Span? ==> r == Raised("TypeError")
  {
    match v
    case Num(n) => Returned(Num(n * k))
    case Bool(b) => Returned(Num((if b then 1 else 0) * k))
    case Str(s) => Returned(Str(Repeat(s, k)))
    case List(items) => Returned(List(Repeat(items, k)))
    case Null => Raised("TypeError")
    case Span(_, _) => Raised("TypeError")
  }
}
