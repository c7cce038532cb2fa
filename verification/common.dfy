/** Shared vocabulary: optional values, outcomes that may carry a raised
    exception, first-match search and filtering over ordered collections
    (the order a document store returns), and decimal rendering of numbers. */
module Common {

  datatype Option<T> = None | Some(value: T)

  /** The result of a Python call that either returns a value or raises
      an exception, named by its class (`"KeyError"`, `"ValueError"`, ...). */
  datatype Outcome<T> = Returned(value: T) | Raised(error: string)

  /** Index of the first element satisfying `p`, as `find_one` and
      `update_one` pick the first document in natural order. */
  function FirstIndex<T>(s: seq<T>, p: T -> bool): (r: Option<nat>)
    ensures r.Some? ==> r.value < |s| && p(s[r.value])
    ensures r.Some? ==> forall j :: 0 <= j < r.value ==> !p(s[j])
    ensures r.None? <==> forall j :: 0 <= j < |s| ==> !p(s[j])
  {
    if |s| == 0 then None
    else if p(s[0]) then Some(0)
    else match FirstIndex(s[1..], p)
      case None => None
      case Some(i) => Some(i + 1)
  }

  /** The elements satisfying `p`, in their original order, as `find`
      returns them. */
  function Filter<T(==)>(s: seq<T>, p: T -> bool): (r: seq<T>)
    ensures |r| <= |s|
    ensures forall i :: 0 <= i < |r| ==> r[i] in s && p(r[i])
    ensures forall j :: 0 <= j < |s| && p(s[j]) ==> s[j] in r
  {
    if |s| == 0 then []
    else
      var rest := Filter(s[1..], p);
      assert forall j :: 1 <= j < |s| ==> s[j] == s[1..][j - 1];
      if p(s[0]) then [s[0]] + rest else rest
  }

  /** Number of elements satisfying `p`. */
  function Count<T>(s: seq<T>, p: T -> bool): (n: nat)
    ensures n <= |s|
    ensures n == 0 <==> forall j :: 0 <= j < |s| ==> !p(s[j])
  {
    if |s| == 0 then 0
    else Count(s[1..], p) + (if p(s[0]) then 1 else 0)
  }

  /** When every element qualifies, all of them are counted. */
  lemma {:induction false} CountAll<T>(s: seq<T>, p: T -> bool)
    requires forall j :: 0 <= j < |s| ==> p(s[j])
    ensures Count(s, p) == |s|
  {
    if |s| > 0 {
      CountAll(s[1..], p);
    }
  }

  /** When every element qualifies, filtering keeps the whole sequence. */
  lemma {:induction false} FilterAll<T>(s: seq<T>, p: T -> bool)
    requires forall j :: 0 <= j < |s| ==> p(s[j])
    ensures Filter(s, p) == s
  {
    if |s| > 0 {
      FilterAll(s[1..], p);
      assert [s[0]] + s[1..] == s;
    }
  }

  /** Filtering distributes over concatenation, so the kept elements stay
      in their original order. */
  lemma {:induction false} FilterConcat<T>(s: seq<T>, t: seq<T>, p: T -> bool)
    ensures Filter(s + t, p) == Filter(s, p) + Filter(t, p)
  {
    if |s| == 0 {
      assert s + t == t;
    } else {
      FilterConcat(s[1..], t, p);
      assert (s + t)[1..] == s[1..] + t;
    }
  }

  lemma {:induction false} FilterCount<T>(s: seq<T>, p: T -> bool)
    ensures |Filter(s, p)| == Count(s, p)
  {
    if |s| > 0 {
      FilterCount(s[1..], p);
    }
  }

  /** Applies `f` to each element, passing it the element's position counted
      from `offset`; the first element that raises stops the loop and its
      error propagates, as a Python `for` loop over a list does. */
  function TraverseFrom<A, B>(s: seq<A>, f: (A, nat) -> Outcome<B>, offset: nat): (r: Outcome<seq<B>>)
    ensures r.Returned? ==> |r.value| == |s|
    decreases |s|
  {
    if |s| == 0 then Returned([])
    else match f(s[0], offset)
      case Raised(e) => Raised(e)
      case Returned(b) =>
        match TraverseFrom(s[1..], f, offset + 1)
        case Raised(e) => Raised(e)
        case Returned(bs) => Returned([b] + bs)
  }

  /** The traversal succeeds exactly when every application does, and then
      holds each application's result in order. */
  lemma {:induction false} TraverseFromElements<A, B>(s: seq<A>, f: (A, nat) -> Outcome<B>, offset: nat)
    ensures TraverseFrom(s, f, offset).Returned? <==> forall i :: 0 <= i < |s| ==> f(s[i], offset + i).Returned?
    ensures TraverseFrom(s, f, offset).Returned? ==>
              forall i :: 0 <= i < |s| ==> f(s[i], offset + i) == Returned(TraverseFrom(s, f, offset).value[i])
    decreases |s|
  {
    if |s| > 0 {
      var tail := s[1..];
      TraverseFromElements(tail, f, offset + 1);
      forall i | 1 <= i < |s|
        ensures f(s[i], offset + i) == f(tail[i - 1], offset + 1 + (i - 1))
      {
      }
    }
  }

  // ---------------------------------------------------------------------
  // Decimal rendering, as Python's `str` renders an int

  predicate IsDigit(c: char) { '0' <= c <= '9' }

  predicate AllDigits(s: string) { forall i :: 0 <= i < |s| ==> IsDigit(s[i]) }

  function DigitChar(d: nat): (c: char)
    requires d < 10
    ensures IsDigit(c) && (c as int) - ('0' as int) == d
  {
    ('0' as int + d) as char
  }

  function DigitValue(c: char): (d: nat)
    requires IsDigit(c)
    ensures d < 10 && DigitChar(d) == c
  {
    (c as int) - ('0' as int)
  }

  /** Decimal digits of `n`, most significant first, without leading zeros. */
  function NatToString(n: nat): (s: string)
    ensures 1 <= |s| && AllDigits(s)
    ensures s[0] == '0' ==> n == 0
    decreases n
  {
    if n < 10 then [DigitChar(n)] else NatToString(n / 10) + [DigitChar(n % 10)]
  }

  function ParseNat(s: string): nat
    requires AllDigits(s)
  {
    if |s| == 0 then 0 else ParseNat(s[..|s| - 1]) * 10 + DigitValue(s[|s| - 1])
  }

  /** Parsing undoes rendering. */
  lemma {:induction false} ParseNatToString(n: nat)
    ensures ParseNat(NatToString(n)) == n
    decreases n
  {
    var s := NatToString(n);
    if n >= 10 {
      assert s[..|s| - 1] == NatToString(n / 10);
      ParseNatToString(n / 10);
    }
  }

  /** Rendering is injective: distinct numbers have distinct decimal forms. */
  lemma NatToStringInjective(m: nat, n: nat)
    requires NatToString(m) == NatToString(n)
    ensures m == n
  {
    ParseNatToString(m);
    ParseNatToString(n);
  }

  function IntToString(n: int): (s: string)
    ensures 1 <= |s|
    ensures n >= 0 ==> s == NatToString(n)
    ensures n < 0 ==> s == "-" + NatToString(-n)
  {
    if n < 0 then "-" + NatToString(-n) else NatToString(n)
  }
}
