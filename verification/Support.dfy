/** Result types shared by every module. */
module Support {
  datatype Option<+T> = None | Some(value: T)

  datatype Result<+T, +E> = Ok(value: T) | Err(error: E)

  /** The slice s[:k] for any integer k: a negative k counts from the end. */
  function PyTake<T>(s: seq<T>, k: int): (r: seq<T>)
    ensures r <= s
    ensures k >= 0 ==> |r| == if k < |s| then k else |s|
  {
    if k >= |s| then s
    else if k >= 0 then s[..k]
    else if |s| + k >= 0 then s[..|s| + k]
    else []
  }

  /** The list [x] * n, which is empty for a negative n. */
  function Repeat<T>(x: T, n: int): (r: seq<T>)
    ensures |r| == if n > 0 then n else 0
    ensures forall i :: 0 <= i < |r| ==> r[i] == x
  {
    if n <= 0 then [] else seq(n, i => x)
  }

  function One(b: bool): nat {
    if b then 1 else 0
  }

  lemma Associate<T>(a: seq<T>, b: seq<T>, c: seq<T>)
    ensures (a + b) + c == a + (b + c)
  {
  }

  /** A fraction whose numerator lies between 0 and its positive denominator is in [0, 1]. */
  lemma FractionInUnit(a: real, b: real)
    requires b > 0.0
    ensures (0.0 <= a ==> 0.0 <= a / b) && (a <= b ==> a / b <= 1.0)
    ensures a / b == 1.0 <==> a == b
  {
    assert a / b * b == a;
    SignOfFactor(a / b, b);
    SignOfFactor(1.0 - a / b, b);
  }

  /** A product with a positive factor has the sign of the other factor. */
  lemma SignOfFactor(x: real, c: real)
    requires c > 0.0
    ensures x * c >= 0.0 <==> x >= 0.0
  {
  }

  /** Larger numerators over the same positive denominator give larger fractions. */
  lemma FractionMonotone(a: real, b: real, c: real)
    requires a <= b && c > 0.0
    ensures a / c <= b / c
  {
    assert a / c * c == a && b / c * c == b;
    SignOfFactor(b / c - a / c, c);
  }

  lemma ProductMonotone(a: real, b: real, c: real)
    requires a <= b && c >= 0.0
    ensures a * c <= b * c
  {
  }
}

/** Python's round(x, 4): the nearest multiple of 0.0001, ties to the even multiple. */
module Rounding {
  function Nearest(x: real): (n: int)
    ensures x - 0.5 <= n as real <= x + 0.5
    ensures n as real == x + 0.5 || n as real == x - 0.5 ==> n % 2 == 0
  {
    var low := x.Floor;
    var part := x - low as real;
    if part < 0.5 || (part == 0.5 && low % 2 == 0) then low else low + 1
  }

  function Round4(x: real): real {
    Nearest(x * 10000.0) as real / 10000.0
  }

  /** Rounding never reverses an order. */
  lemma Round4Monotone(x: real, y: real)
    requires x <= y
    ensures Round4(x) <= Round4(y)
  {
    var a, b := x * 10000.0, y * 10000.0;
    assert a <= b;
    assert a.Floor <= b.Floor;
    assert Nearest(a) <= Nearest(b);
  }

  /** A value with at most four decimal places is its own rounding. */
  lemma Round4Fixed(n: int)
    ensures Round4(n as real / 10000.0) == n as real / 10000.0
  {
    assert n as real / 10000.0 * 10000.0 == n as real;
    assert (n as real).Floor == n;
  }

  /** Rounding keeps fractions in [0, 1], and keeps 0 itself. */
  lemma Round4InUnit(x: real)
    requires 0.0 <= x <= 1.0
    ensures 0.0 <= Round4(x) <= 1.0 && Round4(0.0) == 0.0
  {
    Round4Fixed(0);
    Round4Fixed(10000);
    assert 0 as real / 10000.0 == 0.0 && 10000 as real / 10000.0 == 1.0;
    Round4Monotone(0.0, x);
    Round4Monotone(x, 1.0);
  }
}

/** The built-in sorted, for numbers. */
module Sorting {
  predicate Ascending(s: seq<real>) {
    forall i, j :: 0 <= i < j < |s| ==> s[i] <= s[j]
  }

  predicate Descending(s: seq<real>) {
    forall i, j :: 0 <= i < j < |s| ==> s[i] >= s[j]
  }

  function Insert(x: real, s: seq<real>): (r: seq<real>)
    ensures multiset(r) == multiset(s) + multiset{x}
  {
    if s == [] then
      [x]
    else if x <= s[0] then
      [x] + s
    else
      assert s == [s[0]] + s[1..];
      [s[0]] + Insert(x, s[1..])
  }

  lemma {:induction false} InsertMembers(x: real, s: seq<real>)
    ensures forall j :: 0 <= j < |Insert(x, s)| ==> Insert(x, s)[j] == x || Insert(x, s)[j] in s
  {
    if s != [] && x > s[0] {
      InsertMembers(x, s[1..]);
    }
  }

  lemma {:induction false} InsertAscending(x: real, s: seq<real>)
    requires Ascending(s)
    ensures Ascending(Insert(x, s))
  {
    if s != [] && x > s[0] {
      InsertAscending(x, s[1..]);
      InsertMembers(x, s[1..]);
    }
  }

  function Sorted(s: seq<real>): (r: seq<real>)
    ensures Ascending(r) && multiset(r) == multiset(s) && |r| == |s|
  {
    if s == [] then []
    else
      assert s == [s[0]] + s[1..];
      var rest := Sorted(s[1..]);
      var r := Insert(s[0], rest);
      InsertAscending(s[0], rest);
      assert |multiset(r)| == |multiset(s)|;
      r
  }

  function Reverse(s: seq<real>): (r: seq<real>)
    ensures |r| == |s| && forall i :: 0 <= i < |s| ==> r[i] == s[|s| - 1 - i]
    ensures multiset(r) == multiset(s)
  {
    if s == [] then []
    else
      assert s == s[..|s| - 1] + [s[|s| - 1]];
      [s[|s| - 1]] + Reverse(s[..|s| - 1])
  }

  function SortedDescending(s: seq<real>): (r: seq<real>)
    ensures Descending(r) && multiset(r) == multiset(s) && |r| == |s|
  {
    Reverse(Sorted(s))
  }

  /** The first element of a sorted list is below every element of any rearrangement. */
  lemma FirstIsLeast(a: seq<real>, b: seq<real>)
    requires Ascending(a) && multiset(a) == multiset(b) && b != []
    ensures a != [] && a[0] <= b[0]
  {
    assert b[0] in multiset(a);
  }

  lemma TailMultiset(s: seq<real>)
    requires s != []
    ensures multiset(s[1..]) == multiset(s) - multiset{s[0]}
  {
    assert s == [s[0]] + s[1..];
  }

  /** Lists with the same elements and the same head have tails with the same elements. */
  lemma SameTails(s: seq<real>, t: seq<real>)
    requires multiset(s) == multiset(t) && s != [] && t != [] && s[0] == t[0]
    ensures multiset(s[1..]) == multiset(t[1..])
  {
    TailMultiset(s);
    TailMultiset(t);
  }

  /** There is only one way to sort. */
  lemma {:induction false} SortedUnique(a: seq<real>, b: seq<real>)
    requires Ascending(a) && Ascending(b) && multiset(a) == multiset(b)
    ensures a == b
  {
    if b == [] {
      assert |multiset(a)| == 0;
    } else {
      FirstIsLeast(a, b);
      FirstIsLeast(b, a);
      SameTails(a, b);
      SortedUnique(a[1..], b[1..]);
    }
  }

  lemma SortedIgnoresOrder(a: seq<real>, b: seq<real>)
    requires multiset(a) == multiset(b)
    ensures Sorted(a) == Sorted(b) && |a| == |b|
  {
    SortedUnique(Sorted(a), Sorted(b));
    assert |multiset(a)| == |multiset(b)|;
  }

  lemma SameMembers(s: seq<real>, t: seq<real>, v: real)
    requires multiset(s) == multiset(t) && v in s
    ensures v in t
  {
    assert v in multiset(s);
  }

  /** The ends of a sorted list are the extremes of the original. */
  lemma SortedExtremes(s: seq<real>)
    requires s != []
    ensures Sorted(s) != [] && Sorted(s)[0] in s && Sorted(s)[|s| - 1] in s
    ensures forall v :: v in s ==> Sorted(s)[0] <= v <= Sorted(s)[|s| - 1]
  {
    ExtremesOfSorted(s, Sorted(s));
  }

  lemma ExtremesOfSorted(s: seq<real>, o: seq<real>)
    requires s != [] && Ascending(o) && multiset(o) == multiset(s) && |o| == |s|
    ensures o[0] in s && o[|s| - 1] in s
    ensures forall v :: v in s ==> o[0] <= v <= o[|s| - 1]
  {
    SameMembers(o, s, o[0]);
    SameMembers(o, s, o[|s| - 1]);
    forall v | v in s ensures o[0] <= v <= o[|s| - 1] {
      SameMembers(s, o, v);
    }
  }
}
