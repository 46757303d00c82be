// Small vocabulary shared by every module.

module Prelude {

  datatype Option<+T> = None | Some(value: T)

  // Run identifiers are distinct strings; only their identity and their order matter.
  type RunId = nat

  // The chronological key of a run: its end time, missing ones first, ties by run id.
  datatype Chron = Chron(end: Option<real>, run: RunId)

  predicate EndsBefore(a: Option<real>, b: Option<real>) {
    b.Some? && (a.None? || a.value < b.value)
  }

  predicate Before(a: Chron, b: Chron) {
    EndsBefore(a.end, b.end) || (a.end == b.end && a.run < b.run)
  }

  function Max(a: real, b: real): real {
    if a < b then b else a
  }

  function Min(a: real, b: real): real {
    if b < a then b else a
  }

  // The elements of `s` that satisfy `keep`, in order.
  function Filter<T>(s: seq<T>, keep: T -> bool): (r: seq<T>)
    ensures forall x | x in r :: x in s && keep(x)
    ensures forall x | x in s && keep(x) :: x in r
  {
    if s == [] then [] else (if keep(s[0]) then [s[0]] else []) + Filter(s[1..], keep)
  }

  function MapSeq<T, U>(s: seq<T>, f: T -> U): (r: seq<U>)
    ensures |r| == |s| && forall i :: 0 <= i < |s| ==> r[i] == f(s[i])
  {
    seq(|s|, i requires 0 <= i < |s| => f(s[i]))
  }

  ghost predicate Distinct<T>(s: seq<T>) {
    forall i, j :: 0 <= i < j < |s| ==> s[i] != s[j]
  }

  function Elements<T>(s: seq<T>): set<T> {
    set x | x in s
  }

  lemma {:induction false} DistinctCount<T>(s: seq<T>)
    requires Distinct(s)
    ensures |Elements(s)| == |s|
  {
    if s != [] {
      DistinctCount(s[1..]);
      assert Elements(s) == {s[0]} + Elements(s[1..]);
    }
  }

  // A sequence without repetitions over a finite set is no longer than the set.
  lemma DistinctBound<T>(s: seq<T>, within: set<T>)
    requires Distinct(s) && forall x :: x in s ==> x in within
    ensures |s| <= |within|
  {
    DistinctCount(s);
    SubsetSize(Elements(s), within);
  }

  lemma {:induction false} SubsetSize<T>(a: set<T>, b: set<T>)
    requires a <= b
    ensures |a| <= |b|
    ensures a != b ==> |a| < |b|
  {
    assert b == a + (b - a);
  }

  // Decimal notation.
  function Digits(n: nat): string {
    (if n < 10 then "" else Digits(n / 10)) + [('0' as int + n % 10) as char]
  }

  lemma {:induction false} DigitsPlain(n: nat)
    ensures |Digits(n)| >= 1 && '#' !in Digits(n)
  {
    if n >= 10 {
      DigitsPlain(n / 10);
    }
  }
}
