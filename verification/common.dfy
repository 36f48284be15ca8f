/** Small value types and sequence helpers shared by the model of dotnet-new2. */
module Common {

  /** A value that may be absent: the model of a C# reference that may be null. */
  datatype Option<+T> = None | Some(value: T) {
    function GetOr(default: T): T {
      match this
      case Some(v) => v
      case None => default
    }
  }

  /** A computation that either produced a value or threw an exception. */
  datatype Result<+T, +E> = Success(value: T) | Failure(error: E)

  /** Ordinal `String.StartsWith`: `prefix` is a prefix of `s`. */
  predicate StartsWith(s: string, prefix: string)
  {
    |prefix| <= |s| && s[..|prefix|] == prefix
  }

  /** Number of elements of `s` equal to `x` (what LINQ's `SingleOrDefault` counts). */
  function Occurrences<T(==)>(s: seq<T>, x: T): (n: nat)
    ensures n <= |s|
    ensures n == 0 <==> x !in s
  {
    if s == [] then 0 else (if s[0] == x then 1 else 0) + Occurrences(s[1..], x)
  }

  /** Two indices holding `x` make the count at least 2 (`SingleOrDefault` then throws). */
  lemma {:induction false} OccurrencesTwice<T>(s: seq<T>, x: T, i: nat, j: nat)
    requires i < j < |s| && s[i] == x && s[j] == x
    ensures Occurrences(s, x) >= 2
  {
    if i > 0 {
      OccurrencesTwice(s[1..], x, i - 1, j - 1);
    } else {
      assert s[1..][j - 1] == x;
    }
  }

  /** A count of 1 means a single index holds `x`. */
  lemma OccurrencesOnce<T>(s: seq<T>, x: T)
    requires Occurrences(s, x) == 1
    ensures exists i :: 0 <= i < |s| && s[i] == x && forall j :: 0 <= j < |s| && j != i ==> s[j] != x
  {
    var i :| 0 <= i < |s| && s[i] == x;
    forall j | 0 <= j < |s| && j != i
      ensures s[j] != x
    {
      if s[j] == x {
        if i < j { OccurrencesTwice(s, x, i, j); } else { OccurrencesTwice(s, x, j, i); }
      }
    }
  }

  /** The first element of `s` that satisfies `pred` (LINQ's `FirstOrDefault(pred)`). */
  function FirstWhere<T>(s: seq<T>, pred: T -> bool): (r: Option<T>)
    ensures r.None? <==> forall i :: 0 <= i < |s| ==> !pred(s[i])
    ensures r.Some? ==> r.value in s && pred(r.value)
  {
    if s == [] then None else if pred(s[0]) then Some(s[0]) else FirstWhere(s[1..], pred)
  }

  /** `FirstWhere` picks the element at the earliest index that satisfies `pred`. */
  lemma {:induction false} FirstWhereAt<T>(s: seq<T>, pred: T -> bool, i: nat)
    requires i < |s| && pred(s[i])
    requires forall j :: 0 <= j < i ==> !pred(s[j])
    ensures FirstWhere(s, pred) == Some(s[i])
  {
    if i > 0 {
      FirstWhereAt(s[1..], pred, i - 1);
    }
  }

  /** Searching a concatenation searches the left part first. */
  lemma {:induction false} FirstWhereAppend<T>(xs: seq<T>, ys: seq<T>, pred: T -> bool)
    ensures FirstWhere(xs + ys, pred) == if FirstWhere(xs, pred).Some? then FirstWhere(xs, pred) else FirstWhere(ys, pred)
  {
    if xs != [] {
      assert (xs + ys)[1..] == xs[1..] + ys;
      FirstWhereAppend(xs[1..], ys, pred);
    } else {
      assert xs + ys == ys;
    }
  }
}
