/** Small shared vocabulary: optional values, results, and finite sums over sequences. */
module Prelude {
  datatype Option<+T> = None | Some(value: T)

  datatype Result<+T, +E> = Ok(value: T) | Err(error: E)

  function Sum(s: seq<int>): int {
    if s == [] then 0 else Sum(s[..|s| - 1]) + s[|s| - 1]
  }

  lemma {:induction false} SumAppend(s: seq<int>, x: int)
    ensures Sum(s + [x]) == Sum(s) + x
  {
    assert (s + [x])[..|s|] == s;
  }

  /** Replacing one summand moves the total by exactly the difference. */
  lemma {:induction false} SumUpdate(s: seq<int>, i: nat, x: int)
    requires i < |s|
    ensures Sum(s[i := x]) == Sum(s) - s[i] + x
  {
    var n := |s| - 1;
    if i == n {
      assert s[i := x][..n] == s[..n];
    } else {
      assert s[i := x][..n] == s[..n][i := x];
      SumUpdate(s[..n], i, x);
    }
  }

  /** Non-negative summands are each bounded by their total. */
  lemma {:induction false} SumBounds(s: seq<int>, i: nat)
    requires i < |s|
    requires forall k | 0 <= k < |s| :: s[k] >= 0
    ensures 0 <= s[i] <= Sum(s)
  {
    SumNonNegative(s[..|s| - 1]);
    if i < |s| - 1 {
      SumBounds(s[..|s| - 1], i);
    }
  }

  lemma {:induction false} SumNonNegative(s: seq<int>)
    requires forall k | 0 <= k < |s| :: s[k] >= 0
    ensures Sum(s) >= 0
  {
    if s != [] {
      SumNonNegative(s[..|s| - 1]);
    }
  }

  predicate NoRepeats<T(==)>(s: seq<T>) {
    forall i, j | 0 <= i < j < |s| :: s[i] != s[j]
  }

  // Separators.

  function Split<T(==)>(s: seq<T>, separator: T): (parts: seq<seq<T>>)
    ensures |parts| >= 1
  {
    if s == [] then [[]]
    else
      var rest := Split(s[1..], separator);
      if s[0] == separator then [[]] + rest else [[s[0]] + rest[0]] + rest[1..]
  }

  function Joined<T>(parts: seq<seq<T>>, separator: T): seq<T>
    requires parts != []
  {
    if |parts| == 1 then parts[0] else parts[0] + ([separator] + Joined(parts[1..], separator))
  }

  lemma {:induction false} SplitOfWhole<T>(s: seq<T>, separator: T)
    requires separator !in s
    ensures Split(s, separator) == [s]
  {
    if s != [] {
      SplitOfWhole(s[1..], separator);
      assert s == [s[0]] + s[1..];
    }
  }

  lemma {:induction false} SplitOfFirst<T>(a: seq<T>, rest: seq<T>, separator: T)
    requires separator !in a
    ensures Split(a + ([separator] + rest), separator) == [a] + Split(rest, separator)
  {
    var s := a + ([separator] + rest);
    if a == [] {
      assert s[1..] == rest;
    } else {
      assert s[1..] == a[1..] + ([separator] + rest);
      SplitOfFirst(a[1..], rest, separator);
      assert a == [a[0]] + a[1..];
      assert ([a[1..]] + Split(rest, separator))[1..] == Split(rest, separator);
    }
  }

  /** Splitting at a separator undoes joining parts that do not contain it. */
  lemma {:induction false} SplitOfJoined<T>(parts: seq<seq<T>>, separator: T)
    requires parts != [] && forall k | 0 <= k < |parts| :: separator !in parts[k]
    ensures Split(Joined(parts, separator), separator) == parts
    decreases |parts|
  {
    assert parts == [parts[0]] + parts[1..];
    if |parts| == 1 {
      SplitOfWhole(parts[0], separator);
    } else {
      SplitOfJoined(parts[1..], separator);
      SplitOfFirst(parts[0], Joined(parts[1..], separator), separator);
    }
  }
}
