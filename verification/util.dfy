/** Sequence and string helpers shared by the server, client and legacy models:
    the JavaScript array operations `filter` and `find` and the string tests
    `startsWith` and `includes`, written once as functions. */
module Util {

  datatype Option<T> = None | Some(value: T)

  /** A computation that either yields a value or raises an error with a message. */
  datatype Result<T> = Success(value: T) | Failure(error: string)

  /** The elements of `xs` that satisfy `keep`, in their original order
      (`Array.prototype.filter`). */
  function Filter<T>(xs: seq<T>, keep: T -> bool): (r: seq<T>)
    ensures |r| <= |xs|
    ensures forall i | 0 <= i < |r| :: r[i] in xs && keep(r[i])
    ensures forall i | 0 <= i < |xs| :: keep(xs[i]) ==> xs[i] in r
  {
    if xs == [] then []
    else (if keep(xs[0]) then [xs[0]] else []) + Filter(xs[1..], keep)
  }

  /** Filtering distributes over concatenation: together with the one-element
      case this says that `Filter` keeps the order of what it keeps. */
  lemma {:induction false} FilterAppend<T>(a: seq<T>, b: seq<T>, keep: T -> bool)
    ensures Filter(a + b, keep) == Filter(a, keep) + Filter(b, keep)
  {
    if a == [] {
      assert a + b == b;
    } else {
      assert (a + b)[0] == a[0];
      assert (a + b)[1..] == a[1..] + b;
      FilterAppend(a[1..], b, keep);
    }
  }

  /** Filtering leaves the length unchanged exactly when every element is kept,
      and then it leaves the whole sequence unchanged. */
  lemma {:induction false} FilterUnchangedIffAllKept<T>(xs: seq<T>, keep: T -> bool)
    ensures |Filter(xs, keep)| == |xs| <==> forall i | 0 <= i < |xs| :: keep(xs[i])
    ensures (forall i | 0 <= i < |xs| :: keep(xs[i])) ==> Filter(xs, keep) == xs
  {
    if xs != [] {
      FilterUnchangedIffAllKept(xs[1..], keep);
      assert forall i | 1 <= i < |xs| :: xs[i] == xs[1..][i - 1];
      if keep(xs[0]) {
        if forall i | 0 <= i < |xs| :: keep(xs[i]) {
          assert Filter(xs, keep) == [xs[0]] + xs[1..];
          assert [xs[0]] + xs[1..] == xs;
        }
      } else {
        assert |Filter(xs, keep)| == |Filter(xs[1..], keep)| <= |xs| - 1;
      }
    }
  }

  /** When exactly the element at `i` fails `keep`, filtering cuts out just that element. */
  lemma {:induction false} FilterDropsOne<T>(xs: seq<T>, i: nat, keep: T -> bool)
    requires i < |xs| && !keep(xs[i])
    requires forall j | 0 <= j < |xs| && j != i :: keep(xs[j])
    ensures Filter(xs, keep) == xs[..i] + xs[i + 1..]
  {
    if i == 0 {
      FilterUnchangedIffAllKept(xs[1..], keep);
    } else {
      FilterDropsOne(xs[1..], i - 1, keep);
      assert xs[1..][..i - 1] == xs[1..i];
      assert xs[1..][i..] == xs[i + 1..];
      assert [xs[0]] + xs[1..i] == xs[..i];
    }
  }

  /** The position of the first element satisfying `p` (`Array.prototype.find`
      and `findIndex`), or None when there is none. */
  function FirstIndex<T>(xs: seq<T>, p: T -> bool): (r: Option<nat>)
    ensures r.Some? ==> r.value < |xs| && p(xs[r.value])
    ensures r.Some? ==> forall j | 0 <= j < r.value :: !p(xs[j])
    ensures r.None? <==> forall j | 0 <= j < |xs| :: !p(xs[j])
  {
    if xs == [] then None
    else if p(xs[0]) then Some(0)
    else match FirstIndex(xs[1..], p)
      case None => None
      case Some(k) => Some(k + 1)
  }

  /** `s.startsWith(prefix)` / Python's `str.startswith`. */
  predicate StartsWith(s: string, prefix: string)
  {
    |prefix| <= |s| && s[..|prefix|] == prefix
  }

  /** `sub` occurs in `s` starting at position `i`. */
  predicate OccursAt(s: string, sub: string, i: int)
  {
    0 <= i && i + |sub| <= |s| && s[i..i + |sub|] == sub
  }

  /** `s.includes(sub)`: `sub` occurs somewhere in `s`. */
  predicate Contains(s: string, sub: string)
  {
    exists i | 0 <= i <= |s| - |sub| :: OccursAt(s, sub, i)
  }

  /** A string with no occurrence of the first character of `sub` does not contain `sub`. */
  lemma NotContainsWithoutFirstChar(s: string, sub: string)
    requires |sub| > 0
    requires forall i | 0 <= i < |s| :: s[i] != sub[0]
    ensures !Contains(s, sub)
  {
    forall i | 0 <= i <= |s| - |sub| ensures !OccursAt(s, sub, i) {
      assert s[i..i + |sub|][0] == s[i];
    }
  }
}
