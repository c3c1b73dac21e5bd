/** Values shared by every part of the storefront model: JavaScript's
    "maybe undefined" as an Option, and Array.prototype.filter with the
    order-preserving subsequence relation it establishes. */
module Common {

  /** A JavaScript value that may be `undefined` or `null` (None). */
  datatype Option<+T> = None | Some(value: T) {
    function GetOr(default: T): T {
      match this
      case Some(v) => v
      case None => default
    }
  }

  /** The outcome of an operation that may throw: its value, or the message
      of the Error it throws. */
  datatype Result<+T> = Ok(value: T) | Err(message: string)

  /** `r` can be obtained from `s` by deleting elements, keeping the order. */
  ghost predicate Subsequence<T>(r: seq<T>, s: seq<T>)
    decreases |s|
  {
    if r == [] then true
    else if s == [] then false
    else (r[0] == s[0] && Subsequence(r[1..], s[1..])) || Subsequence(r, s[1..])
  }

  /** Array.prototype.filter: the elements of `s` that `keep` accepts, in order. */
  function Filter<T>(s: seq<T>, keep: T -> bool): (r: seq<T>)
    ensures |r| <= |s|
    ensures forall x :: x in r ==> x in s && keep(x)
    ensures forall i :: 0 <= i < |s| && keep(s[i]) ==> s[i] in r
    ensures Subsequence(r, s)
    decreases |s|
  {
    if s == [] then []
    else
      var rest := Filter(s[1..], keep);
      if keep(s[0]) then [s[0]] + rest else rest
  }

  /** Filtering keeps every accepted element as often as it occurs, and no
      rejected one. */
  lemma {:induction false} FilterMultiplicity<T>(s: seq<T>, keep: T -> bool, x: T)
    ensures multiset(Filter(s, keep))[x] == if keep(x) then multiset(s)[x] else 0
    decreases |s|
  {
    if s != [] {
      FilterMultiplicity(s[1..], keep, x);
      assert s == [s[0]] + s[1..];
    }
  }

  /** Filtering with a predicate that accepts every element is the identity,
      and one that rejects an element yields a strictly shorter list. */
  lemma {:induction false} FilterAll<T>(s: seq<T>, keep: T -> bool)
    ensures (Filter(s, keep) == s) <==> (forall i :: 0 <= i < |s| ==> keep(s[i]))
    decreases |s|
  {
    if s != [] {
      FilterAll(s[1..], keep);
      if !keep(s[0]) {
        assert |Filter(s, keep)| <= |s[1..]| < |s|;
      } else if Filter(s, keep) == s {
        assert Filter(s[1..], keep) == s[1..];
        forall i | 0 <= i < |s| ensures keep(s[i]) {
          if i > 0 { assert s[i] == s[1..][i - 1]; }
        }
      } else {
        var rest := s[1..];
        assert Filter(rest, keep) != rest;
        assert exists j :: 0 <= j < |rest| && !keep(rest[j]);
      }
    }
  }

  /** Filtering twice with the same predicate changes nothing. */
  lemma {:induction false} FilterIdempotent<T>(s: seq<T>, keep: T -> bool)
    ensures Filter(Filter(s, keep), keep) == Filter(s, keep)
  {
    var r := Filter(s, keep);
    FilterAll(r, keep);
    forall i | 0 <= i < |r| ensures keep(r[i]) {
      assert r[i] in r;
    }
  }

  /** Filtering a list with one more element at the end. */
  lemma {:induction false} FilterAppend<T>(s: seq<T>, x: T, keep: T -> bool)
    ensures Filter(s + [x], keep) == Filter(s, keep) + (if keep(x) then [x] else [])
    decreases |s|
  {
    if s == [] {
      assert [x][1..] == [];
    } else {
      assert (s + [x])[1..] == s[1..] + [x];
      FilterAppend(s[1..], x, keep);
    }
  }

  /** Every element is kept by exactly one of two complementary filters. */
  lemma {:induction false} FilterPartition<T>(s: seq<T>, keep: T -> bool, drop: T -> bool)
    requires forall x :: drop(x) <==> !keep(x)
    ensures |Filter(s, keep)| + |Filter(s, drop)| == |s|
    decreases |s|
  {
    if s != [] {
      FilterPartition(s[1..], keep, drop);
    }
  }

  /** Array.prototype.map. */
  function Map<A, B>(s: seq<A>, f: A -> B): (r: seq<B>)
    ensures |r| == |s|
    ensures forall i :: 0 <= i < |s| ==> r[i] == f(s[i])
  {
    seq(|s|, i requires 0 <= i < |s| => f(s[i]))
  }

  lemma MapAppend<A, B>(s: seq<A>, t: seq<A>, f: A -> B)
    ensures Map(s + t, f) == Map(s, f) + Map(t, f)
  {
    assert forall i :: 0 <= i < |s + t| ==> Map(s + t, f)[i] == (Map(s, f) + Map(t, f))[i];
  }
}
