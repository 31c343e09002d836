/**
 * `Array.prototype.filter` and list comprehensions with a condition: the
 * members of a sequence that satisfy a predicate, in their original order.
 */
module Seqs {

  function Filter<T>(s: seq<T>, p: T -> bool): (r: seq<T>)
    ensures |r| <= |s|
  {
    if s == [] then [] else Filter(s[..|s| - 1], p) + (if p(s[|s| - 1]) then [s[|s| - 1]] else [])
  }

  /** The kept members are exactly the members that satisfy the predicate. */
  lemma {:induction false} FilterMembers<T>(s: seq<T>, p: T -> bool)
    ensures forall x | x in Filter(s, p) :: x in s && p(x)
    ensures forall x | x in s && p(x) :: x in Filter(s, p)
  {
    if s != [] {
      var init := s[..|s| - 1];
      FilterMembers(init, p);
      assert forall x | x in init :: x in s;
      assert s == init + [s[|s| - 1]];
    }
  }

  /** Concatenation is associative; stated once for the accumulator loops. */
  lemma ConcatAssoc<T>(a: seq<T>, b: seq<T>, c: seq<T>)
    ensures a + b + c == a + (b + c)
  {
  }

  /** Filtering distributes over concatenation, so the original order is kept. */
  lemma {:induction false} FilterAppend<T>(a: seq<T>, b: seq<T>, p: T -> bool)
    ensures Filter(a + b, p) == Filter(a, p) + Filter(b, p)
  {
    if b == [] {
      assert a + b == a;
    } else {
      assert (a + b)[..|a + b| - 1] == a + b[..|b| - 1];
      FilterAppend(a, b[..|b| - 1], p);
    }
  }

  /** A one-element sequence is kept or dropped whole. */
  lemma FilterSingleton<T>(x: T, p: T -> bool)
    ensures Filter([x], p) == if p(x) then [x] else []
  {
    assert [x][..0] == [];
  }

  /** Filtering `[x] + t` filters `x`, then `t`. */
  lemma FilterCons<T>(x: T, t: seq<T>, p: T -> bool)
    ensures Filter([x] + t, p) == (if p(x) then [x] else []) + Filter(t, p)
  {
    FilterSingleton(x, p);
    FilterAppend([x], t, p);
  }

  /** A filter that accepts every member returns the sequence unchanged. */
  lemma {:induction false} FilterAll<T>(s: seq<T>, p: T -> bool)
    requires forall i | 0 <= i < |s| :: p(s[i])
    ensures Filter(s, p) == s
  {
    if s != [] {
      FilterAll(s[..|s| - 1], p);
    }
  }

  /** Filtering a second time with the same predicate changes nothing. */
  lemma FilterIdempotent<T>(s: seq<T>, p: T -> bool)
    ensures Filter(Filter(s, p), p) == Filter(s, p)
  {
    var r := Filter(s, p);
    FilterMembers(s, p);
    forall i | 0 <= i < |r| ensures p(r[i]) {
      assert r[i] in r;
    }
    FilterAll(r, p);
  }

  /** Two predicates that agree on the members filter alike. */
  lemma {:induction false} FilterCongruent<T>(s: seq<T>, p: T -> bool, q: T -> bool)
    requires forall i | 0 <= i < |s| :: p(s[i]) == q(s[i])
    ensures Filter(s, p) == Filter(s, q)
  {
    if s != [] {
      FilterCongruent(s[..|s| - 1], p, q);
    }
  }

  predicate Distinct<T(==)>(s: seq<T>) {
    forall i, j | 0 <= i < j < |s| :: s[i] != s[j]
  }

  /** Filtering a sequence without repeated members gives one without repeated members. */
  lemma {:induction false} FilterDistinct<T>(s: seq<T>, p: T -> bool)
    requires Distinct(s)
    ensures Distinct(Filter(s, p))
  {
    if s != [] {
      var init := s[..|s| - 1];
      assert Distinct(init) by {
        forall i, j | 0 <= i < j < |init| ensures init[i] != init[j] {
          assert init[i] == s[i] && init[j] == s[j];
        }
      }
      FilterDistinct(init, p);
      var last := s[|s| - 1];
      assert last !in init by {
        forall k | 0 <= k < |init| ensures init[k] != last {
          assert init[k] == s[k];
        }
      }
      var r := Filter(init, p);
      FilterMembers(init, p);
      var full := Filter(s, p);
      assert full == r + (if p(last) then [last] else []);
      forall i, j | 0 <= i < j < |full| ensures full[i] != full[j] {
        assert full[i] == r[i];
        if j < |r| {
          assert full[j] == r[j];
          assert r[i] != r[j];
        } else {
          assert full[j] == last;
          assert r[i] in r;
        }
      }
    }
  }

  /** `Array.prototype.map`: `f` applied to every member, in order. */
  function Map<T, U>(s: seq<T>, f: T --> U): (r: seq<U>)
    requires forall x | x in s :: f.requires(x)
    ensures |r| == |s| && forall i | 0 <= i < |s| :: r[i] == f(s[i])
  {
    seq(|s|, i requires 0 <= i < |s| => f(s[i]))
  }

  /** Mapping a one-element sequence. */
  lemma MapSingleton<T, U>(x: T, f: T --> U)
    requires f.requires(x)
    ensures Map([x], f) == [f(x)]
  {
  }

  lemma MapAppend<T, U>(a: seq<T>, b: seq<T>, f: T --> U)
    requires forall x | x in a :: f.requires(x)
    requires forall x | x in b :: f.requires(x)
    ensures Map(a + b, f) == Map(a, f) + Map(b, f)
  {
  }

  /** Mapping a prefix one element longer adds that element's image. */
  lemma MapStep<T, U>(s: seq<T>, i: int, f: T --> U)
    requires 0 <= i < |s| && forall x | x in s :: f.requires(x)
    ensures Map(s[..i + 1], f) == Map(s[..i], f) + [f(s[i])]
  {
    assert forall x | x in s[..i + 1] :: x in s;
  }

  /** Mapping keeps inclusion: the images of a sub-collection are images of the whole. */
  lemma MapIncluded<T, U>(a: seq<T>, b: seq<T>, f: T --> U)
    requires forall x | x in b :: f.requires(x)
    requires forall x | x in a :: x in b
    ensures forall y | y in Map(a, f) :: y in Map(b, f)
  {
    forall y | y in Map(a, f) ensures y in Map(b, f) {
      var i :| 0 <= i < |a| && Map(a, f)[i] == y;
      assert a[i] in a;
      var j :| 0 <= j < |b| && b[j] == a[i];
      assert Map(b, f)[j] == y;
    }
  }

  /** The concatenation of a sequence of sequences. */
  function Flatten<T>(ss: seq<seq<T>>): seq<T> {
    if ss == [] then [] else Flatten(ss[..|ss| - 1]) + ss[|ss| - 1]
  }

  /** Flattening distributes over concatenation. */
  lemma {:induction false} FlattenAppend<T>(a: seq<seq<T>>, b: seq<seq<T>>)
    ensures Flatten(a + b) == Flatten(a) + Flatten(b)
  {
    if b == [] {
      assert a + b == a;
    } else {
      var b0, x := b[..|b| - 1], b[|b| - 1];
      var ab := a + b;
      assert ab[..|ab| - 1] == a + b0 && ab[|ab| - 1] == x;
      assert Flatten(ab) == Flatten(a + b0) + x;
      FlattenAppend(a, b0);
      assert Flatten(b) == Flatten(b0) + x;
      ConcatAssoc(Flatten(a), Flatten(b0), x);
    }
  }
}
