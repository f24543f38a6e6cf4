/** Order-preserving filtering of sequences: the `Array.prototype.filter` the
    discount routine uses to pick stale discount lines and eligible lines. */
module Seqs {

  /** The elements of `s` that satisfy `f`, in their original order. */
  function Filter<T(==,!new)>(s: seq<T>, f: T -> bool): (r: seq<T>)
    ensures |r| <= |s|
    ensures forall x {:trigger x in r} :: x in r <==> x in s && f(x)
    decreases |s|
  {
    if s == [] then []
    else (if f(s[0]) then [s[0]] else []) + Filter(s[1..], f)
  }

  /** Filtering distributes over concatenation, so relative order is kept. */
  lemma {:induction false} FilterAppend<T(!new)>(a: seq<T>, b: seq<T>, f: T -> bool)
    ensures Filter(a + b, f) == Filter(a, f) + Filter(b, f)
    decreases |a|
  {
    if a != [] {
      assert (a + b)[1..] == a[1..] + b;
      FilterAppend(a[1..], b, f);
    } else {
      assert a + b == b;
    }
  }

  /** Only the values a predicate takes on the elements of `s` matter. */
  lemma {:induction false} FilterExt<T(!new)>(s: seq<T>, f: T -> bool, g: T -> bool)
    requires forall x :: x in s ==> f(x) == g(x)
    ensures Filter(s, f) == Filter(s, g)
    decreases |s|
  {
    if s != [] {
      FilterExt(s[1..], f, g);
    }
  }

  /** Filtering a filtered sequence is filtering once by the conjunction. */
  lemma {:induction false} FilterFilter<T(!new)>(s: seq<T>, f: T -> bool, g: T -> bool, h: T -> bool)
    requires forall x :: x in s ==> h(x) == (f(x) && g(x))
    ensures Filter(Filter(s, f), g) == Filter(s, h)
    decreases |s|
  {
    if s != [] {
      FilterFilter(s[1..], f, g, h);
      if f(s[0]) {
        assert Filter(s, f) == [s[0]] + Filter(s[1..], f);
        assert Filter(s, f)[1..] == Filter(s[1..], f);
      } else {
        assert Filter(s, f) == Filter(s[1..], f);
      }
    }
  }

  /** A filter every element passes leaves the sequence as it is. */
  lemma {:induction false} FilterKeepsAll<T(!new)>(s: seq<T>, f: T -> bool)
    requires forall x :: x in s ==> f(x)
    ensures Filter(s, f) == s
    decreases |s|
  {
    if s != [] {
      FilterKeepsAll(s[1..], f);
      assert s == [s[0]] + s[1..];
    }
  }

  /** A filter no element passes leaves nothing. */
  lemma {:induction false} FilterDropsAll<T(!new)>(s: seq<T>, f: T -> bool)
    requires forall x :: x in s ==> !f(x)
    ensures Filter(s, f) == []
    decreases |s|
  {
    if s != [] {
      FilterDropsAll(s[1..], f);
    }
  }

  /** `idx` lists, in increasing order, the positions of `s` that `r` is made of:
      `r` is `s` with some elements left out and the rest in their order. */
  ghost predicate Embeds<T>(r: seq<T>, s: seq<T>, idx: seq<nat>) {
    |idx| == |r| &&
    (forall k :: 0 <= k < |idx| ==> idx[k] < |s| && r[k] == s[idx[k]]) &&
    (forall a, b :: 0 <= a < b < |idx| ==> idx[a] < idx[b])
  }

  /** Every position moved one place to the right. */
  function Shift(idx: seq<nat>): (moved: seq<nat>)
    ensures |moved| == |idx| && forall k :: 0 <= k < |idx| ==> moved[k] == idx[k] + 1
  {
    seq(|idx|, k requires 0 <= k < |idx| => idx[k] + 1)
  }

  /** Dropping the head of `s` shifts every position of what `r` takes. */
  lemma EmbedsSkip<T>(r: seq<T>, s: seq<T>, idx: seq<nat>)
    requires |s| > 0 && Embeds(r, s[1..], idx)
    ensures Embeds(r, s, Shift(idx))
  {
    forall k | 0 <= k < |idx| ensures r[k] == s[Shift(idx)[k]] {
      assert r[k] == s[1..][idx[k]];
    }
  }

  /** Keeping the head of `s` puts position 0 before the shifted positions. */
  lemma EmbedsKeep<T>(r: seq<T>, s: seq<T>, idx: seq<nat>)
    requires |s| > 0 && Embeds(r, s[1..], idx)
    ensures Embeds([s[0]] + r, s, [0] + Shift(idx))
  {
    EmbedsSkip(r, s, idx);
    var full := [0] + Shift(idx);
    var kept := [s[0]] + r;
    forall k | 0 <= k < |full| ensures full[k] < |s| && kept[k] == s[full[k]] {
      if k > 0 {
        assert full[k] == Shift(idx)[k - 1] && kept[k] == r[k - 1];
      }
    }
    forall a, b | 0 <= a < b < |full| ensures full[a] < full[b] {
      if a > 0 {
        assert full[a] == Shift(idx)[a - 1] && full[b] == Shift(idx)[b - 1];
      }
    }
  }

  /** Filtering keeps the relative order of the elements it keeps. */
  lemma {:induction false} FilterEmbeds<T(!new)>(s: seq<T>, f: T -> bool)
    ensures exists idx :: Embeds(Filter(s, f), s, idx)
    decreases |s|
  {
    if s == [] {
      assert Embeds(Filter(s, f), s, []);
    } else {
      FilterEmbeds(s[1..], f);
      var rest := Filter(s[1..], f);
      var idx :| Embeds(rest, s[1..], idx);
      if f(s[0]) {
        EmbedsKeep(rest, s, idx);
        assert Filter(s, f) == [s[0]] + rest;
      } else {
        EmbedsSkip(rest, s, idx);
        assert Filter(s, f) == rest;
      }
    }
  }
}
