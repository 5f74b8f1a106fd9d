/**
 * Order-preserving filtering of arrays, as JavaScript's `Array.prototype.filter`,
 * and the `filter(p)[0]` idiom that picks the first element satisfying `p`.
 */
module Seqs {
  import opened Wrappers

  /** The elements of `s` that satisfy `p`, in their original order. */
  function Filter<T(!new)>(s: seq<T>, p: T -> bool): (r: seq<T>)
    ensures |r| <= |s|
    ensures forall x :: x in r <==> x in s && p(x)
  {
    if s == [] then []
    else (if p(s[0]) then [s[0]] else []) + Filter(s[1..], p)
  }

  /** `s[0]` of JavaScript: the first element, or `undefined` for an empty array. */
  function First<T>(s: seq<T>): (r: Option<T>)
    ensures r.Some? <==> |s| > 0
    ensures r.Some? ==> r.value == s[0]
  {
    if |s| == 0 then None else Some(s[0])
  }

  /** `s.filter(p)[0]`: the first element of `s` that satisfies `p`, if any. */
  function FirstMatch<T(!new)>(s: seq<T>, p: T -> bool): (r: Option<T>)
    ensures r.Some? ==> r.value in s && p(r.value)
    ensures r.None? <==> forall x :: x in s ==> !p(x)
  {
    First(Filter(s, p))
  }

  /** Filtering distributes over concatenation: kept elements stay in their relative order. */
  lemma {:induction false} FilterConcat<T(!new)>(a: seq<T>, b: seq<T>, p: T -> bool)
    ensures Filter(a + b, p) == Filter(a, p) + Filter(b, p)
  {
    if a == [] {
      assert a + b == b;
    } else {
      assert (a + b)[0] == a[0];
      assert (a + b)[1..] == a[1..] + b;
      FilterConcat(a[1..], b, p);
    }
  }

  /** When every element satisfies `p`, filtering is the identity. */
  lemma {:induction false} FilterKeepsAll<T(!new)>(s: seq<T>, p: T -> bool)
    requires forall x :: x in s ==> p(x)
    ensures Filter(s, p) == s
  {
    if s != [] {
      assert s[0] in s;
      forall x | x in s[1..] ensures p(x) { assert x in s; }
      FilterKeepsAll(s[1..], p);
      assert [s[0]] + s[1..] == s;
    }
  }

  /** When no element satisfies `p`, filtering gives the empty array. */
  lemma FilterKeepsNone<T(!new)>(s: seq<T>, p: T -> bool)
    requires forall x :: x in s ==> !p(x)
    ensures Filter(s, p) == []
  {
  }

  /** `filter(p)[0]` is the element at the first index where `p` holds. */
  lemma {:induction false} FirstMatchAt<T(!new)>(s: seq<T>, p: T -> bool, i: int)
    requires 0 <= i < |s| && p(s[i])
    requires forall j :: 0 <= j < i ==> !p(s[j])
    ensures FirstMatch(s, p) == Some(s[i])
  {
    assert s == s[..i] + s[i..];
    FilterConcat(s[..i], s[i..], p);
    forall x | x in s[..i] ensures !p(x) {
      var j :| 0 <= j < i && s[..i][j] == x;
    }
    FilterKeepsNone(s[..i], p);
    assert s[i..][0] == s[i];
  }

  /** Re-assembling a non-empty array from its head, its tail and one appended element. */
  lemma AppendAfterHead<T>(s: seq<T>, x: T)
    requires s != []
    ensures [s[0]] + (s[1..] + [x]) == s + [x]
  {
    assert s == [s[0]] + s[1..];
  }

  /** Re-assembling a prefix of a non-empty array from its head and the prefix of its tail. */
  lemma PrefixAfterHead<T>(s: seq<T>, i: int, x: T, rest: seq<T>)
    requires 0 < i <= |s|
    ensures [s[0]] + (s[1..][..i - 1] + [x] + rest) == s[..i] + [x] + rest
  {
    assert s[..i] == [s[0]] + s[1..][..i - 1];
  }
}
