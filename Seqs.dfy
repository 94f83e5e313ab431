/** Sequence helpers shared by the dashboard components: an Option type,
    the order-preserving `filter` of JavaScript arrays and the subsequence
    relation that states "keeps the original order". */
module Seqs {

  datatype Option<T> = None | Some(value: T)

  /** `s.filter(p)`: the elements of `s` satisfying `p`, in their original order. */
  function Filter<T(==,!new)>(p: T -> bool, s: seq<T>): (r: seq<T>)
    ensures |r| <= |s|
    ensures forall x :: x in r <==> x in s && p(x)
  {
    if s == [] then []
    else if p(s[0]) then [s[0]] + Filter(p, s[1..])
    else Filter(p, s[1..])
  }

  /** `sub` can be obtained from `s` by deleting elements (order kept). */
  predicate IsSubseq<T(==)>(sub: seq<T>, s: seq<T>)
  {
    if sub == [] then true
    else if s == [] then false
    else if sub[0] == s[0] then IsSubseq(sub[1..], s[1..])
    else IsSubseq(sub, s[1..])
  }

  /** A filtered sequence is an order-preserving subsequence of its source. */
  lemma {:induction false} FilterIsSubseq<T(!new)>(p: T -> bool, s: seq<T>)
    ensures IsSubseq(Filter(p, s), s)
  {
    if s != [] {
      FilterIsSubseq(p, s[1..]);
      if !p(s[0]) {
        SubseqOfTail(Filter(p, s[1..]), s);
      }
    }
  }

  /** Skipping the head of `s` keeps a subsequence of the tail a subsequence of `s`. */
  lemma {:induction false} SubseqOfTail<T(!new)>(sub: seq<T>, s: seq<T>)
    requires s != []
    requires IsSubseq(sub, s[1..])
    ensures IsSubseq(sub, s)
  {
    if sub != [] && sub[0] == s[0] {
      // sub is a subsequence of s[1..]; its tail is then a subsequence of s[1..] too
      SubseqDropHead(sub, s[1..]);
    }
  }

  /** Dropping the first element of a subsequence keeps a subsequence. */
  lemma {:induction false} SubseqDropHead<T(!new)>(sub: seq<T>, s: seq<T>)
    requires sub != []
    requires IsSubseq(sub, s)
    ensures IsSubseq(sub[1..], s)
  {
    if s != [] {
      if sub[0] == s[0] {
        SubseqOfTail(sub[1..], s);
      } else {
        SubseqDropHead(sub, s[1..]);
        SubseqOfTail(sub[1..], s);
      }
    }
  }

  /** Filtering with `p` and then with `q` is filtering once with their
      conjunction `both`. */
  lemma {:induction false} FilterFilter<T(!new)>(p: T -> bool, q: T -> bool, both: T -> bool, s: seq<T>)
    requires forall x :: x in s ==> both(x) == (p(x) && q(x))
    ensures Filter(q, Filter(p, s)) == Filter(both, s)
  {
    if s != [] {
      assert s[0] in s;
      FilterFilter(p, q, both, s[1..]);
    }
  }

  /** A filter with a predicate that holds everywhere on `s` returns `s`. */
  lemma {:induction false} FilterAll<T(!new)>(p: T -> bool, s: seq<T>)
    requires forall x :: x in s ==> p(x)
    ensures Filter(p, s) == s
  {
    if s != [] {
      FilterAll(p, s[1..]);
    }
  }

  /** A filter with a predicate that holds nowhere on `s` returns nothing. */
  lemma {:induction false} FilterNone<T(!new)>(p: T -> bool, s: seq<T>)
    requires forall x :: x in s ==> !p(x)
    ensures Filter(p, s) == []
  {
    if s != [] {
      assert s[0] in s;
      FilterNone(p, s[1..]);
    }
  }

  /** Filtering a list with a given head: the head, when kept, then the rest. */
  lemma FilterCons<T(!new)>(p: T -> bool, x: T, rest: seq<T>)
    ensures Filter(p, [x] + rest) == (if p(x) then [x] else []) + Filter(p, rest)
  {
    assert ([x] + rest)[0] == x && ([x] + rest)[1..] == rest;
  }

  /** A filter keeps every copy of a kept value and no copy of a dropped one. */
  lemma {:induction false} FilterMultiplicity<T(!new)>(p: T -> bool, s: seq<T>)
    ensures forall x :: multiset(Filter(p, s))[x] == (if p(x) then multiset(s)[x] else 0)
  {
    if s != [] {
      FilterMultiplicity(p, s[1..]);
      assert s == [s[0]] + s[1..];
    }
  }

  /** Filtering distributes over concatenation. */
  lemma {:induction false} FilterAppend<T(!new)>(p: T -> bool, a: seq<T>, b: seq<T>)
    ensures Filter(p, a + b) == Filter(p, a) + Filter(p, b)
  {
    if a == [] {
      assert a + b == b;
    } else {
      assert (a + b)[1..] == a[1..] + b;
      FilterAppend(p, a[1..], b);
    }
  }

  /** Filters with predicates that agree on the elements of `s` give the same result. */
  lemma {:induction false} FilterCongruent<T(!new)>(p: T -> bool, q: T -> bool, s: seq<T>)
    requires forall x :: x in s ==> p(x) == q(x)
    ensures Filter(p, s) == Filter(q, s)
  {
    if s != [] {
      FilterCongruent(p, q, s[1..]);
    }
  }

  /** The index of the first element of `s` failing `p`, `|s|` when there is none. */
  function FirstFailing<T>(p: T -> bool, s: seq<T>): (k: nat)
    ensures k <= |s|
  {
    if s == [] then 0
    else if !p(s[0]) then 0
    else 1 + FirstFailing(p, s[1..])
  }

  /** The first failing index, when inside `s`, holds an element failing `p`. */
  lemma {:induction false} FirstFailingFails<T>(p: T -> bool, s: seq<T>)
    ensures FirstFailing(p, s) < |s| ==> !p(s[FirstFailing(p, s)])
  {
    if s != [] && p(s[0]) {
      FirstFailingFails(p, s[1..]);
    }
  }

  /** Every element before the first failing one satisfies `p`. */
  lemma {:induction false} BeforeFirstFailing<T>(p: T -> bool, s: seq<T>, j: nat)
    requires j < FirstFailing(p, s)
    ensures p(s[j])
  {
    assert s != [] && p(s[0]);
    if j > 0 {
      var rest := s[1..];
      assert FirstFailing(p, s) == 1 + FirstFailing(p, rest);
      BeforeFirstFailing(p, rest, j - 1);
      assert rest[j - 1] == s[j];
    }
  }

  /** The first failing index is `|s|` exactly when every element satisfies `p`. */
  lemma NoneFailing<T>(p: T -> bool, s: seq<T>)
    ensures FirstFailing(p, s) == |s| <==> forall i :: 0 <= i < |s| ==> p(s[i])
  {
    if FirstFailing(p, s) == |s| {
      forall i | 0 <= i < |s| ensures p(s[i]) {
        BeforeFirstFailing(p, s, i);
      }
    }
  }

  /** No element occurs twice. */
  predicate NoDuplicates<T(==)>(ids: seq<T>)
  {
    forall i, j :: 0 <= i < j < |ids| ==> ids[i] != ids[j]
  }

  /** A prefix of a list without repetitions has none either. */
  lemma NoDuplicatesPrefix<T>(s: seq<T>, n: nat)
    requires NoDuplicates(s) && n <= |s|
    ensures NoDuplicates(s[..n])
  {
    forall i, j | 0 <= i < j < n ensures s[..n][i] != s[..n][j] {
      assert s[..n][i] == s[i] && s[..n][j] == s[j];
    }
  }

  /** A subsequence of a list without repetitions has none either. */
  lemma {:induction false} SubseqNoDuplicates<T>(sub: seq<T>, ids: seq<T>)
    requires IsSubseq(sub, ids) && NoDuplicates(ids)
    ensures NoDuplicates(sub)
  {
    if sub != [] && ids != [] {
      assert NoDuplicates(ids[1..]) by {
        forall i, j | 0 <= i < j < |ids| - 1 ensures ids[1..][i] != ids[1..][j] {
          assert ids[1..][i] == ids[i + 1] && ids[1..][j] == ids[j + 1];
        }
      }
      if sub[0] == ids[0] {
        SubseqNoDuplicates(sub[1..], ids[1..]);
        SubseqMembers(sub[1..], ids[1..]);
        forall j | 0 < j < |sub| ensures sub[0] != sub[j] {
          assert sub[1..][j - 1] == sub[j];
          assert sub[j] in ids[1..];
          var k :| 0 <= k < |ids[1..]| && ids[1..][k] == sub[j];
          assert ids[k + 1] == sub[j];
        }
        forall i, j | 0 <= i < j < |sub| ensures sub[i] != sub[j] {
          if i > 0 {
            assert sub[1..][i - 1] == sub[i] && sub[1..][j - 1] == sub[j];
          }
        }
      } else {
        SubseqNoDuplicates(sub, ids[1..]);
      }
    }
  }

  /** Every element of a subsequence is an element of the sequence. */
  lemma {:induction false} SubseqMembers<T>(sub: seq<T>, ids: seq<T>)
    requires IsSubseq(sub, ids)
    ensures forall x :: x in sub ==> x in ids
  {
    if sub != [] && ids != [] {
      if sub[0] == ids[0] {
        SubseqMembers(sub[1..], ids[1..]);
        forall x | x in sub ensures x in ids {
          if x == sub[0] {
            assert ids[0] in ids;
          } else {
            var k :| 0 <= k < |sub| && sub[k] == x;
            assert sub[1..][k - 1] == x;
            assert x in sub[1..];
            assert x in ids[1..];
            var m :| 0 <= m < |ids| - 1 && ids[1..][m] == x;
            assert ids[m + 1] == x;
          }
        }
      } else {
        SubseqMembers(sub, ids[1..]);
      }
    }
  }

  /** Three mutually exclusive predicates split `s` into three groups and
      the elements `rest` keeps, those satisfying none of them. */
  lemma {:induction false} ThreeWaySplit<T(!new)>(p: T -> bool, q: T -> bool, r: T -> bool, rest: T -> bool, s: seq<T>)
    requires forall x :: x in s ==> !(p(x) && q(x)) && !(p(x) && r(x)) && !(q(x) && r(x))
    requires forall x :: x in s ==> rest(x) == (!p(x) && !q(x) && !r(x))
    ensures |Filter(p, s)| + |Filter(q, s)| + |Filter(r, s)| + |Filter(rest, s)| == |s|
  {
    if s != [] {
      assert s[0] in s;
      ThreeWaySplit(p, q, r, rest, s[1..]);
    }
  }
}
