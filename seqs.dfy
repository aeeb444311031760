/** Sequence operations behind the handlers' list updates. */
module Seqs {

  /** No element occurs twice. */
  ghost predicate NoDup<T>(s: seq<T>) {
    forall i, j :: 0 <= i < j < |s| ==> s[i] != s[j]
  }

  /** `a` is `b` with some elements deleted and the rest in their original order. */
  ghost predicate IsSubsequence<T>(a: seq<T>, b: seq<T>)
    decreases |b|
  {
    if b == [] then a == []
    else (a != [] && a[0] == b[0] && IsSubsequence(a[1..], b[1..])) || IsSubsequence(a, b[1..])
  }

  /** Removes every occurrence of `x` and keeps the rest in order: MongoDB's
      `$pull` on an array of ids, and `Array.prototype.filter` with `!==`. */
  function Pull<T(==)>(s: seq<T>, x: T): (r: seq<T>)
    ensures multiset(r) == multiset(s)[x := 0]
  {
    if s == [] then []
    else
      assert s == [s[0]] + s[1..];
      if s[0] == x then Pull(s[1..], x) else [s[0]] + Pull(s[1..], x)
  }

  /** What Pull keeps: everything but `x`. */
  lemma PullMembers<T>(s: seq<T>, x: T, y: T)
    ensures y in Pull(s, x) <==> y in s && y != x
  {
    assert y in Pull(s, x) <==> multiset(Pull(s, x))[y] > 0;
    assert y in s <==> multiset(s)[y] > 0;
  }

  lemma {:induction false} PullAbsent<T>(s: seq<T>, x: T)
    requires x !in s
    ensures Pull(s, x) == s
  {
    if s != [] {
      PullAbsent(s[1..], x);
    }
  }

  /** Pulling what was just appended, and was not there before, restores the sequence. */
  lemma {:induction false} PullAppended<T>(s: seq<T>, x: T)
    requires x !in s
    ensures Pull(s + [x], x) == s
  {
    if s == [] {
      assert [x][1..] == [];
    } else {
      assert (s + [x])[1..] == s[1..] + [x];
      PullAppended(s[1..], x);
    }
  }

  /** Pull keeps the order of what it keeps. */
  lemma {:induction false} PullSubsequence<T>(s: seq<T>, x: T)
    ensures IsSubsequence(Pull(s, x), s)
  {
    if s != [] {
      PullSubsequence(s[1..], x);
      if s[0] != x {
        assert ([s[0]] + Pull(s[1..], x))[1..] == Pull(s[1..], x);
      }
    }
  }

  /** Pulling from a duplicate-free sequence that holds `x` removes exactly one element. */
  lemma {:induction false} PullDistinct<T>(s: seq<T>, x: T)
    requires NoDup(s)
    ensures NoDup(Pull(s, x))
    ensures x in s ==> |Pull(s, x)| == |s| - 1
  {
    if s != [] {
      assert NoDup(s[1..]) by {
        forall i, j | 0 <= i < j < |s[1..]| ensures s[1..][i] != s[1..][j] {
          assert s[1..][i] == s[i + 1] && s[1..][j] == s[j + 1];
        }
      }
      PullDistinct(s[1..], x);
      var rest := Pull(s[1..], x);
      if s[0] == x {
        assert x !in s[1..] by {
          forall j | 0 <= j < |s[1..]| ensures s[1..][j] != x {
            assert s[1..][j] == s[j + 1];
          }
        }
        PullAbsent(s[1..], x);
      } else {
        assert s[0] !in s[1..] by {
          forall j | 0 <= j < |s[1..]| ensures s[1..][j] != s[0] {
            assert s[1..][j] == s[j + 1];
          }
        }
        PullMembers(s[1..], x, s[0]);
        var r := [s[0]] + rest;
        forall i, j | 0 <= i < j < |r| ensures r[i] != r[j] {
          assert r[j] == rest[j - 1];
          if i > 0 {
            assert r[i] == rest[i - 1];
          }
        }
      }
    }
  }

  lemma AppendDistinct<T>(s: seq<T>, x: T)
    requires NoDup(s) && x !in s
    ensures NoDup(s + [x])
  {
  }

  lemma PrependDistinct<T>(x: T, s: seq<T>)
    requires NoDup(s) && x !in s
    ensures NoDup([x] + s)
  {
  }

  /** A duplicate-free sequence has as many elements as the set of its elements. */
  lemma {:induction false} DistinctCard<T>(s: seq<T>)
    requires NoDup(s)
    ensures |set y | y in s| == |s|
  {
    if s == [] {
      assert (set y | y in s) == {};
    } else {
      assert NoDup(s[1..]) by {
        forall i, j | 0 <= i < j < |s[1..]| ensures s[1..][i] != s[1..][j] {
          assert s[1..][i] == s[i + 1] && s[1..][j] == s[j + 1];
        }
      }
      DistinctCard(s[1..]);
      assert s[0] !in s[1..] by {
        forall j | 0 <= j < |s[1..]| ensures s[1..][j] != s[0] {
          assert s[1..][j] == s[j + 1];
        }
      }
      assert s == [s[0]] + s[1..];
      assert (set y | y in s) == {s[0]} + (set y | y in s[1..]);
    }
  }
}
