/** The order of GET /all_posts: newest first by `createdAt`. */
module Feed {
  import opened Model
  import opened Seqs

  /** `.sort({ createdAt: -1 })`: creation times never increase along the list. */
  ghost predicate NewestFirst(ps: seq<Post>) {
    forall i, j :: 0 <= i < j < |ps| ==> ps[i].createdAt >= ps[j].createdAt
  }

  /** Inserting `p` after the posts at least as new and before the first
      older one keeps the list newest first, and keeps it duplicate-free. */
  lemma InsertNewestFirst(s: seq<Post>, k: nat, p: Post)
    requires NewestFirst(s) && k <= |s|
    requires forall i :: 0 <= i < k ==> s[i].createdAt >= p.createdAt
    requires k < |s| ==> s[k].createdAt < p.createdAt
    ensures NewestFirst(s[..k] + [p] + s[k..])
    ensures NoDup(s) && p !in s ==> NoDup(s[..k] + [p] + s[k..])
    ensures forall q :: q in s[..k] + [p] + s[k..] <==> q in s || q == p
  {
    InsertedAt(s, k, p);
    InsertKeepsOrder(s, k, p);
    if NoDup(s) && p !in s {
      InsertKeepsDistinct(s, k, p);
    }
    assert s == s[..k] + s[k..];
  }

  lemma InsertedAt(s: seq<Post>, k: nat, p: Post)
    requires k <= |s|
    ensures |s[..k] + [p] + s[k..]| == |s| + 1
    ensures forall i :: 0 <= i < |s| + 1 ==>
      (s[..k] + [p] + s[k..])[i] == if i < k then s[i] else if i == k then p else s[i - 1]
  {
  }

  lemma InsertKeepsOrder(s: seq<Post>, k: nat, p: Post)
    requires NewestFirst(s) && k <= |s|
    requires forall i :: 0 <= i < k ==> s[i].createdAt >= p.createdAt
    requires k < |s| ==> s[k].createdAt < p.createdAt
    ensures NewestFirst(s[..k] + [p] + s[k..])
  {
    var t := s[..k] + [p] + s[k..];
    InsertedAt(s, k, p);
    forall i, j | 0 <= i < j < |t| ensures t[i].createdAt >= t[j].createdAt {
      if j > k {
        assert s[k].createdAt >= s[j - 1].createdAt;
      }
    }
  }

  lemma InsertKeepsDistinct(s: seq<Post>, k: nat, p: Post)
    requires NoDup(s) && p !in s && k <= |s|
    ensures NoDup(s[..k] + [p] + s[k..])
  {
    var t := s[..k] + [p] + s[k..];
    InsertedAt(s, k, p);
    forall i, j | 0 <= i < j < |t| ensures t[i] != t[j] {
      if i != k && j != k {
        var i', j' := if i < k then i else i - 1, if j < k then j else j - 1;
        assert i' < j';
      }
    }
  }
}
