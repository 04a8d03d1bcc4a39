/**
 * Ordering chats newest first: the comparator
 * `(a, b) => new Date(b.updated_at).getTime() - new Date(a.updated_at).getTime()`
 * that the chat list and the session store both hand to `Array.prototype.sort`.
 * `sort` is stable, so chats with equal `updated_at` keep their input order;
 * the functional sort below is a stable insertion sort.
 */
module Recency {
  import opened Records
  import Seqs

  /** Non-increasing `updated_at` from the front of the list to the back. */
  predicate NewestFirst(s: seq<Chat>) {
    forall i, j :: 0 <= i < j < |s| ==> s[i].updated_at >= s[j].updated_at
  }

  /** Places `c` before the first chat that is not strictly newer than it. */
  function InsertByRecency(c: Chat, s: seq<Chat>): (r: seq<Chat>)
    ensures multiset(r) == multiset(s) + multiset{c}
    ensures NewestFirst(s) ==> NewestFirst(r)
    ensures |r| == |s| + 1
    ensures r[0] == c || (s != [] && r[0] == s[0])
  {
    if s == [] || c.updated_at >= s[0].updated_at then
      [c] + s
    else
      var t := InsertByRecency(c, s[1..]);
      InsertBehind(c, s, t);
      [s[0]] + t
  }

  /** The step of InsertByRecency that keeps the head `s[0]` in front of the insertion into `s[1..]`. */
  lemma InsertBehind(c: Chat, s: seq<Chat>, t: seq<Chat>)
    requires s != [] && c.updated_at < s[0].updated_at
    requires multiset(t) == multiset(s[1..]) + multiset{c}
    requires NewestFirst(s[1..]) ==> NewestFirst(t)
    requires t != [] && (t[0] == c || (|s| > 1 && t[0] == s[1]))
    ensures multiset([s[0]] + t) == multiset(s) + multiset{c}
    ensures NewestFirst(s) ==> NewestFirst([s[0]] + t)
  {
    assert s == [s[0]] + s[1..];
    if NewestFirst(s) {
      assert forall j :: 0 <= j < |t| ==> s[0].updated_at >= t[0].updated_at >= t[j].updated_at;
    }
  }

  /** The list newest first; a permutation of the input. */
  function SortByRecency(s: seq<Chat>): (r: seq<Chat>)
    ensures NewestFirst(r)
    ensures multiset(r) == multiset(s)
    ensures |r| == |s|
  {
    if s == [] then []
    else
      assert s == [s[0]] + s[1..];
      InsertByRecency(s[0], SortByRecency(s[1..]))
  }

  function HasStamp(t: Millis): Chat -> bool {
    (c: Chat) => c.updated_at == t
  }

  /** Inserting a chat keeps the relative order of the chats that share any one timestamp. */
  lemma {:induction false} InsertStable(c: Chat, s: seq<Chat>, t: Millis)
    requires NewestFirst(s)
    ensures Seqs.Filter(InsertByRecency(c, s), HasStamp(t))
         == Seqs.Filter([c] + s, HasStamp(t))
  {
    if s == [] || c.updated_at >= s[0].updated_at {
    } else {
      var p := HasStamp(t);
      InsertStable(c, s[1..], t);
      assert InsertByRecency(c, s) == [s[0]] + InsertByRecency(c, s[1..]);
      assert ([s[0]] + InsertByRecency(c, s[1..]))[1..] == InsertByRecency(c, s[1..]);
      assert ([c] + s[1..])[1..] == s[1..];
      assert ([c] + s)[1..] == s;
      if p(c) {
        // every chat with timestamp t stands after s[0], which is strictly newer than c
        assert !p(s[0]);
        assert Seqs.Filter([c] + s, p) == [c] + Seqs.Filter(s, p);
        assert Seqs.Filter(s, p) == Seqs.Filter(s[1..], p);
      } else {
        assert Seqs.Filter([c] + s, p) == Seqs.Filter(s, p);
        assert Seqs.Filter([c] + s[1..], p) == Seqs.Filter(s[1..], p);
      }
    }
  }

  /** The sort is stable: chats with equal `updated_at` come out in their input order. */
  lemma {:induction false} SortStable(s: seq<Chat>, t: Millis)
    ensures Seqs.Filter(SortByRecency(s), HasStamp(t)) == Seqs.Filter(s, HasStamp(t))
  {
    if s != [] {
      var p := HasStamp(t);
      var rest := SortByRecency(s[1..]);
      SortStable(s[1..], t);
      InsertStable(s[0], rest, t);
      assert ([s[0]] + rest)[1..] == rest;
      assert s == [s[0]] + s[1..];
      Seqs.FilterAppend([s[0]], rest, p);
      Seqs.FilterAppend([s[0]], s[1..], p);
    }
  }

  /** `r` holds the chats of `s` and keeps, for every timestamp, their order in `s`. */
  ghost predicate StablyRearranges(r: seq<Chat>, s: seq<Chat>) {
    && multiset(r) == multiset(s)
    && forall t :: Seqs.Filter(r, HasStamp(t)) == Seqs.Filter(s, HasStamp(t))
  }

  lemma RearrangesTransitive(r: seq<Chat>, s: seq<Chat>, u: seq<Chat>)
    requires StablyRearranges(r, s) && StablyRearranges(s, u)
    ensures StablyRearranges(r, u)
  {
  }

  /** A filter keeps nothing of a list in which no element passes. */
  lemma FilterNone(s: seq<Chat>, p: Chat -> bool)
    requires forall k :: 0 <= k < |s| ==> !p(s[k])
    ensures Seqs.Filter(s, p) == []
  {
  }

  /** `s` with its chat at `i` moved forward to position `j`. */
  ghost function MovedForward(s: seq<Chat>, j: int, i: int): (r: seq<Chat>)
    requires 0 <= j <= i < |s|
    ensures |r| == |s|
  {
    s[..j] + [s[i]] + s[j..i] + s[i + 1..]
  }

  /** Where each chat of `s` sits once the chat at `i` has moved forward to `j`. */
  lemma MovedForwardIndex(s: seq<Chat>, j: int, i: int)
    requires 0 <= j <= i < |s|
    ensures forall k :: 0 <= k < j ==> MovedForward(s, j, i)[k] == s[k]
    ensures MovedForward(s, j, i)[j] == s[i]
    ensures forall k :: j < k <= i ==> MovedForward(s, j, i)[k] == s[k - 1]
  {
    var m := MovedForward(s, j, i);
    forall k | 0 <= k < j ensures m[k] == s[k] {
      assert m[k] == s[..j][k];
    }
    forall k | j < k <= i ensures m[k] == s[k - 1] {
      assert m[k] == s[j..i][k - j - 1];
    }
  }

  /**
   * When the first `i` chats are newest first and the chat at `i` moves
   * forward past exactly the chats older than it, the first `i + 1` chats
   * are newest first.
   */
  lemma MoveForwardSorted(s: seq<Chat>, j: int, i: int)
    requires 0 <= j <= i < |s|
    requires forall p, q :: 0 <= p < q < i ==> s[p].updated_at >= s[q].updated_at
    requires forall k :: j <= k < i ==> s[k].updated_at < s[i].updated_at
    requires j > 0 ==> s[j - 1].updated_at >= s[i].updated_at
    ensures forall p, q :: 0 <= p < q <= i ==> MovedForward(s, j, i)[p].updated_at >= MovedForward(s, j, i)[q].updated_at
  {
    MovedForwardIndex(s, j, i);
  }

  /** The positions of a moved list, one by one. */
  lemma MovedForwardAt(r: seq<Chat>, s: seq<Chat>, j: int, i: int)
    requires 0 <= j <= i < |s| == |r|
    requires forall k :: 0 <= k < j ==> r[k] == s[k]
    requires r[j] == s[i]
    requires forall k :: j < k <= i ==> r[k] == s[k - 1]
    requires forall k :: i < k < |s| ==> r[k] == s[k]
    ensures r == MovedForward(s, j, i)
  {
    var m := MovedForward(s, j, i);
    forall k | 0 <= k < |s| ensures r[k] == m[k] {
      if k < j {
        assert m[k] == s[..j][k];
      } else if k == j {
      } else if k <= i {
        assert m[k] == s[j..i][k - j - 1];
      } else {
        assert m[k] == s[i + 1..][k - i - 1];
      }
    }
  }

  /** A filter of four joined lists joins the four filters. */
  lemma FilterFour(a: seq<Chat>, b: seq<Chat>, c: seq<Chat>, d: seq<Chat>, p: Chat -> bool)
    ensures Seqs.Filter(a + b + c + d, p) == Seqs.Filter(a, p) + Seqs.Filter(b, p) + Seqs.Filter(c, p) + Seqs.Filter(d, p)
  {
    Seqs.FilterAppend(a, b, p);
    Seqs.FilterAppend(a + b, c, p);
    Seqs.FilterAppend(a + b + c, d, p);
  }

  /** Passing `x` over chats the filter drops does not change what it keeps. */
  lemma FilterMoveOver(front: seq<Chat>, x: Chat, mid: seq<Chat>, back: seq<Chat>, p: Chat -> bool)
    requires p(x) ==> forall k :: 0 <= k < |mid| ==> !p(mid[k])
    ensures Seqs.Filter(front + [x] + mid + back, p) == Seqs.Filter(front + mid + [x] + back, p)
  {
    FilterFour(front, [x], mid, back, p);
    FilterFour(front, mid, [x], back, p);
    if p(x) {
      FilterNone(mid, p);
    } else {
      FilterSingle(x, p);
    }
    SwapEmpty(Seqs.Filter(front, p), Seqs.Filter([x], p), Seqs.Filter(mid, p), Seqs.Filter(back, p));
  }

  /** Two neighbouring parts of a join can trade places when one of them is empty. */
  lemma SwapEmpty(f: seq<Chat>, y: seq<Chat>, m: seq<Chat>, b: seq<Chat>)
    requires y == [] || m == []
    ensures f + y + m + b == f + m + y + b
  {
  }

  lemma FilterSingle(x: Chat, p: Chat -> bool)
    ensures Seqs.Filter([x], p) == if p(x) then [x] else []
  {
    assert [x][1..] == [];
  }

  /**
   * Moving the chat at `i` forward to `j`, past chats that are all strictly
   * older than it, is a stable rearrangement.
   */
  lemma MoveForwardStable(s: seq<Chat>, j: int, i: int)
    requires 0 <= j <= i < |s|
    requires forall k :: j <= k < i ==> s[k].updated_at < s[i].updated_at
    ensures StablyRearranges(MovedForward(s, j, i), s)
  {
    var front, x, mid, back := s[..j], s[i], s[j..i], s[i + 1..];
    assert s == front + mid + [x] + back;
    assert MovedForward(s, j, i) == front + [x] + mid + back;
    forall t
      ensures Seqs.Filter(front + [x] + mid + back, HasStamp(t)) == Seqs.Filter(s, HasStamp(t))
    {
      FilterMoveOver(front, x, mid, back, HasStamp(t));
    }
  }

  /**
   * The list `r` that puts the chat at `i` of `s` at `j`, past exactly the
   * chats that are strictly older than it, and shifts those one place back:
   * when the first `i` chats of `s` are newest first, so are the first
   * `i + 1` chats of `r`, and `r` stably rearranges `s`.
   */
  lemma InsertedForward(r: seq<Chat>, s: seq<Chat>, j: int, i: int)
    requires 0 <= j <= i < |s| == |r|
    requires forall p, q :: 0 <= p < q < i ==> s[p].updated_at >= s[q].updated_at
    requires forall k :: 0 <= k < j ==> r[k] == s[k]
    requires r[j] == s[i]
    requires forall k :: j < k <= i ==> r[k] == s[k - 1]
    requires forall k :: i < k < |s| ==> r[k] == s[k]
    requires forall k :: j <= k < i ==> s[k].updated_at < s[i].updated_at
    requires j > 0 ==> r[j - 1].updated_at >= s[i].updated_at
    ensures forall p, q :: 0 <= p < q <= i ==> r[p].updated_at >= r[q].updated_at
    ensures StablyRearranges(r, s)
  {
    MovedForwardAt(r, s, j, i);
    MoveForwardSorted(s, j, i);
    MoveForwardStable(s, j, i);
  }

  /** Two newest-first lists with the same elements and the same order at the front's timestamp start alike. */
  lemma SameFront(r1: seq<Chat>, r2: seq<Chat>)
    requires NewestFirst(r1) && NewestFirst(r2) && r1 != []
    requires multiset(r1) == multiset(r2)
    requires Seqs.Filter(r1, HasStamp(r1[0].updated_at)) == Seqs.Filter(r2, HasStamp(r1[0].updated_at))
    ensures r2 != [] && r1[0] == r2[0]
  {
    assert r1[0] in multiset(r2);
    assert r2[0] in multiset(r1);
    var p := HasStamp(r1[0].updated_at);
    assert p(r2[0]);
    assert Seqs.Filter(r1, p)[0] == r1[0];
    assert Seqs.Filter(r2, p)[0] == r2[0];
  }

  /** Dropping a common first element keeps equal per-timestamp orders equal. */
  lemma DropFront(r1: seq<Chat>, r2: seq<Chat>, u: Millis)
    requires r1 != [] && r2 != [] && r1[0] == r2[0]
    requires Seqs.Filter(r1, HasStamp(u)) == Seqs.Filter(r2, HasStamp(u))
    ensures Seqs.Filter(r1[1..], HasStamp(u)) == Seqs.Filter(r2[1..], HasStamp(u))
  {
    var q := HasStamp(u);
    var head := if q(r1[0]) then [r1[0]] else [];
    assert Seqs.Filter(r1[1..], q) == (head + Seqs.Filter(r1[1..], q))[|head|..];
    assert Seqs.Filter(r2[1..], q) == (head + Seqs.Filter(r2[1..], q))[|head|..];
  }

  /** Dropping a common first element keeps equal contents equal. */
  lemma DropFrontMultiset(r1: seq<Chat>, r2: seq<Chat>)
    requires r1 != [] && r2 != [] && r1[0] == r2[0]
    requires multiset(r1) == multiset(r2)
    ensures multiset(r1[1..]) == multiset(r2[1..])
  {
    assert r1 == [r1[0]] + r1[1..] && r2 == [r2[0]] + r2[1..];
    assert multiset(r1[1..]) == multiset(r1) - multiset{r1[0]};
    assert multiset(r2[1..]) == multiset(r2) - multiset{r2[0]};
  }

  /**
   * Sorting newest first is determined by its stability: two newest-first
   * lists with the same elements and the same order within every timestamp
   * are equal.
   */
  lemma {:induction false} StableOrderUnique(r1: seq<Chat>, r2: seq<Chat>)
    requires NewestFirst(r1) && NewestFirst(r2)
    requires multiset(r1) == multiset(r2)
    requires forall t :: Seqs.Filter(r1, HasStamp(t)) == Seqs.Filter(r2, HasStamp(t))
    ensures r1 == r2
  {
    if r1 == [] {
      assert |multiset(r2)| == |r2|;
    } else {
      SameFront(r1, r2);
      forall u
        ensures Seqs.Filter(r1[1..], HasStamp(u)) == Seqs.Filter(r2[1..], HasStamp(u))
      {
        DropFront(r1, r2, u);
      }
      DropFrontMultiset(r1, r2);
      StableOrderUnique(r1[1..], r2[1..]);
      assert r1 == [r1[0]] + r1[1..] && r2 == [r2[0]] + r2[1..];
    }
  }
}
