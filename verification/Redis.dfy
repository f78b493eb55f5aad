/** The Redis values the queue scripts work on: lists, sorted sets, and keys with a time to live.
    Every command is a function on values; the classes of the other modules hold the values. */
module Redis {

  datatype Option<+T> = None | Some(value: T) {
    function GetOr(default: T): T {
      match this
      case Some(v) => v
      case None => default
    }
  }

  // ---------------------------------------------------------------- lists

  /** LREM key -1 x: removes the occurrence of x nearest to the tail. */
  function LRemLast(xs: seq<string>, x: string): (r: seq<string>)
    ensures multiset(r) == multiset(xs) - multiset{x}
    ensures x !in xs ==> r == xs
  {
    if xs == [] then []
    else
      var last := |xs| - 1;
      assert xs == xs[..last] + [xs[last]];
      if xs[last] == x then xs[..last] else LRemLast(xs[..last], x) + [xs[last]]
  }

  /** LREM key 1 x: removes the occurrence of x nearest to the head. */
  function LRemFirst(xs: seq<string>, x: string): (r: seq<string>)
    ensures multiset(r) == multiset(xs) - multiset{x}
    ensures x !in xs ==> r == xs
  {
    if xs == [] then []
    else
      assert xs == [xs[0]] + xs[1..];
      if xs[0] == x then xs[1..] else [xs[0]] + LRemFirst(xs[1..], x)
  }

  function Reverse<T>(xs: seq<T>): (r: seq<T>)
    ensures |r| == |xs|
    ensures forall i :: 0 <= i < |xs| ==> r[i] == xs[|xs| - 1 - i]
  {
    seq(|xs|, i requires 0 <= i < |xs| => xs[|xs| - 1 - i])
  }

  lemma {:induction false} ReverseCons<T>(x: T, xs: seq<T>)
    ensures Reverse([x] + xs) == Reverse(xs) + [x]
  {
    assert forall i :: 0 <= i < |xs| + 1 ==> Reverse([x] + xs)[i] == (Reverse(xs) + [x])[i];
  }

  // ---------------------------------------------------------------- sorted sets

  datatype Entry = Entry(score: int, id: string)

  /** A sorted set, listed by increasing score and, for equal scores, by member. */
  type ZSet = seq<Entry>

  predicate LexLess(a: string, b: string)
  {
    b != [] && (a == [] || a[0] < b[0] || (a[0] == b[0] && LexLess(a[1..], b[1..])))
  }

  lemma {:induction false} LexTotal(a: string, b: string)
    ensures a == b || LexLess(a, b) || LexLess(b, a)
  {
    if a != [] && b != [] && a[0] == b[0] {
      LexTotal(a[1..], b[1..]);
      assert a == [a[0]] + a[1..] && b == [b[0]] + b[1..];
    }
  }

  lemma {:induction false} LexTransitive(a: string, b: string, c: string)
    requires LexLess(a, b) && LexLess(b, c)
    ensures LexLess(a, c)
  {
    if a != [] && a[0] == b[0] && b[0] == c[0] {
      LexTransitive(a[1..], b[1..], c[1..]);
    }
  }

  lemma {:induction false} LexIrreflexive(a: string)
    ensures !LexLess(a, a)
  {
    if a != [] {
      LexIrreflexive(a[1..]);
    }
  }

  /** The order in which Redis lists the members of a sorted set. */
  predicate Before(a: Entry, b: Entry)
  {
    a.score < b.score || (a.score == b.score && LexLess(a.id, b.id))
  }

  ghost predicate Sorted(z: ZSet)
  {
    forall i, j :: 0 <= i < j < |z| ==> Before(z[i], z[j])
  }

  function Members(z: ZSet): (ids: seq<string>)
    ensures |ids| == |z|
    ensures forall i :: 0 <= i < |z| ==> ids[i] == z[i].id
  {
    seq(|z|, i requires 0 <= i < |z| => z[i].id)
  }

  lemma {:induction false} MembersConcat(a: ZSet, b: ZSet)
    ensures Members(a + b) == Members(a) + Members(b)
    ensures multiset(Members(a + b)) == multiset(Members(a)) + multiset(Members(b))
  {
    assert forall i :: 0 <= i < |a + b| ==> Members(a + b)[i] == (Members(a) + Members(b))[i];
    assert Members(a + b) == Members(a) + Members(b);
  }

  /** ZREM key ids... */
  function ZRem(z: ZSet, ids: set<string>): (r: ZSet)
    ensures forall e <- r :: e in z && e.id !in ids
    ensures forall x :: multiset(Members(r))[x] == if x in ids then 0 else multiset(Members(z))[x]
  {
    if z == [] then []
    else
      assert z == [z[0]] + z[1..];
      MembersConcat([z[0]], z[1..]);
      assert Members([z[0]]) == [z[0].id];
      var rest := ZRem(z[1..], ids);
      MembersConcat([z[0]], rest);
      if z[0].id in ids then rest else [z[0]] + rest
  }

  function ZInsert(z: ZSet, e: Entry): (r: ZSet)
    ensures multiset(Members(r)) == multiset(Members(z)) + multiset{e.id}
    ensures forall x <- r :: x == e || x in z
  {
    assert Members([e]) == [e.id];
    MembersConcat([e], z);
    if z == [] || Before(e, z[0]) then [e] + z
    else
      assert z == [z[0]] + z[1..];
      MembersConcat([z[0]], z[1..]);
      MembersConcat([z[0]], ZInsert(z[1..], e));
      [z[0]] + ZInsert(z[1..], e)
  }

  /** ZADD key score id: a member that is already present gets the new score. */
  function ZAdd(z: ZSet, score: int, id: string): ZSet
  {
    ZInsert(ZRem(z, {id}), Entry(score, id))
  }

  /** ZRANGEBYSCORE key lo hi */
  function ZRangeByScore(z: ZSet, lo: int, hi: int): (r: ZSet)
    ensures forall e <- r :: e in z && lo <= e.score <= hi
  {
    if z == [] then []
    else if lo <= z[0].score <= hi then [z[0]] + ZRangeByScore(z[1..], lo, hi)
    else ZRangeByScore(z[1..], lo, hi)
  }

  /** ZRANGEBYSCORE key -inf hi */
  function ZUpTo(z: ZSet, hi: int): (r: ZSet)
    ensures forall e <- r :: e in z && e.score <= hi
  {
    if z == [] then [] else if z[0].score <= hi then [z[0]] + ZUpTo(z[1..], hi) else ZUpTo(z[1..], hi)
  }

  /** ZSCORE key id */
  predicate ZHas(z: ZSet, id: string)
  {
    id in Members(z)
  }

  // ---------------------------------------------------------------- what the order gives

  lemma {:induction false} BeforeTransitive(a: Entry, b: Entry, c: Entry)
    requires Before(a, b) && Before(b, c)
    ensures Before(a, c)
  {
    if a.score == b.score == c.score {
      LexTransitive(a.id, b.id, c.id);
    }
  }

  lemma SortedConcat(a: ZSet, b: ZSet)
    requires Sorted(a) && Sorted(b)
    requires forall x, y :: x in a && y in b ==> Before(x, y)
    ensures Sorted(a + b)
  {
  }

  lemma {:induction false} ZRemSorted(z: ZSet, ids: set<string>)
    requires Sorted(z)
    ensures Sorted(ZRem(z, ids))
  {
    if z != [] {
      ZRemSorted(z[1..], ids);
      if z[0].id !in ids {
        SortedConcat([z[0]], ZRem(z[1..], ids));
      }
    }
  }

  lemma {:induction false} ZInsertSorted(z: ZSet, e: Entry)
    requires Sorted(z) && e.id !in Members(z)
    ensures Sorted(ZInsert(z, e))
  {
    if z != [] {
      assert Members(z)[0] == z[0].id;
      assert forall i :: 0 <= i < |z| - 1 ==> Members(z[1..])[i] == Members(z)[i + 1];
      if Before(e, z[0]) {
        forall y | y in z
          ensures Before(e, y)
        {
          if y != z[0] {
            BeforeTransitive(e, z[0], y);
          }
        }
        SortedConcat([e], z);
      } else {
        LexTotal(e.id, z[0].id);
        ZInsertSorted(z[1..], e);
        SortedConcat([z[0]], ZInsert(z[1..], e));
      }
    }
  }

  lemma ZAddSorted(z: ZSet, score: int, id: string)
    requires Sorted(z)
    ensures Sorted(ZAdd(z, score, id))
  {
    ZRemSorted(z, {id});
    assert multiset(Members(ZRem(z, {id})))[id] == 0;
    ZInsertSorted(ZRem(z, {id}), Entry(score, id));
  }

  /** The members of a set without its first one. */
  lemma MembersTail(z: ZSet)
    requires z != []
    ensures Members(z) == [z[0].id] + Members(z[1..])
  {
  }

  lemma ZRemTail(z: ZSet, ids: set<string>)
    requires z != []
    ensures ZRem(z, ids) == (if z[0].id in ids then [] else [z[0]]) + ZRem(z[1..], ids)
  {
  }

  lemma {:induction false} ZRemAbsent(z: ZSet, ids: set<string>)
    requires forall x <- Members(z) :: x !in ids
    ensures ZRem(z, ids) == z
  {
    if z != [] {
      MembersTail(z);
      ZRemTail(z, ids);
      ZRemAbsent(z[1..], ids);
      hide Members, ZRem;
      assert z[0].id !in ids;
      assert z == [z[0]] + z[1..];
    }
  }

  lemma ZRemMissing(z: ZSet, id: string)
    requires !ZHas(z, id)
    ensures ZRem(z, {id}) == z
  {
    ZRemAbsent(z, {id});
  }

  /** A member that occurs once is taken out by ZREM and nothing else is. */
  lemma ZRemOnce(z: ZSet, id: string)
    requires multiset(Members(z))[id] <= 1
    ensures multiset(Members(ZRem(z, {id}))) == multiset(Members(z)) - multiset{id}
  {
  }

  lemma ZAddFresh(z: ZSet, score: int, id: string)
    requires id !in Members(z)
    ensures multiset(Members(ZAdd(z, score, id))) == multiset(Members(z)) + multiset{id}
    ensures ZAdd(z, score, id) == ZInsert(z, Entry(score, id))
  {
    ZRemAbsent(z, {id});
  }

  lemma ZAddMember(z: ZSet, score: int, id: string)
    ensures ZHas(ZAdd(z, score, id), id)
  {
    assert multiset(Members(ZAdd(z, score, id)))[id] > 0;
  }

  ghost predicate Distinct(z: ZSet)
  {
    forall x :: multiset(Members(z))[x] <= 1
  }

  /** ZREM of the first k members of a set leaves the others, in place. */
  lemma {:induction false} ZRemPrefix(z: ZSet, k: nat, ids: set<string>)
    requires Distinct(z) && k <= |z|
    requires forall x :: x in ids <==> x in Members(z[..k])
    ensures ZRem(z, ids) == z[k..]
  {
    assert z == z[..k] + z[k..];
    MembersConcat(z[..k], z[k..]);
    var front := Members(z[..k]);
    forall x | x in Members(z[k..])
      ensures x !in ids
    {
      assert multiset(Members(z))[x] == multiset(Members(z[..k]))[x] + multiset(Members(z[k..]))[x] <= 1;
      assert x in front ==> multiset(front)[x] > 0;
    }
    ZRemConcat(z[..k], z[k..], ids);
    ZRemAbsent(z[k..], ids);
    ZRemEvery(z[..k], ids);
  }

  lemma {:induction false} ZRemConcat(a: ZSet, b: ZSet, ids: set<string>)
    ensures ZRem(a + b, ids) == ZRem(a, ids) + ZRem(b, ids)
  {
    if a == [] {
      assert a + b == b;
    } else {
      assert (a + b)[1..] == a[1..] + b;
      ZRemConcat(a[1..], b, ids);
    }
  }

  lemma {:induction false} ZRemEvery(z: ZSet, ids: set<string>)
    requires forall x <- Members(z) :: x in ids
    ensures ZRem(z, ids) == []
  {
    if z != [] {
      MembersTail(z);
      hide Members;
      ZRemEvery(z[1..], ids);
    }
  }

  lemma SortedTail(z: ZSet)
    requires Sorted(z) && z != []
    ensures Sorted(z[1..])
  {
  }

  lemma {:induction false} ZRangeNone(z: ZSet, lo: int, hi: int)
    requires Sorted(z) && z != [] && z[0].score > hi
    ensures ZRangeByScore(z, lo, hi) == [] && forall e <- z :: e.score > hi
  {
    if |z| > 1 {
      assert Before(z[0], z[1]);
      ZRangeNone(z[1..], lo, hi);
      assert z == [z[0]] + z[1..];
    }
  }

  lemma SplitTail(z: ZSet, k: nat)
    requires k < |z|
    ensures z[..k + 1] == [z[0]] + z[1..][..k]
    ensures z[k + 1..] == z[1..][k..]
  {
  }

  /** In a sorted set with no score below lo, ZRANGEBYSCORE lo hi is a prefix, and what follows scores above hi. */
  lemma {:induction false} ZRangePrefix(z: ZSet, lo: int, hi: int)
    requires Sorted(z) && forall e <- z :: lo <= e.score
    ensures var k := |ZRangeByScore(z, lo, hi)|;
      && k <= |z|
      && ZRangeByScore(z, lo, hi) == z[..k]
      && forall e <- z[k..] :: e.score > hi
  {
    if z != [] {
      if z[0].score <= hi {
        SortedTail(z);
        ZRangePrefix(z[1..], lo, hi);
        SplitTail(z, |ZRangeByScore(z[1..], lo, hi)|);
        hide Sorted, Before;
      } else {
        ZRangeNone(z, lo, hi);
        assert z[0..] == z;
      }
    }
  }

  lemma {:induction false} ZUpToPrefix(z: ZSet, hi: int)
    requires Sorted(z)
    ensures var k := |ZUpTo(z, hi)|; k <= |z| && ZUpTo(z, hi) == z[..k] && forall e <- z[k..] :: e.score > hi
  {
    if z != [] {
      if z[0].score <= hi {
        SortedTail(z);
        ZUpToPrefix(z[1..], hi);
        SplitTail(z, |ZUpTo(z[1..], hi)|);
        hide Sorted, Before;
      } else {
        ZUpToNone(z, hi);
        assert z[0..] == z;
      }
    }
  }

  lemma {:induction false} ZUpToNone(z: ZSet, hi: int)
    requires Sorted(z) && z != [] && z[0].score > hi
    ensures ZUpTo(z, hi) == [] && forall e <- z :: e.score > hi
  {
    if |z| > 1 {
      assert Before(z[0], z[1]);
      ZUpToNone(z[1..], hi);
      assert z == [z[0]] + z[1..];
    }
  }
}
