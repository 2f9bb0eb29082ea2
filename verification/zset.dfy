/** Redis sorted sets: a finite map from members to scores, ordered by score and then by member.
    Members are numbers; their numeric order stands for the byte order of the strings. */
module Zset {
  import opened Util

  type Member = nat
  type Zset = map<Member, int>

  predicate Before(z: Zset, a: Member, b: Member)
    requires a in z && b in z
  {
    z[a] < z[b] || (z[a] == z[b] && a < b)
  }

  predicate IsFirst(z: Zset, m: Member) {
    m in z && forall x | x in z && x != m :: Before(z, m, x)
  }

  lemma {:induction false} FirstExists(z: Zset)
    requires z != map[]
    ensures exists m :: IsFirst(z, m)
    decreases |z|
  {
    var m :| m in z;
    var rest := z - {m};
    if rest == map[] {
      assert forall x | x in z && x != m :: x in rest;
      assert IsFirst(z, m);
    } else {
      assert |z.Keys| == |rest.Keys| + 1 by { assert z.Keys == rest.Keys + {m}; }
      FirstExists(rest);
      var f :| IsFirst(rest, f);
      assert forall x | x in z && x != m :: x in rest;
      if Before(z, m, f) {
        assert IsFirst(z, m);
      } else {
        assert IsFirst(z, f);
      }
    }
  }

  /** The member that ZPOPMIN removes. */
  function First(z: Zset): (m: Member)
    requires z != map[]
    ensures IsFirst(z, m)
  {
    FirstExists(z);
    var m :| m in z && IsFirst(z, m);
    m
  }

  lemma FirstIsUnique(z: Zset, m: Member)
    requires IsFirst(z, m)
    ensures First(z) == m
  {
    assert IsFirst(z, First(z));
  }

  /** All members in sorted-set order. */
  function Sorted(z: Zset): seq<Member>
    decreases |z|
  {
    if z == map[] then []
    else
      SmallerWithoutFirst(z);
      [First(z)] + Sorted(z - {First(z)})
  }

  lemma SmallerWithoutFirst(z: Zset)
    requires z != map[]
    ensures First(z) in z && |z - {First(z)}| == |z| - 1
  {
    RemoveCount(z, {First(z)});
  }

  lemma RemoveCount(z: Zset, gone: set<Member>)
    requires gone <= z.Keys
    ensures |z - gone| == |z| - |gone|
  {
    assert z.Keys == (z - gone).Keys + gone;
    assert |z| == |z.Keys| && |z - gone| == |(z - gone).Keys|;
  }

  lemma {:induction false} SortedElements(z: Zset)
    ensures Elements(Sorted(z)) == z.Keys
    ensures forall m :: m in Sorted(z) <==> m in z
    decreases |z|
  {
    if z != map[] {
      SmallerWithoutFirst(z);
      var rest := Sorted(z - {First(z)});
      SortedElements(z - {First(z)});
      assert Sorted(z) == [First(z)] + rest;
      assert Elements([First(z)] + rest) == {First(z)} + Elements(rest);
    }
  }

  function Due(z: Zset, now: int): Zset {
    map m | m in z && z[m] <= now :: z[m]
  }

  /** ZRANGEBYSCORE key -inf now LIMIT 0 limit; a negative limit means no limit. */
  function RangeByScore(z: Zset, now: int, limit: int): (s: seq<Member>)
    ensures Elements(s) <= z.Keys
    ensures forall m | m in s :: m in z && z[m] <= now
    ensures 0 <= limit ==> |s| <= limit
  {
    var all := Sorted(Due(z, now));
    var s := if 0 <= limit < |all| then all[..limit] else all;
    SortedElements(Due(z, now));
    assert forall m | m in s :: m in all;
    s
  }

  /** Without a limit the range holds exactly the due members. */
  lemma UnlimitedRange(z: Zset, now: int, limit: int)
    requires limit < 0
    ensures forall m :: m in RangeByScore(z, now, limit) <==> m in z && z[m] <= now
  {
    SortedElements(Due(z, now));
  }

  lemma SortedStep(z: Zset)
    requires z != map[]
    ensures First(z) in z
    ensures Sorted(z) == [First(z)] + Sorted(z - {First(z)})
    ensures |z - {First(z)}| == |z| - 1
  {
    SmallerWithoutFirst(z);
  }

  predicate Ordered(z: Zset, s: seq<Member>) {
    && (forall m | m in s :: m in z)
    && (forall i, j | 0 <= i < j < |s| :: Before(z, s[i], s[j]))
  }

  lemma {:induction false} SortedIsOrdered(z: Zset)
    ensures Ordered(z, Sorted(z))
    decreases |z|
  {
    if z != map[] {
      SortedStep(z);
      var m := First(z);
      var rest := z - {m};
      SortedIsOrdered(rest);
      SortedElements(rest);
      var s := Sorted(rest);
      forall i, j | 0 <= i < j < |Sorted(z)|
        ensures Sorted(z)[i] in z && Sorted(z)[j] in z && Before(z, Sorted(z)[i], Sorted(z)[j])
      {
        assert Sorted(z)[j] == s[j - 1] && s[j - 1] in s;
        if i > 0 { assert Before(rest, s[i - 1], s[j - 1]); }
      }
    }
  }

  lemma SortedHasNoDuplicates(z: Zset)
    ensures NoDuplicates(Sorted(z))
    ensures |Sorted(z)| == |z|
  {
    SortedIsOrdered(z);
    SortedElements(z);
    var s := Sorted(z);
    assert forall i, j | 0 <= i < j < |s| :: Before(z, s[i], s[j]);
    NoDuplicatesCardinality(s);
    assert |z.Keys| == |z|;
  }

  lemma RangeHasNoDuplicates(z: Zset, now: int, limit: int)
    ensures NoDuplicates(RangeByScore(z, now, limit))
    ensures |Elements(RangeByScore(z, now, limit))| == |RangeByScore(z, now, limit)|
  {
    SortedHasNoDuplicates(Due(z, now));
    NoDuplicatesCardinality(RangeByScore(z, now, limit));
  }

  /** What `n` times ZPOPMIN leaves. */
  ghost function PopFirst(z: Zset, n: nat): Zset
    requires n <= |Sorted(z)|
  {
    if n == 0 then z
    else
      SortedStep(z);
      PopFirst(z - {First(z)}, n - 1)
  }

  lemma {:induction false} PopFirstKeepsOrder(z: Zset, n: nat)
    requires n <= |Sorted(z)|
    ensures Sorted(PopFirst(z, n)) == Sorted(z)[n..]
    decreases n
  {
    if n > 0 {
      SortedStep(z);
      PopFirstKeepsOrder(z - {First(z)}, n - 1);
    }
  }

  lemma RemoveInTurn(z: Zset, m: Member, s: seq<Member>)
    ensures z - Elements([m] + s) == (z - {m}) - Elements(s)
  {
    assert Elements([m] + s) == {m} + Elements(s);
  }

  lemma {:induction false} PopFirstRemoves(z: Zset, n: nat)
    requires n <= |Sorted(z)|
    ensures PopFirst(z, n) == z - Elements(Sorted(z)[..n])
    decreases n
  {
    if n > 0 {
      SortedStep(z);
      var less := z - {First(z)};
      PopFirstRemoves(less, n - 1);
      RemoveInTurn(z, First(z), Sorted(less)[..n - 1]);
      assert Sorted(z)[..n] == [First(z)] + Sorted(less)[..n - 1];
    }
  }

  /** Taking the first `n` members away leaves the others in the same order. */
  lemma SortedDrop(z: Zset, n: nat)
    requires n <= |Sorted(z)|
    ensures Sorted(z - Elements(Sorted(z)[..n])) == Sorted(z)[n..]
  {
    PopFirstKeepsOrder(z, n);
    PopFirstRemoves(z, n);
  }

  lemma DueRemove(z: Zset, now: int, m: Member)
    ensures Due(z - {m}, now) == Due(z, now) - {m}
  {
  }

  lemma EarlierDueSameFirst(z: Zset, now: int, later: int)
    requires now <= later && Due(z, now) != map[]
    ensures Due(z, later) != map[] && First(Due(z, later)) == First(Due(z, now))
  {
    var d, d' := Due(z, now), Due(z, later);
    var m := First(d);
    forall x | x in d' && x != m ensures Before(d', m, x) {
      assert x in d ==> Before(d, m, x);
    }
    FirstIsUnique(d', m);
  }

  /** What is due earlier comes first among what is due later. */
  lemma {:induction false} EarlierDueIsPrefix(z: Zset, now: int, later: int)
    requires now <= later
    ensures Sorted(Due(z, now)) <= Sorted(Due(z, later))
    decreases |Due(z, now)|
  {
    if Due(z, now) != map[] {
      EarlierDueSameFirst(z, now, later);
      var m := First(Due(z, now));
      DueRemove(z, now, m);
      DueRemove(z, later, m);
      SortedStep(Due(z, now));
      SortedStep(Due(z, later));
      EarlierDueIsPrefix(z - {m}, now, later);
    }
  }
}
