/**
 Replaying the spool against an operator that acknowledges everything: how many
 ticks it takes, and what is sent in which order.
 */
module SpoolDrain {
  import opened SpoolKeys
  import opened SpoolQueue

  /** Ticks one file needs: one request, or one split and a request per chunk. */
  function FileCost(n: nat, limit: nat): nat
    requires limit > 0
  {
    if n <= limit then 1 else 1 + CeilDiv(n, limit)
  }

  function CostOf(dir: Directory, ks: seq<Key>, limit: nat): nat
    requires limit > 0 && forall k :: k in ks ==> k in dir
  {
    if ks == [] then 0 else FileCost(|dir[ks[0]]|, limit) + CostOf(dir, ks[1..], limit)
  }

  ghost function Cost(dir: Directory, limit: nat): nat
    requires limit > 0
  {
    CostOf(dir, Listing(dir.Keys), limit)
  }

  /** One replay tick: an oversized oldest file is split, any other is sent whole
      and removed. */
  ghost function Tick(dir: Directory, limit: nat): Directory
    requires limit > 0
  {
    var ks := Listing(dir.Keys);
    if ks == [] then dir
    else
      assert ks[0] in ks;
      if |dir[ks[0]]| > limit then Split(dir, ks[0], Chunks(dir[ks[0]], limit)) else dir - {ks[0]}
  }

  /** The request a tick sends, if it sends one. */
  ghost function Sent(dir: Directory, limit: nat): seq<seq<Event>>
    requires limit > 0
  {
    var ks := Listing(dir.Keys);
    if ks == [] then []
    else
      assert ks[0] in ks;
      if |dir[ks[0]]| > limit then [] else [dir[ks[0]]]
  }

  ghost function Ticks(dir: Directory, limit: nat, n: nat): Directory
    requires limit > 0
    decreases n
  {
    if n == 0 then dir else Ticks(Tick(dir, limit), limit, n - 1)
  }

  ghost function Requests(dir: Directory, limit: nat, n: nat): seq<seq<Event>>
    requires limit > 0
    decreases n
  {
    if n == 0 then [] else Sent(dir, limit) + Requests(Tick(dir, limit), limit, n - 1)
  }

  lemma {:induction false} CostAppend(dir: Directory, a: seq<Key>, b: seq<Key>, limit: nat)
    requires limit > 0 && forall k :: k in a || k in b ==> k in dir
    ensures forall k :: k in a + b ==> k in dir
    ensures CostOf(dir, a + b, limit) == CostOf(dir, a, limit) + CostOf(dir, b, limit)
    decreases |a|
  {
    if a == [] {
      assert a + b == b;
    } else {
      assert (a + b)[1..] == a[1..] + b;
      CostAppend(dir, a[1..], b, limit);
    }
  }

  lemma {:induction false} CostCongruent(dir: Directory, other: Directory, ks: seq<Key>, limit: nat)
    requires limit > 0 && forall k :: k in ks ==> k in dir && k in other && dir[k] == other[k]
    ensures CostOf(dir, ks, limit) == CostOf(other, ks, limit)
    decreases |ks|
  {
    if ks != [] {
      assert ks[0] in ks;
      CostCongruent(dir, other, ks[1..], limit);
    }
  }

  lemma {:induction false} SmallFilesCostOne(dir: Directory, ks: seq<Key>, limit: nat)
    requires limit > 0 && forall k :: k in ks ==> k in dir && |dir[k]| <= limit
    ensures CostOf(dir, ks, limit) == |ks|
    decreases |ks|
  {
    if ks != [] {
      assert ks[0] in ks;
      SmallFilesCostOne(dir, ks[1..], limit);
    }
  }

  lemma SendTick(dir: Directory, limit: nat)
    requires limit > 0 && PrefixFree(dir.Keys)
    requires var ks := Listing(dir.Keys); ks != [] && ks[0] in dir && |dir[ks[0]]| <= limit
    ensures Cost(dir, limit) == 1 + Cost(Tick(dir, limit), limit)
    ensures Queue(dir) == Concat(Sent(dir, limit)) + Queue(Tick(dir, limit))
    ensures PrefixFree(Tick(dir, limit).Keys)
  {
    var ks := Listing(dir.Keys);
    var rest := dir - {ks[0]};
    ListingLength(ks, dir.Keys);
    assert KeySet(ks[..1]) == {ks[0]};
    assert WithoutFirst(dir, 1) == rest;
    WithoutFirstListing(dir, 1);
    forall k | k in ks[1..] ensures k in rest && dir[k] == rest[k] {
      assert k in Listing(rest.Keys);
    }
    CostCongruent(dir, rest, ks[1..], limit);
    FlattenCongruent(dir, rest, ks[1..]);
    assert Concat([dir[ks[0]]]) == dir[ks[0]] + Concat([]);
    RemovalStaysPrefixFree(dir, 1);
  }

  lemma PartsCost(dir: Directory, k: Key, chunks: seq<seq<Event>>, limit: nat)
    requires limit > 0 && forall i :: 0 <= i < |chunks| ==> |chunks[i]| <= limit
    ensures forall x :: x in PartKeys(k, |chunks|) ==> x in Split(dir, k, chunks)
    ensures CostOf(Split(dir, k, chunks), PartKeys(k, |chunks|), limit) == |chunks|
  {
    var dir', parts := Split(dir, k, chunks), PartKeys(k, |chunks|);
    WithPartsContents(dir, k, chunks, |chunks|);
    forall x | x in parts ensures x in dir' && |dir'[x]| <= limit {
      var i :| 0 <= i < |parts| && parts[i] == x;
      ChildIndex(k, i, i);
    }
    SmallFilesCostOne(dir', parts, limit);
  }

  lemma OthersCost(dir: Directory, chunks: seq<seq<Event>>, limit: nat)
    requires limit > 0 && PrefixFree(dir.Keys) && Listing(dir.Keys) != []
    ensures var ks := Listing(dir.Keys);
            var dir' := Split(dir, ks[0], chunks);
            && (forall x :: x in ks[1..] ==> x in dir && x in dir')
            && CostOf(dir', ks[1..], limit) == CostOf(dir, ks[1..], limit)
  {
    var ks := Listing(dir.Keys);
    var dir' := Split(dir, ks[0], chunks);
    assert ks[0] in ks;
    forall x | x in ks[1..] ensures x in dir && x in dir' && dir[x] == dir'[x] {
      BesideIsOther(ks, 0, x);
      SplitKeepsOthers(dir, ks[0], chunks, x);
    }
    CostCongruent(dir, dir', ks[1..], limit);
  }

  lemma SplitFirst(dir: Directory, chunks: seq<seq<Event>>)
    requires PrefixFree(dir.Keys) && Listing(dir.Keys) != []
    ensures var ks := Listing(dir.Keys);
            Listing(Split(dir, ks[0], chunks).Keys) == PartKeys(ks[0], |chunks|) + ks[1..]
  {
    var ks := Listing(dir.Keys);
    SplitListing(dir, ks[0], chunks, 0);
    assert ks[..0] + PartKeys(ks[0], |chunks|) == PartKeys(ks[0], |chunks|);
  }

  lemma SplitCost(dir: Directory, chunks: seq<seq<Event>>, limit: nat)
    requires limit > 0 && PrefixFree(dir.Keys) && Listing(dir.Keys) != []
    requires forall i :: 0 <= i < |chunks| ==> |chunks[i]| <= limit
    ensures var ks := Listing(dir.Keys);
            && (forall x :: x in ks[1..] ==> x in dir)
            && Cost(Split(dir, ks[0], chunks), limit) == |chunks| + CostOf(dir, ks[1..], limit)
  {
    var ks := Listing(dir.Keys);
    var dir', parts, rest := Split(dir, ks[0], chunks), PartKeys(ks[0], |chunks|), ks[1..];
    PartsCost(dir, ks[0], chunks, limit);
    OthersCost(dir, chunks, limit);
    CostAppend(dir', parts, rest, limit);
    SplitFirst(dir, chunks);
  }

  lemma SplitTick(dir: Directory, limit: nat)
    requires limit > 0 && PrefixFree(dir.Keys)
    requires var ks := Listing(dir.Keys); ks != [] && ks[0] in dir && |dir[ks[0]]| > limit
    ensures Cost(dir, limit) == 1 + Cost(Tick(dir, limit), limit)
    ensures Queue(dir) == Queue(Tick(dir, limit)) && Sent(dir, limit) == []
    ensures PrefixFree(Tick(dir, limit).Keys)
  {
    var k := Listing(dir.Keys)[0];
    var chunks := Chunks(dir[k], limit);
    assert Tick(dir, limit) == Split(dir, k, chunks);
    ChunksCover(dir[k], limit);
    SplitCost(dir, chunks, limit);
    SplitKeepsQueue(dir, k, limit);
    SplitStaysPrefixFree(dir, k, chunks);
  }

  lemma EmptyListing(dir: Directory)
    ensures Listing(dir.Keys) == [] <==> dir == map[]
  {
    ListingLength(Listing(dir.Keys), dir.Keys);
    assert dir.Keys == {} <==> dir == map[];
  }

  lemma TickStep(dir: Directory, limit: nat)
    requires limit > 0 && PrefixFree(dir.Keys) && dir != map[]
    ensures Cost(dir, limit) == 1 + Cost(Tick(dir, limit), limit)
    ensures Queue(dir) == Concat(Sent(dir, limit)) + Queue(Tick(dir, limit))
    ensures PrefixFree(Tick(dir, limit).Keys)
    ensures forall r :: r in Sent(dir, limit) ==> |r| <= limit
  {
    var ks := Listing(dir.Keys);
    EmptyListing(dir);
    assert ks[0] in ks;
    if |dir[ks[0]]| > limit {
      SplitTick(dir, limit);
      assert Concat([]) + Queue(dir) == Queue(dir);
    } else {
      SendTick(dir, limit);
    }
  }

  lemma EmptyCostsNothing(dir: Directory, limit: nat)
    requires limit > 0 && dir == map[]
    ensures Cost(dir, limit) == 0 && Queue(dir) == []
  {
    EmptyListing(dir);
  }

  lemma {:induction false} ConcatAppend(a: seq<seq<Event>>, b: seq<seq<Event>>)
    ensures Concat(a + b) == Concat(a) + Concat(b)
    decreases |a|
  {
    if a == [] {
      assert a + b == b;
    } else {
      assert (a + b)[1..] == a[1..] + b;
      ConcatAppend(a[1..], b);
    }
  }

  /** The spool is not empty before its last tick. */
  lemma {:induction false} DrainTakesItsTime(dir: Directory, limit: nat, m: nat)
    requires limit > 0 && PrefixFree(dir.Keys) && m < Cost(dir, limit)
    ensures Ticks(dir, limit, m) != map[]
    decreases m
  {
    if dir == map[] {
      EmptyCostsNothing(dir, limit);
    } else if m > 0 {
      var next := Tick(dir, limit);
      TickStep(dir, limit);
      DrainTakesItsTime(next, limit, m - 1);
      assert Ticks(dir, limit, m) == Ticks(next, limit, m - 1);
    }
  }

  /** `n` ticks empty the spool, delivering its queue in order in requests of at
      most `limit` events. */
  ghost predicate Drains(dir: Directory, limit: nat, n: nat)
    requires limit > 0
  {
    && Ticks(dir, limit, n) == map[]
    && Concat(Requests(dir, limit, n)) == Queue(dir)
    && forall r :: r in Requests(dir, limit, n) ==> |r| <= limit
  }

  lemma NothingToDrain(dir: Directory, limit: nat)
    requires limit > 0 && dir == map[]
    ensures Cost(dir, limit) == 0 && Drains(dir, limit, 0)
  {
    EmptyCostsNothing(dir, limit);
  }

  lemma DrainStep(dir: Directory, next: Directory, limit: nat, n: nat)
    requires limit > 0 && next == Tick(dir, limit) && Drains(next, limit, n)
    requires Queue(dir) == Concat(Sent(dir, limit)) + Queue(next)
    requires forall r :: r in Sent(dir, limit) ==> |r| <= limit
    ensures Drains(dir, limit, n + 1)
  {
    var sent, later := Sent(dir, limit), Requests(next, limit, n);
    ConcatAppend(sent, later);
    assert Requests(dir, limit, n + 1) == sent + later;
    assert Ticks(dir, limit, n + 1) == Ticks(next, limit, n);
  }

  /** The spool drains in exactly `Cost` ticks. */
  lemma {:induction false} DrainIsExact(dir: Directory, limit: nat)
    requires limit > 0 && PrefixFree(dir.Keys)
    ensures Drains(dir, limit, Cost(dir, limit))
    decreases Cost(dir, limit)
  {
    if dir == map[] {
      NothingToDrain(dir, limit);
    } else {
      var next := Tick(dir, limit);
      TickStep(dir, limit);
      DrainIsExact(next, limit);
      DrainStep(dir, next, limit, Cost(next, limit));
    }
  }
}
