/**
 The background replayer's sweep over the pending uploads: in id order, starting after
 the last attempt, stopping at the first upload that fails.
 */
module ReplaySweep {
  import opened Wrappers
  import opened PendingUploads
  import opened SpoolKeys

  // ----- order

  function Codes(id: Id): (codes: seq<nat>)
    ensures |codes| == |id|
  {
    seq(|id|, i requires 0 <= i < |id| => id[i] as nat)
  }

  predicate Before(a: Id, b: Id) {
    LexLess(Codes(a), Codes(b))
  }

  lemma BeforeIsTotal(a: Id, b: Id)
    ensures !Before(a, a)
    ensures Before(a, b) || a == b || Before(b, a)
    ensures !(Before(a, b) && Before(b, a))
  {
    LexTotal(Codes(a), Codes(b));
    if Codes(a) == Codes(b) {
      forall i | 0 <= i < |a| ensures |a| == |b| && a[i] == b[i] {
        assert Codes(a)[i] == Codes(b)[i];
      }
      assert |a| == |b|;
    }
  }

  lemma BeforeIsTransitive(a: Id, b: Id, c: Id)
    requires Before(a, b) && Before(b, c)
    ensures Before(a, c)
  {
    LexTransitive(Codes(a), Codes(b), Codes(c));
  }

  /** Whether `x` comes before `y` in a sweep that resumes after `last`. */
  predicate Sooner(last: Option<Id>, x: Id, y: Id) {
    match last
    case None => Before(x, y)
    case Some(l) => if Before(l, x) == Before(l, y) then Before(x, y) else Before(l, x)
  }

  ghost predicate Ordered(entries: seq<SpoolEntry>) {
    forall i, j :: 0 <= i < j < |entries| ==> Before(entries[i].recordingId, entries[j].recordingId)
  }

  ghost predicate OrderedAfter(last: Option<Id>, entries: seq<SpoolEntry>) {
    forall i, j :: 0 <= i < j < |entries| ==> Sooner(last, entries[i].recordingId, entries[j].recordingId)
  }

  /** Entries are stored under their own ids. */
  ghost predicate Filed(dir: Directory) {
    forall id :: id in dir ==> dir[id].recordingId == id
  }

  ghost predicate Holds(entries: seq<SpoolEntry>, dir: Directory) {
    forall e :: e in entries <==> e.recordingId in dir && dir[e.recordingId] == e
  }

  // ----- sorting and rotating

  function Inserted(entries: seq<SpoolEntry>, e: SpoolEntry): (r: seq<SpoolEntry>)
    ensures forall x :: x in r <==> x == e || x in entries
  {
    if entries == [] then [e]
    else if Before(e.recordingId, entries[0].recordingId) then [e] + entries
    else
      var rest := Inserted(entries[1..], e);
      assert forall x :: x in entries <==> x == entries[0] || x in entries[1..];
      [entries[0]] + rest
  }

  lemma {:induction false} InsertedIsOrdered(entries: seq<SpoolEntry>, e: SpoolEntry)
    requires Ordered(entries) && forall x :: x in entries ==> x.recordingId != e.recordingId
    ensures Ordered(Inserted(entries, e))
  {
    if entries != [] {
      var first := entries[0];
      if Before(e.recordingId, first.recordingId) {
        forall j | 0 < j < |entries| ensures Before(e.recordingId, entries[j].recordingId) {
          BeforeIsTransitive(e.recordingId, first.recordingId, entries[j].recordingId);
        }
      } else {
        assert first in entries;
        BeforeIsTotal(e.recordingId, first.recordingId);
        InsertedIsOrdered(entries[1..], e);
        var rest := Inserted(entries[1..], e);
        forall j | 0 <= j < |rest| ensures Before(first.recordingId, rest[j].recordingId) {
          assert rest[j] in rest;
          assert rest[j] == e || rest[j] in entries[1..];
        }
      }
    }
  }

  function FirstAfter(entries: seq<SpoolEntry>, last: Id): (at: nat)
    ensures at <= |entries|
    ensures forall i :: 0 <= i < at ==> !Before(last, entries[i].recordingId)
    ensures at < |entries| ==> Before(last, entries[at].recordingId)
  {
    if entries == [] || Before(last, entries[0].recordingId) then 0 else 1 + FirstAfter(entries[1..], last)
  }

  function Rotated(entries: seq<SpoolEntry>, last: Option<Id>): seq<SpoolEntry> {
    if last.None? then entries
    else
      var at := FirstAfter(entries, last.value);
      if at == |entries| then entries else entries[at..] + entries[..at]
  }

  lemma RotatedHolds(entries: seq<SpoolEntry>, last: Option<Id>)
    ensures forall e :: e in Rotated(entries, last) <==> e in entries
  {
    if last.Some? {
      var at := FirstAfter(entries, last.value);
      assert entries == entries[..at] + entries[at..];
    }
  }

  lemma RotatedIsOrdered(entries: seq<SpoolEntry>, last: Option<Id>)
    requires Ordered(entries)
    ensures OrderedAfter(last, Rotated(entries, last))
  {
    if last.Some? {
      var at := FirstAfter(entries, last.value);
      forall i | at <= i < |entries| ensures Before(last.value, entries[i].recordingId) {
        if i > at {
          BeforeIsTransitive(last.value, entries[at].recordingId, entries[i].recordingId);
        }
      }
    }
  }

  // ----- one sweep

  /** What a sweep meets on its way: whether calls are accepted when it reaches an entry,
      whether the recording's size can be read, whether the operator confirms, and
      whether the entry can be removed. */
  datatype Surroundings = Surroundings(accepting: Id -> bool, readable: Id -> bool, confirmed: Id -> bool,
                                       removable: Id -> bool)

  datatype Swept = Swept(dir: Directory, last: Option<Id>, uploads: seq<Id>)

  predicate Sendable(e: SpoolEntry, claims: set<Id>, s: Surroundings) {
    e.recordingId !in claims && (e.sizeBytes.Some? || s.readable(e.recordingId))
  }

  datatype Visit = Visit(dir: Directory, last: Option<Id>, uploads: seq<Id>, stops: bool)

  /** What happens at one entry; a failed upload stops the sweep. */
  function Visited(e: SpoolEntry, claims: set<Id>, s: Surroundings, dir: Directory, last: Option<Id>): Visit {
    var id := e.recordingId;
    if !s.accepting(id) then Visit(dir, last, [], true)
    else if id in claims || id !in dir then Visit(dir, last, [], false)
    else if !Sendable(e, claims, s) then Visit(dir, Some(id), [], false)
    else if !s.confirmed(id) then Visit(dir, Some(id), [id], true)
    else Visit(Dequeued(dir, id, s.removable(id)), Some(id), [id], false)
  }

  function SweepOver(entries: seq<SpoolEntry>, claims: set<Id>, s: Surroundings, dir: Directory, last: Option<Id>): Swept
    decreases |entries|
  {
    if entries == [] then Swept(dir, last, [])
    else
      var v := Visited(entries[0], claims, s, dir, last);
      if v.stops then Swept(v.dir, v.last, v.uploads)
      else Ahead(v.uploads, SweepOver(entries[1..], claims, s, v.dir, v.last))
  }

  function Ahead(uploads: seq<Id>, rest: Swept): Swept {
    rest.(uploads := uploads + rest.uploads)
  }

  ghost predicate IsSweep(dir: Directory, claims: set<Id>, s: Surroundings, last: Option<Id>, o: Swept) {
    exists entries :: Ordered(entries) && Holds(entries, dir) && o == SweepOver(Rotated(entries, last), claims, s, dir, last)
  }

  lemma FoundEach(ids: seq<Id>, found: seq<SpoolEntry>, dir: Directory)
    requires Filed(dir) && ListsOnce(ids, found, dir)
    ensures forall i :: 0 <= i < |found| ==> found[i].recordingId == ids[i]
    ensures Holds(found, dir)
  {
    forall e ensures e in found <==> e.recordingId in dir && dir[e.recordingId] == e {
      if e.recordingId in dir && dir[e.recordingId] == e {
        var i :| 0 <= i < |ids| && ids[i] == e.recordingId;
        assert found[i] == e;
      }
    }
  }

  lemma SweepUnfolds(entries: seq<SpoolEntry>, i: nat, claims: set<Id>, s: Surroundings, dir: Directory, last: Option<Id>)
    requires i < |entries|
    ensures var v := Visited(entries[i], claims, s, dir, last);
      SweepOver(entries[i..], claims, s, dir, last)
      == if v.stops then Swept(v.dir, v.last, v.uploads)
         else Ahead(v.uploads, SweepOver(entries[i + 1..], claims, s, v.dir, v.last))
  {
    assert entries[i..][1..] == entries[i + 1..];
  }

  lemma AheadTwice(first: seq<Id>, second: seq<Id>, rest: Swept)
    ensures Ahead(first, Ahead(second, rest)) == Ahead(first + second, rest)
  {
    assert first + (second + rest.uploads) == (first + second) + rest.uploads;
  }

  class Replayer {
    const spool: PendingUploadSpool
    var lastAttempt: Option<Id>

    constructor (spool: PendingUploadSpool)
      ensures this.spool == spool && lastAttempt == None
    {
      this.spool := spool;
      lastAttempt := None;
    }

    /** The stored entries in id order, however the directory lists them. */
    method SortedEntries() returns (entries: seq<SpoolEntry>)
      requires Filed(spool.dir)
      ensures Ordered(entries) && Holds(entries, spool.dir)
    {
      var found := spool.Scan();
      ghost var ids :| ListsOnce(ids, found, spool.dir);
      FoundEach(ids, found, spool.dir);
      entries := [];
      for i := 0 to |found|
        invariant Ordered(entries)
        invariant forall e :: e in entries <==> e in found[..i]
      {
        forall e | e in entries ensures e.recordingId != found[i].recordingId {
          var j :| 0 <= j < i && found[j] == e;
        }
        InsertedIsOrdered(entries, found[i]);
        entries := Inserted(entries, found[i]);
        assert found[..i + 1] == found[..i] + [found[i]];
      }
      assert found[..|found|] == found;
    }

    /** One entry; its claim is given back whatever becomes of it. */
    method Attempt(e: SpoolEntry, s: Surroundings) returns (uploads: seq<Id>, stops: bool)
      modifies this`lastAttempt, spool
      ensures spool.inFlight == old(spool.inFlight)
      ensures Visit(spool.dir, lastAttempt, uploads, stops)
           == Visited(e, old(spool.inFlight), s, old(spool.dir), old(lastAttempt))
    {
      uploads, stops := [], false;
      var id := e.recordingId;
      if !s.accepting(id) {
        stops := true;
        return;
      }
      var claimed := spool.Claim(id);
      if !claimed {
        return;
      }
      var found := spool.Contains(id);
      if found {
        lastAttempt := Some(id);
        if e.sizeBytes.Some? || s.readable(id) {
          uploads := [id];
          if s.confirmed(id) {
            var _ := spool.Dequeue(id, s.removable(id));
          } else {
            stops := true;
          }
        }
      }
      spool.Release(id);
    }

    method Sweep(s: Surroundings) returns (uploads: seq<Id>)
      requires Filed(spool.dir)
      modifies this`lastAttempt, spool
      ensures spool.inFlight == old(spool.inFlight)
      ensures IsSweep(old(spool.dir), old(spool.inFlight), s, old(lastAttempt), Swept(spool.dir, lastAttempt, uploads))
    {
      var entries := SortedEntries();
      var order := Rotated(entries, lastAttempt);
      ghost var claims := spool.inFlight;
      ghost var all := SweepOver(order, claims, s, spool.dir, lastAttempt);
      uploads := [];
      var i := 0;
      while i < |order|
        invariant i <= |order| && spool.inFlight == claims
        invariant Ahead(uploads, SweepOver(order[i..], claims, s, spool.dir, lastAttempt)) == all
      {
        SweepUnfolds(order, i, claims, s, spool.dir, lastAttempt);
        var sent, stops := Attempt(order[i], s);
        if stops {
          uploads := uploads + sent;
          break;
        }
        i := i + 1;
        AheadTwice(uploads, sent, SweepOver(order[i..], claims, s, spool.dir, lastAttempt));
        uploads := uploads + sent;
      }
      assert Swept(spool.dir, lastAttempt, uploads) == all;
    }
  }

  // ----- any sweep

  ghost predicate Distinct(entries: seq<SpoolEntry>) {
    forall i, j :: 0 <= i < j < |entries| ==> entries[i].recordingId != entries[j].recordingId
  }

  ghost predicate Names(entries: seq<SpoolEntry>, id: Id) {
    exists e :: e in entries && e.recordingId == id
  }

  predicate Cleared(uploads: seq<Id>, s: Surroundings, id: Id) {
    id in uploads && s.confirmed(id) && s.removable(id)
  }

  /** Whatever a sweep meets: it uploads stored, unclaimed entries, none of them twice,
      and only the last without success; exactly those confirmed and removable leave. */
  ghost predicate Accounts(entries: seq<SpoolEntry>, claims: set<Id>, s: Surroundings, dir: Directory, o: Swept) {
    && (forall id :: id in o.uploads ==> id in dir && id !in claims && Names(entries, id))
    && (forall i, j :: 0 <= i < j < |o.uploads| ==> o.uploads[i] != o.uploads[j])
    && (forall i :: 0 <= i < |o.uploads| - 1 ==> s.confirmed(o.uploads[i]))
    && o.dir == map id | id in dir && !Cleared(o.uploads, s, id) :: dir[id]
  }

  lemma NothingDone(entries: seq<SpoolEntry>, claims: set<Id>, s: Surroundings, dir: Directory, last: Option<Id>)
    ensures Accounts(entries, claims, s, dir, Swept(dir, last, []))
  {
  }

  lemma SentOne(entries: seq<SpoolEntry>, claims: set<Id>, s: Surroundings, dir: Directory)
    requires entries != []
    requires var id := entries[0].recordingId; id in dir && id !in claims && !s.confirmed(id)
    ensures var id := entries[0].recordingId; Accounts(entries, claims, s, dir, Swept(dir, Some(id), [id]))
  {
    assert Names(entries, entries[0].recordingId);
  }

  lemma TailAccounts(entries: seq<SpoolEntry>, claims: set<Id>, s: Surroundings, dir: Directory, o: Swept)
    requires entries != [] && Accounts(entries[1..], claims, s, dir, o)
    ensures Accounts(entries, claims, s, dir, o)
  {
    forall id | id in o.uploads ensures Names(entries, id) {
      var e :| e in entries[1..] && e.recordingId == id;
      assert e in entries;
    }
  }

  lemma ConfirmedOne(entries: seq<SpoolEntry>, claims: set<Id>, s: Surroundings, dir: Directory, o: Swept)
    requires entries != [] && Distinct(entries)
    requires var id := entries[0].recordingId; id in dir && id !in claims && s.confirmed(id)
    requires Accounts(entries[1..], claims, s, Dequeued(dir, entries[0].recordingId, s.removable(entries[0].recordingId)), o)
    ensures Accounts(entries, claims, s, dir, Ahead([entries[0].recordingId], o))
  {
    var id := entries[0].recordingId;
    assert Names(entries, id);
    assert id !in o.uploads;
    forall x | x in o.uploads ensures Names(entries, x) {
      var e :| e in entries[1..] && e.recordingId == x;
      assert e in entries;
    }
    var all := [id] + o.uploads;
    forall x ensures Cleared(all, s, x) <==> (x == id && s.removable(id)) || Cleared(o.uploads, s, x) {
    }
  }

  lemma {:induction false} SweepOverAccounts(entries: seq<SpoolEntry>, claims: set<Id>, s: Surroundings, dir: Directory,
                                             last: Option<Id>)
    requires Distinct(entries)
    ensures Accounts(entries, claims, s, dir, SweepOver(entries, claims, s, dir, last))
    decreases |entries|
  {
    if entries == [] {
      NothingDone(entries, claims, s, dir, last);
    } else {
      var v := Visited(entries[0], claims, s, dir, last);
      var id := entries[0].recordingId;
      if v.stops {
        NothingDone(entries, claims, s, dir, last);
        if v.uploads != [] {
          SentOne(entries, claims, s, dir);
        }
      } else {
        var o := SweepOver(entries[1..], claims, s, v.dir, v.last);
        SweepOverAccounts(entries[1..], claims, s, v.dir, v.last);
        if v.uploads == [] {
          TailAccounts(entries, claims, s, dir, o);
          assert Ahead([], o) == o;
        } else {
          ConfirmedOne(entries, claims, s, dir, o);
        }
      }
    }
  }

  lemma SweepAccounts(dir: Directory, claims: set<Id>, s: Surroundings, last: Option<Id>, o: Swept)
    requires IsSweep(dir, claims, s, last, o)
    ensures exists entries :: Holds(entries, dir) && Accounts(entries, claims, s, dir, o)
  {
    var entries :| Ordered(entries) && Holds(entries, dir) && o == SweepOver(Rotated(entries, last), claims, s, dir, last);
    var order := Rotated(entries, last);
    RotatedHolds(entries, last);
    OrderedIsDistinct(entries, last);
    SweepOverAccounts(order, claims, s, dir, last);
  }

  lemma OrderedIsDistinct(entries: seq<SpoolEntry>, last: Option<Id>)
    requires Ordered(entries)
    ensures Distinct(Rotated(entries, last))
  {
    var order := Rotated(entries, last);
    RotatedIsOrdered(entries, last);
    forall i, j | 0 <= i < j < |order| ensures order[i].recordingId != order[j].recordingId {
      BeforeIsTotal(order[i].recordingId, order[i].recordingId);
    }
  }

  /** With the operator confirming everything, one sweep uploads all that is waiting. */
  lemma {:induction false} OpenSweepUploadsAll(entries: seq<SpoolEntry>, claims: set<Id>, s: Surroundings, dir: Directory,
                                               last: Option<Id>)
    requires Distinct(entries) && forall id :: s.accepting(id) && s.confirmed(id)
    ensures var o := SweepOver(entries, claims, s, dir, last);
      forall e :: e in entries && e.recordingId in dir && Sendable(e, claims, s) ==> e.recordingId in o.uploads
    decreases |entries|
  {
    if entries != [] {
      var v := Visited(entries[0], claims, s, dir, last);
      var o := SweepOver(entries[1..], claims, s, v.dir, v.last);
      OpenSweepUploadsAll(entries[1..], claims, s, v.dir, v.last);
      forall e | e in entries && e.recordingId in dir && Sendable(e, claims, s)
        ensures e.recordingId in Ahead(v.uploads, o).uploads
      {
        if e != entries[0] {
          var i :| 0 <= i < |entries| && entries[i] == e;
          assert entries[1..][i - 1] == e && e.recordingId in v.dir;
        }
      }
    }
  }

  lemma OpenSweepClears(order: seq<SpoolEntry>, claims: set<Id>, s: Surroundings, dir: Directory, last: Option<Id>, id: Id)
    requires Distinct(order) && Filed(dir) && (forall e :: e in order <==> e.recordingId in dir && dir[e.recordingId] == e)
    requires forall id :: s.accepting(id) && s.confirmed(id) && s.removable(id)
    ensures id in SweepOver(order, claims, s, dir, last).dir <==> id in dir && !Sendable(dir[id], claims, s)
  {
    var o := SweepOver(order, claims, s, dir, last);
    SweepOverAccounts(order, claims, s, dir, last);
    OpenSweepUploadsAll(order, claims, s, dir, last);
    assert id in o.dir <==> id in dir && id !in o.uploads;
    if id in dir {
      assert dir[id] in order;
    }
    if id in o.uploads {
      OnlySendablesAreSent(order, claims, s, dir, last, id);
    }
  }

  lemma OpenSweepDrains(dir: Directory, claims: set<Id>, s: Surroundings, last: Option<Id>, o: Swept)
    requires IsSweep(dir, claims, s, last, o) && Filed(dir)
    requires forall id :: s.accepting(id) && s.confirmed(id) && s.removable(id)
    ensures forall id :: id in o.dir <==> id in dir && !Sendable(dir[id], claims, s)
  {
    var entries :| Ordered(entries) && Holds(entries, dir) && o == SweepOver(Rotated(entries, last), claims, s, dir, last);
    var order := Rotated(entries, last);
    RotatedHolds(entries, last);
    OrderedIsDistinct(entries, last);
    forall id ensures id in o.dir <==> id in dir && !Sendable(dir[id], claims, s) {
      OpenSweepClears(order, claims, s, dir, last, id);
    }
  }

  lemma {:induction false} OnlySendablesAreSent(entries: seq<SpoolEntry>, claims: set<Id>, s: Surroundings, dir: Directory,
                                                last: Option<Id>, id: Id)
    requires id in SweepOver(entries, claims, s, dir, last).uploads
    ensures exists e :: e in entries && e.recordingId == id && Sendable(e, claims, s)
    decreases |entries|
  {
    var v := Visited(entries[0], claims, s, dir, last);
    if id !in v.uploads {
      OnlySendablesAreSent(entries[1..], claims, s, v.dir, v.last, id);
    }
  }

  // ----- fairness during an outage

  /** Calls are accepted and no upload succeeds. */
  ghost predicate Outage(s: Surroundings) {
    forall id :: s.accepting(id) && !s.confirmed(id)
  }

  ghost predicate Waiting(dir: Directory, claims: set<Id>, s: Surroundings, id: Id) {
    id in dir && Sendable(dir[id], claims, s)
  }

  /** The waiting id that comes soonest after `last`. */
  ghost predicate IsNext(dir: Directory, claims: set<Id>, s: Surroundings, last: Option<Id>, id: Id) {
    && Waiting(dir, claims, s, id)
    && forall other :: Waiting(dir, claims, s, other) && other != id ==> Sooner(last, id, other)
  }

  ghost predicate AmongWaiting(entries: seq<SpoolEntry>, dir: Directory, claims: set<Id>, s: Surroundings) {
    && (forall e :: e in entries ==> e.recordingId in dir && dir[e.recordingId] == e)
    && (forall id :: Waiting(dir, claims, s, id) ==> dir[id] in entries)
  }

  lemma {:induction false} OutageSweep(entries: seq<SpoolEntry>, claims: set<Id>, s: Surroundings, dir: Directory,
                                       from: Option<Id>, last: Option<Id>)
    requires Outage(s) && Filed(dir) && OrderedAfter(from, entries) && AmongWaiting(entries, dir, claims, s)
    ensures var o := SweepOver(entries, claims, s, dir, last);
      && o.dir == dir
      && (o.uploads == [] ==> forall id :: !Waiting(dir, claims, s, id))
      && (o.uploads != [] ==> exists id :: o.uploads == [id] && o.last == Some(id) && IsNext(dir, claims, s, from, id))
    decreases |entries|
  {
    if entries != [] {
      var e, id := entries[0], entries[0].recordingId;
      if Sendable(e, claims, s) {
        forall other | Waiting(dir, claims, s, other) && other != id ensures Sooner(from, id, other) {
          var j :| 0 <= j < |entries| && entries[j] == dir[other];
        }
        assert IsNext(dir, claims, s, from, id);
      } else {
        forall other | Waiting(dir, claims, s, other) ensures dir[other] in entries[1..] {
          assert dir[other] != e;
        }
        OutageSweep(entries[1..], claims, s, dir, from, Visited(e, claims, s, dir, last).last);
      }
    }
  }

  /** During an outage a sweep uploads the next waiting entry, and nothing else. */
  lemma OutageSweepTakesNext(dir: Directory, claims: set<Id>, s: Surroundings, last: Option<Id>, o: Swept)
    requires Outage(s) && Filed(dir) && IsSweep(dir, claims, s, last, o)
    ensures o.dir == dir
    ensures o.uploads == [] ==> forall id :: !Waiting(dir, claims, s, id)
    ensures o.uploads != [] ==> exists id :: o.uploads == [id] && o.last == Some(id) && IsNext(dir, claims, s, last, id)
  {
    var entries :| Ordered(entries) && Holds(entries, dir) && o == SweepOver(Rotated(entries, last), claims, s, dir, last);
    RotatedIsOrdered(entries, last);
    RotatedIsAmong(entries, last, dir, claims, s);
    var order := Rotated(entries, last);
    OutageSweep(order, claims, s, dir, last, last);
  }

  lemma RotatedIsAmong(entries: seq<SpoolEntry>, last: Option<Id>, dir: Directory, claims: set<Id>, s: Surroundings)
    requires Filed(dir) && Holds(entries, dir)
    ensures AmongWaiting(Rotated(entries, last), dir, claims, s)
  {
    RotatedHolds(entries, last);
  }

  ghost predicate Resumes(dir: Directory, claims: set<Id>, s: Surroundings, os: seq<Swept>, k: nat)
    requires 0 < k < |os|
  {
    IsSweep(dir, claims, s, os[k - 1].last, os[k])
  }

  /** Consecutive sweeps, each resuming where the one before left off. */
  ghost predicate OutageRun(dir: Directory, claims: set<Id>, s: Surroundings, last: Option<Id>, os: seq<Swept>) {
    && (os != [] ==> IsSweep(dir, claims, s, last, os[0]))
    && (forall k :: 0 < k < |os| ==> Resumes(dir, claims, s, os, k))
  }

  ghost predicate WaitingIds(ids: seq<Id>, dir: Directory, claims: set<Id>, s: Surroundings) {
    && (forall i, j :: 0 <= i < j < |ids| ==> Before(ids[i], ids[j]))
    && (forall id :: id in ids <==> Waiting(dir, claims, s, id))
  }

  /** After the j-th waiting id comes the one after it, and after the last the first. */
  lemma NeighbourIsSoonest(ids: seq<Id>, j: nat, i: nat)
    requires forall i, j :: 0 <= i < j < |ids| ==> Before(ids[i], ids[j])
    requires j < |ids| && i < |ids| && i != (if j + 1 == |ids| then 0 else j + 1)
    ensures !Sooner(Some(ids[j]), ids[i], ids[if j + 1 == |ids| then 0 else j + 1])
  {
    var at := if j + 1 == |ids| then 0 else j + 1;
    BeforeIsTotal(ids[j], ids[i]);
    BeforeIsTotal(ids[j], ids[at]);
    BeforeIsTotal(ids[i], ids[at]);
    assert at < i ==> Before(ids[at], ids[i]);
    assert i < j ==> Before(ids[i], ids[j]);
    assert j < at ==> Before(ids[j], ids[at]);
    assert at < j ==> Before(ids[at], ids[j]);
  }

  lemma NextInOrder(ids: seq<Id>, dir: Directory, claims: set<Id>, s: Surroundings, j: nat, id: Id)
    requires WaitingIds(ids, dir, claims, s) && j < |ids| && IsNext(dir, claims, s, Some(ids[j]), id)
    ensures id == ids[if j + 1 == |ids| then 0 else j + 1]
  {
    var next := ids[if j + 1 == |ids| then 0 else j + 1];
    assert next in ids && id in ids;
    var i :| 0 <= i < |ids| && ids[i] == id;
    assert id != next ==> Sooner(Some(ids[j]), id, next);
    if i != (if j + 1 == |ids| then 0 else j + 1) {
      NeighbourIsSoonest(ids, j, i);
    }
  }

  /** The sweep uploaded the at-th waiting entry, and no other. */
  ghost predicate Took(o: Swept, ids: seq<Id>, at: nat) {
    at < |ids| && o.uploads == [ids[at]] && o.last == Some(ids[at])
  }

  lemma OutageStep(ids: seq<Id>, dir: Directory, claims: set<Id>, s: Surroundings, at: nat, prev: Swept, o: Swept)
    requires Outage(s) && Filed(dir) && WaitingIds(ids, dir, claims, s) && Took(prev, ids, at)
    requires IsSweep(dir, claims, s, prev.last, o)
    ensures Took(o, ids, if at + 1 == |ids| then 0 else at + 1) && o.dir == dir
  {
    OutageSweepTakesNext(dir, claims, s, Some(ids[at]), o);
    assert ids[at] in ids && Waiting(dir, claims, s, ids[at]);
    var id :| o.uploads == [id] && o.last == Some(id) && IsNext(dir, claims, s, Some(ids[at]), id);
    NextInOrder(ids, dir, claims, s, at, id);
  }

  function Place(n: nat, first: nat, k: nat): nat {
    if first + k < n then first + k else first + k - n
  }

  /** If the sweep before took the at-th waiting entry, this one takes the next. */
  ghost predicate TakesTurn(ids: seq<Id>, dir: Directory, prev: Swept, o: Swept) {
    forall at: nat :: Took(prev, ids, at) ==> Took(o, ids, if at + 1 == |ids| then 0 else at + 1) && o.dir == dir
  }

  ghost predicate TurnAt(ids: seq<Id>, dir: Directory, os: seq<Swept>, k: nat)
    requires 0 < k < |os|
  {
    TakesTurn(ids, dir, os[k - 1], os[k])
  }

  lemma OutageTurn(ids: seq<Id>, dir: Directory, claims: set<Id>, s: Surroundings, os: seq<Swept>, k: nat)
    requires Outage(s) && Filed(dir) && WaitingIds(ids, dir, claims, s) && 0 < k < |os| && Resumes(dir, claims, s, os, k)
    ensures TurnAt(ids, dir, os, k)
  {
    var prev, o := os[k - 1], os[k];
    forall at: nat | Took(prev, ids, at) ensures Took(o, ids, if at + 1 == |ids| then 0 else at + 1) && o.dir == dir {
      OutageStep(ids, dir, claims, s, at, prev, o);
    }
  }

  /** Once a sweep has taken a waiting entry, the following ones take the others in turn. */
  lemma {:induction false} TurnsCycle(ids: seq<Id>, dir: Directory, os: seq<Swept>, first: nat, k: nat)
    requires forall i :: 0 < i < |os| ==> TurnAt(ids, dir, os, i)
    requires k < |os| && k < |ids| && Took(os[0], ids, first) && os[0].dir == dir
    ensures Took(os[k], ids, Place(|ids|, first, k)) && os[k].dir == dir
    decreases k
  {
    if k > 0 {
      TurnsCycle(ids, dir, os, first, k - 1);
      assert TurnAt(ids, dir, os, k);
    }
  }

  lemma FirstTakesSome(ids: seq<Id>, dir: Directory, claims: set<Id>, s: Surroundings, last: Option<Id>, o: Swept)
    returns (first: nat)
    requires Outage(s) && Filed(dir) && IsSweep(dir, claims, s, last, o) && WaitingIds(ids, dir, claims, s) && ids != []
    ensures Took(o, ids, first) && o.dir == dir
  {
    OutageSweepTakesNext(dir, claims, s, last, o);
    assert ids[0] in ids && Waiting(dir, claims, s, ids[0]);
    var id :| o.uploads == [id] && o.last == Some(id) && IsNext(dir, claims, s, last, id);
    assert id in ids;
    first :| first < |ids| && ids[first] == id;
  }

  /** From wherever the replayer left off, as many sweeps as there are waiting entries
      upload each of them exactly once. */
  lemma EachWaitingEntryOnce(ids: seq<Id>, dir: Directory, claims: set<Id>, s: Surroundings, last: Option<Id>, os: seq<Swept>)
    requires Outage(s) && Filed(dir) && OutageRun(dir, claims, s, last, os) && WaitingIds(ids, dir, claims, s)
    requires |os| == |ids|
    ensures forall k :: 0 <= k < |os| ==> |os[k].uploads| == 1 && os[k].dir == dir
    ensures forall id :: Waiting(dir, claims, s, id) ==> exists k :: 0 <= k < |os| && os[k].uploads == [id]
    ensures forall j, k :: 0 <= j < k < |os| ==> os[j].uploads != os[k].uploads
  {
    if ids != [] {
      var first := FirstTakesSome(ids, dir, claims, s, last, os[0]);
      forall k | 0 < k < |os| ensures TurnAt(ids, dir, os, k) {
        OutageTurn(ids, dir, claims, s, os, k);
      }
      forall k | 0 <= k < |os| ensures Took(os[k], ids, Place(|ids|, first, k)) && os[k].dir == dir {
        TurnsCycle(ids, dir, os, first, k);
      }
      TurnsAreExactlyOnce(ids, os, first);
    }
  }

  lemma TurnsAreExactlyOnce(ids: seq<Id>, os: seq<Swept>, first: nat)
    requires |os| == |ids| && first < |ids|
    requires forall i, j :: 0 <= i < j < |ids| ==> Before(ids[i], ids[j])
    requires forall k :: 0 <= k < |os| ==> Took(os[k], ids, Place(|ids|, first, k))
    ensures forall id :: id in ids ==> exists k :: 0 <= k < |os| && os[k].uploads == [id]
    ensures forall j, k :: 0 <= j < k < |os| ==> os[j].uploads != os[k].uploads
  {
    var n := |ids|;
    forall id | id in ids ensures exists k :: 0 <= k < n && os[k].uploads == [id] {
      var i :| 0 <= i < n && ids[i] == id;
      var k := if i >= first then i - first else i - first + n;
      assert Place(n, first, k) == i && Took(os[k], ids, i);
    }
    forall j, k | 0 <= j < k < n ensures os[j].uploads != os[k].uploads {
      var a, b := Place(n, first, j), Place(n, first, k);
      BeforeIsTotal(ids[a], ids[b]);
      assert Took(os[j], ids, a) && Took(os[k], ids, b);
      assert os[j].uploads[0] == ids[a] && os[k].uploads[0] == ids[b];
      assert a < b || b < a;
    }
  }
}
