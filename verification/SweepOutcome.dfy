/**
 What one sweep of the replayer comes to, whatever it meets: which entries it tries, in
 which order it uploads them, where it stops and where the next sweep will resume.
 */
module SweepOutcome {
  import opened Wrappers
  import opened PendingUploads
  import opened ReplaySweep

  type Order = seq<SpoolEntry>

  /** The entry is still stored and nobody else is uploading it. */
  predicate Open(e: SpoolEntry, claims: set<Id>, dir: Directory) {
    e.recordingId in dir && e.recordingId !in claims
  }

  /** Its recording's size is known or can be read, so that it can be sent. */
  predicate CanSend(e: SpoolEntry, claims: set<Id>, s: Surroundings, dir: Directory) {
    Open(e, claims, dir) && (e.sizeBytes.Some? || s.readable(e.recordingId))
  }

  /** A sweep gets no further than an entry at which calls are paused or which it sends
      without success. */
  predicate Blocks(e: SpoolEntry, claims: set<Id>, s: Surroundings, dir: Directory) {
    !s.accepting(e.recordingId) || (CanSend(e, claims, s, dir) && !s.confirmed(e.recordingId))
  }

  ghost predicate Reached(order: Order, claims: set<Id>, s: Surroundings, dir: Directory, i: nat)
    requires i < |order|
  {
    (forall j :: 0 <= j < i ==> !Blocks(order[j], claims, s, dir)) && s.accepting(order[i].recordingId)
  }

  ghost predicate Tried(order: Order, claims: set<Id>, s: Surroundings, dir: Directory, i: nat)
    requires i < |order|
  {
    Reached(order, claims, s, dir, i) && Open(order[i], claims, dir)
  }

  ghost predicate Sent(order: Order, claims: set<Id>, s: Surroundings, dir: Directory, i: nat)
    requires i < |order|
  {
    Reached(order, claims, s, dir, i) && CanSend(order[i], claims, s, dir)
  }

  /** Visiting one entry leaves the others as they were. */
  lemma RestIsUnmoved(order: Order, claims: set<Id>, s: Surroundings, dir: Directory, dir': Directory, i: nat)
    requires 0 < i < |order| && Distinct(order) && !Blocks(order[0], claims, s, dir)
    requires forall id :: id != order[0].recordingId ==> (id in dir' <==> id in dir)
    ensures Reached(order[1..], claims, s, dir', i - 1) <==> Reached(order, claims, s, dir, i)
    ensures Open(order[i], claims, dir') <==> Open(order[i], claims, dir)
    ensures CanSend(order[i], claims, s, dir') <==> CanSend(order[i], claims, s, dir)
  {
    var rest := order[1..];
    forall j | 0 < j < |order|
      ensures rest[j - 1] == order[j] && (Blocks(rest[j - 1], claims, s, dir') <==> Blocks(order[j], claims, s, dir))
    {
    }
    if Reached(rest, claims, s, dir', i - 1) {
      forall j | 0 <= j < i ensures !Blocks(order[j], claims, s, dir) {
        if j > 0 {
          assert !Blocks(rest[j - 1], claims, s, dir');
        }
      }
    }
  }

  lemma LaterIsUnreached(order: Order, claims: set<Id>, s: Surroundings, dir: Directory, i: nat)
    requires 0 < i < |order| && Blocks(order[0], claims, s, dir)
    ensures !Reached(order, claims, s, dir, i)
  {
  }

  /** A sweep uploads an entry if and only if it gets there and can send it. */
  lemma {:induction false} SentExactly(order: Order, claims: set<Id>, s: Surroundings, dir: Directory, last: Option<Id>, i: nat)
    requires i < |order| && Distinct(order)
    ensures order[i].recordingId in SweepOver(order, claims, s, dir, last).uploads <==> Sent(order, claims, s, dir, i)
    decreases |order|
  {
    var v := Visited(order[0], claims, s, dir, last);
    if i > 0 {
      if v.stops {
        LaterIsUnreached(order, claims, s, dir, i);
      } else {
        SentExactly(order[1..], claims, s, v.dir, v.last, i - 1);
        RestIsUnmoved(order, claims, s, dir, v.dir, i);
      }
    } else if !v.stops {
      var rest := SweepOver(order[1..], claims, s, v.dir, v.last);
      if order[0].recordingId in rest.uploads {
        OnlySendablesAreSent(order[1..], claims, s, v.dir, v.last, order[0].recordingId);
      }
    }
  }

  ghost predicate TriedLast(order: Order, claims: set<Id>, s: Surroundings, dir: Directory, i: nat)
    requires i < |order|
  {
    Tried(order, claims, s, dir, i) && forall j: nat :: i < j < |order| ==> !Tried(order, claims, s, dir, j)
  }

  /** The next sweep resumes after the last entry that this one tried. */
  ghost predicate ResumesAfter(order: Order, claims: set<Id>, s: Surroundings, dir: Directory, last: Option<Id>, o: Swept) {
    && ((forall i: nat :: i < |order| ==> !Tried(order, claims, s, dir, i)) ==> o.last == last)
    && (forall i: nat :: i < |order| && TriedLast(order, claims, s, dir, i) ==> o.last == Some(order[i].recordingId))
  }

  lemma {:induction false} ResumptionIsExact(order: Order, claims: set<Id>, s: Surroundings, dir: Directory, last: Option<Id>)
    requires Distinct(order)
    ensures ResumesAfter(order, claims, s, dir, last, SweepOver(order, claims, s, dir, last))
    decreases |order|
  {
    if order != [] {
      var v := Visited(order[0], claims, s, dir, last);
      var rest := order[1..];
      if v.stops {
        assert if Tried(order, claims, s, dir, 0) then v.last == Some(order[0].recordingId) else v.last == last;
        forall i: nat | 0 < i < |order| ensures !Tried(order, claims, s, dir, i) {
          LaterIsUnreached(order, claims, s, dir, i);
        }
      } else {
        ResumptionIsExact(rest, claims, s, v.dir, v.last);
        forall i: nat | 0 < i < |order|
          ensures Tried(order, claims, s, dir, i) <==> Tried(rest, claims, s, v.dir, i - 1)
        {
          RestIsUnmoved(order, claims, s, dir, v.dir, i);
        }
        ResumesFurther(order, claims, s, dir, last, v, SweepOver(rest, claims, s, v.dir, v.last));
      }
    }
  }

  lemma ResumesFurther(order: Order, claims: set<Id>, s: Surroundings, dir: Directory, last: Option<Id>, v: Visit, o: Swept)
    requires order != [] && v == Visited(order[0], claims, s, dir, last) && !v.stops
    requires ResumesAfter(order[1..], claims, s, v.dir, v.last, o)
    requires forall i: nat :: 0 < i < |order| ==>
               (Tried(order, claims, s, dir, i) <==> Tried(order[1..], claims, s, v.dir, i - 1))
    ensures ResumesAfter(order, claims, s, dir, last, o)
  {
    var rest := order[1..];
    assert Tried(order, claims, s, dir, 0) ==> v.last == Some(order[0].recordingId);
    assert !Tried(order, claims, s, dir, 0) ==> v.last == last;
    if forall j: nat :: 0 < j < |order| ==> !Tried(order, claims, s, dir, j) {
      forall i: nat | i < |rest| ensures !Tried(rest, claims, s, v.dir, i) {
        assert !Tried(order, claims, s, dir, i + 1);
      }
    }
    forall i: nat | i < |order| && TriedLast(order, claims, s, dir, i)
      ensures o.last == Some(order[i].recordingId)
    {
      if i > 0 {
        forall j: nat | i - 1 < j < |rest| ensures !Tried(rest, claims, s, v.dir, j) {
          assert !Tried(order, claims, s, dir, j + 1);
        }
        assert TriedLast(rest, claims, s, v.dir, i - 1);
      }
    }
  }

  /** Uploads follow the order of the sweep. */
  ghost predicate InOrder(order: Order, uploads: seq<Id>) {
    forall i, j, a, b :: 0 <= i < |order| && 0 <= j < |order| && 0 <= a < b < |uploads| ==>
      uploads[a] == order[i].recordingId && uploads[b] == order[j].recordingId ==> i < j
  }

  lemma {:induction false} UploadsFollowOrder(order: Order, claims: set<Id>, s: Surroundings, dir: Directory, last: Option<Id>)
    requires Distinct(order)
    ensures InOrder(order, SweepOver(order, claims, s, dir, last).uploads)
    decreases |order|
  {
    if order != [] {
      var v := Visited(order[0], claims, s, dir, last);
      if !v.stops {
        var rest, o := order[1..], SweepOver(order[1..], claims, s, v.dir, v.last);
        UploadsFollowOrder(rest, claims, s, v.dir, v.last);
        forall id | id in o.uploads ensures id != order[0].recordingId {
          OnlySendablesAreSent(rest, claims, s, v.dir, v.last, id);
        }
        FirstComesFirst(order, v.uploads, o.uploads);
      }
    }
  }

  lemma FirstComesFirst(order: Order, first: seq<Id>, uploads: seq<Id>)
    requires order != [] && Distinct(order) && (first == [] || first == [order[0].recordingId])
    requires InOrder(order[1..], uploads) && order[0].recordingId !in uploads
    ensures InOrder(order, first + uploads)
  {
    var all, rest := first + uploads, order[1..];
    forall i, j, a, b | 0 <= i < |order| && 0 <= j < |order| && 0 <= a < b < |all| &&
                        all[a] == order[i].recordingId && all[b] == order[j].recordingId
      ensures i < j
    {
      assert all[b] == uploads[b - |first|];
      assert j > 0;
      if i > 0 && j > 0 {
        assert rest[i - 1] == order[i] && rest[j - 1] == order[j];
        if a >= |first| {
          assert all[a] == uploads[a - |first|];
        }
      }
    }
  }

  /** Whatever a sweep meets, its order resumes after the last attempt; it uploads exactly
      the entries it reaches and can send, in that order, and removes exactly those of
      them that the operator confirms and the disk lets go. */
  ghost predicate Outcome(order: Order, claims: set<Id>, s: Surroundings, dir: Directory, last: Option<Id>, o: Swept) {
    && OrderedAfter(last, order) && Holds(order, dir)
    && (forall i: nat :: i < |order| ==> (order[i].recordingId in o.uploads <==> Sent(order, claims, s, dir, i)))
    && InOrder(order, o.uploads) && ResumesAfter(order, claims, s, dir, last, o)
    && Accounts(order, claims, s, dir, o)
  }

  lemma SweepIsExact(dir: Directory, claims: set<Id>, s: Surroundings, last: Option<Id>, o: Swept)
    requires IsSweep(dir, claims, s, last, o)
    ensures exists order :: Outcome(order, claims, s, dir, last, o)
  {
    var entries :| Ordered(entries) && Holds(entries, dir) && o == SweepOver(Rotated(entries, last), claims, s, dir, last);
    var order := Rotated(entries, last);
    RotatedHolds(entries, last);
    RotatedIsOrdered(entries, last);
    OrderedIsDistinct(entries, last);
    forall i: nat | i < |order| ensures order[i].recordingId in o.uploads <==> Sent(order, claims, s, dir, i) {
      SentExactly(order, claims, s, dir, last, i);
    }
    UploadsFollowOrder(order, claims, s, dir, last);
    ResumptionIsExact(order, claims, s, dir, last);
    SweepOverAccounts(order, claims, s, dir, last);
    assert Outcome(order, claims, s, dir, last, o);
  }
}
