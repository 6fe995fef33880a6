/**
 The event forwarder: a bounded buffer in front of the operator, with the spool
 behind it. Replies, file-system faults and the shutdown signal are inputs.
 */
module Forwarder {
  import opened Wrappers
  import opened Decimal
  import opened SpoolKeys
  import opened SpoolQueue
  import opened EventSpool
  import opened SpoolDurability
  import opened SpoolDrain

  const OPERATOR_EVENT_BATCH_MAX: nat := 500

  function EffectiveBatchMax(configured: nat): (n: nat)
    ensures 1 <= n <= 500
    ensures 1 <= configured <= 500 ==> n == configured
    ensures configured > 500 ==> n == 500
  {
    if configured < 1 then 1 else if configured > OPERATOR_EVENT_BATCH_MAX then OPERATOR_EVENT_BATCH_MAX else configured
  }

  /** How the operator answers one request; `Hangs` loses the race to shutdown. */
  datatype Reply = Accepted | Unsupported | Inactive | Rejected | Hangs

  datatype FlushResult = Flushed | NotFlushed | Cancelled

  /** A spill is cut short when shutdown stops waiting for it; its blocking writes go on. */
  datatype SpillEnd = SpillDone | SpillFailed | SpillCut

  /** A step of the writes that go on: which of them, and what stops it. */
  datatype Straggle = Straggle(which: nat, fault: SpillFault)

  class Forwarder {
    var batch: seq<Event>
    const spool: Spool
    const batchMax: nat
    const bufferMax: nat
    var straggling: seq<seq<seq<Event>>>   // chunks that cut spills have yet to write

    // The fate of every event that has ever been pushed or found in the spool.
    ghost var pushed: set<Event>
    ghost var acked: set<Event>      // the operator acknowledged it
    ghost var dropped: set<Event>    // the full buffer pushed it out
    ghost var evicted: set<Event>    // the spool's file cap took it away
    ghost var refused: set<Event>    // the operator does not support events
    ghost var requests: seq<seq<Event>>
    ghost var replies: seq<Reply>    // how the operator answered each request

    /** Every event is acknowledged, buffered, spooled or charged to an eviction, and the
        acknowledged events are those of the accepted requests. */
    ghost predicate Conserved()
      reads this, spool
    {
      && Shadowed(spool.files)
      && pushed == acked + EventsOf(batch) + EventsIn(spool.files) + dropped + evicted + refused
      && (forall i, j :: 0 <= i < |straggling| && 0 <= j < |straggling[i]| ==>
            EventsOf(straggling[i][j]) <= pushed && |straggling[i][j]| <= EffectiveBatchMax(batchMax))
      && (forall i :: 0 <= i < |requests| ==> |requests[i]| <= EffectiveBatchMax(batchMax))
      && |requests| == |replies| && acked == AcceptedEvents(requests, replies)
      && |batch| <= Capacity(bufferMax)
    }

    constructor (spool: Spool, batchMax: nat, bufferMax: nat)
      requires Shadowed(spool.files)
      ensures this.spool == spool && this.batchMax == batchMax && this.bufferMax == bufferMax
      ensures batch == [] && straggling == [] && requests == [] && replies == [] && pushed == EventsIn(spool.files)
      ensures dropped == evicted == refused == {}
      ensures Conserved()
    {
      this.batch := [];
      this.straggling := [];
      this.spool := spool;
      this.batchMax := batchMax;
      this.bufferMax := bufferMax;
      this.pushed := EventsIn(spool.files);
      this.acked, this.dropped, this.evicted, this.refused := {}, {}, {}, {};
      this.requests, this.replies := [], [];
    }

    /** Buffers an event; a full buffer drops its oldest one. */
    method PushWithCap(item: Event)
      requires Conserved()
      modifies this`batch, this`pushed, this`dropped
      ensures Conserved() && pushed == old(pushed) + {item}
      ensures batch == LastOf(old(batch) + [item], Capacity(bufferMax))
      ensures dropped == old(dropped) + (if |old(batch)| < Capacity(bufferMax) then {} else {old(batch)[0]})
    {
      OneMoreLast(batch, item, Capacity(bufferMax));
      if |batch| >= bufferMax && batch != [] {
        dropped := dropped + {batch[0]};
        assert batch == [batch[0]] + batch[1..];
        EventsOfAppend([batch[0]], batch[1..]);
        batch := batch[1..];
      }
      EventsOfAppend(batch, [item]);
      batch := batch + [item];
      pushed := pushed + {item};
    }

    /** Writes the whole buffer to the spool, chunk by chunk. The buffer is cleared only
        once every chunk is known to be on disk; a spill cut before its `cut`-th chunk
        leaves the others to be written later. One that succeeds with nothing straggling
        puts the buffer at the end of the queue, in order, and one that nothing hinders
        succeeds. */
    method SpillRemaining(io: Io, cut: Option<nat>) returns (end: SpillEnd)
      requires Conserved()
      modifies this`batch, this`evicted, this`straggling, spool`files
      ensures Conserved() && old(evicted) <= evicted
      ensures batch == if end.SpillDone? then [] else old(batch)
      ensures end.SpillDone? && old(straggling) == [] ==> Queued(old(spool.files), old(batch), spool.files, evicted)
      ensures old(batch) == [] ==> end == SpillDone && spool.files == old(spool.files) && evicted == old(evicted)
      ensures cut.None? ==> !end.SpillCut?
      ensures AddsSmallFiles(old(spool.files), spool.files, EffectiveBatchMax(batchMax))
      ensures old(batch) != [] && Unhindered(io, old(straggling), old(spool.files), |old(batch)|) ==>
                end == if cut.None? then SpillDone else SpillCut
    {
      NothingQueued(spool.files, evicted);
      if batch == [] {
        return SpillDone;
      }
      var chunks := Chunks(batch, EffectiveBatchMax(batchMax));
      ChunksCover(batch, EffectiveBatchMax(batchMax));
      ChunksAreFew(batch, EffectiveBatchMax(batchMax));
      var written, ok := SpillChunks(chunks, io, cut, old(straggling) == []);
      if !ok {
        return SpillFailed;
      }
      if cut.Some? {
        ChunksArePushed(chunks, written);
        straggling := straggling + [chunks[written..]];
        return SpillCut;
      }
      assert chunks[..|chunks|] == chunks;
      batch := [];
      return SpillDone;
    }

    /** Writes chunks in order, up to the one before which the spill is cut; `alone` says
        that nothing straggles. */
    method SpillChunks(chunks: seq<seq<Event>>, io: Io, cut: Option<nat>, ghost alone: bool) returns (written: nat, ok: bool)
      requires Conserved() && EventsOf(Concat(chunks)) <= pushed && (alone ==> straggling == [])
      requires forall i :: 0 <= i < |chunks| ==> |chunks[i]| <= EffectiveBatchMax(batchMax)
      modifies this`evicted, this`straggling, spool`files
      ensures Conserved() && old(evicted) <= evicted && written <= |chunks|
      ensures EventsOf(Concat(chunks[..written])) <= evicted + EventsIn(spool.files)
      ensures ok && cut.None? ==> written == |chunks|
      ensures alone && NoFaults(io) && HasRoom(old(spool.files), |chunks|) ==> ok
      ensures AddsSmallFiles(old(spool.files), spool.files, EffectiveBatchMax(batchMax))
      ensures alone ==> straggling == [] && (ok ==> Queued(old(spool.files), Concat(chunks[..written]), spool.files, evicted))
    {
      NothingQueued(spool.files, evicted);
      written := 0;
      while written < |chunks| && cut != Some(written)
        invariant written <= |chunks| && Conserved() && old(evicted) <= evicted
        invariant EventsOf(Concat(chunks[..written])) <= evicted + EventsIn(spool.files)
        invariant alone ==> straggling == [] && Queued(old(spool.files), Concat(chunks[..written]), spool.files, evicted)
        invariant AddsSmallFiles(old(spool.files), spool.files, EffectiveBatchMax(batchMax))
        invariant alone && NoFaults(io) && HasRoom(old(spool.files), |chunks|) ==> HasRoom(spool.files, |chunks| - written)
      {
        ConcatPrefix(chunks, written);
        ok := SpillNext(chunks[written], io.straggles(written), io.faults(written), old(spool.files),
                        Concat(chunks[..written]), alone, |chunks| - written - 1);
        if !ok {
          return;
        }
        written := written + 1;
      }
      ok := true;
    }

    /** One turn of the loop above: what was written before stays written. */
    method SpillNext(chunk: seq<Event>, steps: seq<Straggle>, fault: SpillFault, ghost before: Directory, ghost done: seq<Event>,
                     ghost alone: bool, ghost room: nat)
      returns (ok: bool)
      requires Conserved() && EventsOf(chunk) <= pushed && |chunk| <= EffectiveBatchMax(batchMax)
      requires EventsOf(done) <= evicted + EventsIn(spool.files)
      requires alone ==> straggling == [] && Queued(before, done, spool.files, evicted)
      modifies this`evicted, this`straggling, spool`files
      ensures Conserved() && old(evicted) <= evicted
      ensures EventsOf(done) + (if ok then EventsOf(chunk) else {}) <= evicted + EventsIn(spool.files)
      ensures alone ==> straggling == [] && (ok ==> Queued(before, done + chunk, spool.files, evicted))
      ensures alone && fault.SpillSucceeds? && HasRoom(old(spool.files), room + 1) ==> ok && HasRoom(spool.files, room)
      ensures AddsSmallFiles(old(spool.files), spool.files, EffectiveBatchMax(batchMax))
    {
      Straggles(steps);
      ghost var files, gone := spool.files, evicted;
      ok := SpillChunk(chunk, fault, room);
      if ok && alone {
        QueuedTwice(before, done, files, gone, chunk, spool.files, evicted);
      }
    }

    method SpillChunk(chunk: seq<Event>, fault: SpillFault, ghost room: nat) returns (ok: bool)
      requires Conserved() && EventsOf(chunk) <= pushed && |chunk| <= EffectiveBatchMax(batchMax)
      modifies this`evicted, spool`files
      ensures Conserved()
      ensures old(evicted) <= evicted
      ensures old(evicted + EventsIn(spool.files)) <= evicted + EventsIn(spool.files)
      ensures ok ==> EventsOf(chunk) <= evicted + EventsIn(spool.files)
      ensures ok ==> Queued(old(spool.files), chunk, spool.files, evicted)
      ensures ok <==> fault.SpillSucceeds? && HasRoom(old(spool.files), 1)
      ensures HasRoom(old(spool.files), room + 1) ==> HasRoom(spool.files, room)
      ensures AddsSmallFiles(old(spool.files), spool.files, EffectiveBatchMax(batchMax))
    {
      SpillAddsOneFile(spool.files, chunk, spool.maxFiles, fault, EffectiveBatchMax(batchMax));
      SpillTakesOneNumber(spool.files, chunk, spool.maxFiles, fault, room);
      SpillLosesNothing(spool.files, chunk, spool.maxFiles, fault);
      SpillIsFifo(spool.files, chunk, spool.maxFiles, fault);
      ghost var taken;
      ok, taken := spool.Append(chunk, fault);
      evicted := evicted + EventsOf(taken);
    }

    /** One more chunk of a spill that was cut; a failed write ends it. */
    method StraggleOne(step: Straggle)
      requires Conserved()
      modifies this`evicted, this`straggling, spool`files
      ensures Conserved() && old(evicted) <= evicted
      ensures AddsSmallFiles(old(spool.files), spool.files, EffectiveBatchMax(batchMax))
      ensures old(straggling) == [] ==> straggling == [] && spool.files == old(spool.files) && evicted == old(evicted)
      ensures old(evicted + EventsIn(spool.files)) <= evicted + EventsIn(spool.files)
    {
      if step.which < |straggling| && straggling[step.which] != [] {
        var chunks := straggling[step.which];
        var ok := SpillChunk(chunks[0], step.fault, 0);
        straggling := straggling[step.which := if ok then chunks[1..] else []];
      }
    }

    method Straggles(steps: seq<Straggle>)
      requires Conserved()
      modifies this`evicted, this`straggling, spool`files
      ensures Conserved() && old(evicted) <= evicted
      ensures AddsSmallFiles(old(spool.files), spool.files, EffectiveBatchMax(batchMax))
      ensures old(straggling) == [] ==> straggling == [] && spool.files == old(spool.files) && evicted == old(evicted)
      ensures old(evicted + EventsIn(spool.files)) <= evicted + EventsIn(spool.files)
    {
      for i := 0 to |steps|
        invariant Conserved() && old(evicted) <= evicted
        invariant AddsSmallFiles(old(spool.files), spool.files, EffectiveBatchMax(batchMax))
        invariant old(straggling) == [] ==> straggling == [] && spool.files == old(spool.files) && evicted == old(evicted)
        invariant old(evicted + EventsIn(spool.files)) <= evicted + EventsIn(spool.files)
      {
        StraggleOne(steps[i]);
      }
    }

    /** Spills a buffer that is at least half full; shutdown waits for this spill. */
    method MaybeSpill(io: Io)
      requires Conserved()
      modifies this`batch, this`evicted, this`straggling, spool`files
      ensures Conserved() && old(evicted) <= evicted
      ensures |old(batch)| < bufferMax / 2 ==> batch == old(batch) && spool.files == old(spool.files)
      ensures batch == old(batch) || batch == []
      ensures |old(batch)| >= bufferMax / 2 && Unhindered(io, old(straggling), old(spool.files), |old(batch)|) ==>
                batch == [] && Queued(old(spool.files), old(batch), spool.files, evicted)
    {
      if |batch| < bufferMax / 2 {
        return;
      }
      var _ := SpillRemaining(io, None);
    }

    /** Posts the front of the buffer and, when that is accepted, drops it. */
    method Post(reply: Reply) returns (take: nat)
      requires Conserved() && batch != []
      modifies this`batch, this`acked, this`requests, this`replies
      ensures Conserved() && take == Min(|old(batch)|, EffectiveBatchMax(batchMax))
      ensures requests == old(requests) + [old(batch)[..take]] && replies == old(replies) + [reply]
      ensures reply.Accepted? ==> batch == old(batch)[take..] && acked == old(acked) + EventsOf(old(batch)[..take])
      ensures !reply.Accepted? ==> batch == old(batch) && acked == old(acked)
    {
      take := Min(|batch|, EffectiveBatchMax(batchMax));
      AcceptedGrows(requests, replies, batch[..take], reply);
      requests := requests + [batch[..take]];
      replies := replies + [reply];
      if reply.Accepted? {
        assert batch == batch[..take] + batch[take..];
        EventsOfAppend(batch[..take], batch[take..]);
        acked := acked + EventsOf(batch[..take]);
        batch := batch[take..];
      }
    }

    /** Sends one bounded request; `stop` is the flush's result unless it goes on. A request
        is acknowledged, in full, exactly when its reply is `Accepted`. */
    method SendOne(reply: Reply, io: Io) returns (stop: Option<FlushResult>)
      requires Conserved() && batch != []
      modifies this`batch, this`acked, this`refused, this`evicted, this`straggling, this`requests, this`replies, spool`files
      ensures Conserved() && old(evicted) <= evicted && (stop.None? <==> reply.Accepted?)
      ensures var take := Min(|old(batch)|, EffectiveBatchMax(batchMax));
              && requests == old(requests) + [old(batch)[..take]] && replies == old(replies) + [reply]
              && acked == old(acked) + (if reply.Accepted? then EventsOf(old(batch)[..take]) else {})
              && (reply.Accepted? ==>
                    batch == old(batch)[take..] && refused == old(refused) && spool.files == old(spool.files) &&
                    straggling == old(straggling) && evicted == old(evicted))
      ensures !reply.Accepted? ==>
                StopsAs(io, reply, old(batch), stop.value, batch, Stock(old(spool.files), old(straggling), old(evicted), old(refused)),
                        Stock(spool.files, straggling, evicted, refused))
    {
      var _ := Post(reply);
      match reply {
        case Accepted => return None;
        case Unsupported =>
          refused := refused + EventsOf(batch);
          batch := [];
          return Some(Flushed);
        case Inactive =>
          var end := SpillRemaining(io, io.cut);
          return Some(if end.SpillCut? then Cancelled else NotFlushed);
        case Rejected => return Some(NotFlushed);
        case Hangs => return Some(Cancelled);
      }
    }

    /** Sends the buffer in bounded requests, oldest events first, until it is empty or a
        request is not accepted. What is acknowledged and leaves the buffer is exactly what
        the leading accepted requests hold; the first other reply decides the result. */
    method FlushOnce(io: Io) returns (result: FlushResult, ghost accepted: nat, ghost rest: seq<Event>)
      requires Conserved()
      modifies this`batch, this`acked, this`refused, this`evicted, this`straggling, this`requests, this`replies, spool`files
      ensures Conserved() && old(evicted) <= evicted
      ensures Sends(io.replies, Chunks(old(batch), EffectiveBatchMax(batchMax)), accepted, old(batch), rest,
                    Ledger(old(requests), old(replies), old(acked)), Ledger(requests, replies, acked))
      ensures rest == [] ==>
                && result == Flushed && batch == [] && refused == old(refused)
                && spool.files == old(spool.files) && straggling == old(straggling) && evicted == old(evicted)
      ensures rest != [] ==>
                StopsAs(io, io.replies(accepted), rest, result, batch,
                        Stock(old(spool.files), old(straggling), old(evicted), old(refused)),
                        Stock(spool.files, straggling, evicted, refused))
      ensures Supported(io) ==> refused == old(refused)
    {
      ghost var limit, whole, start := EffectiveBatchMax(batchMax), batch, Ledger(requests, replies, acked);
      ghost var files, cut, gone, no := spool.files, straggling, evicted, refused;
      var i := 0;
      NothingSent(io.replies, whole, limit, start);
      while batch != []
        invariant Conserved()
        invariant SentSoFar(io.replies, whole, limit, i, batch, start, Ledger(requests, replies, acked))
        invariant spool.files == files && straggling == cut && evicted == gone && refused == no
        decreases |batch|
      {
        rest := batch;
        ghost var before := Ledger(requests, replies, acked);
        var stop := SendOne(io.replies(i), io);
        OneMoreSent(io.replies, whole, limit, i, rest, start, before, Ledger(requests, replies, acked));
        if stop.Some? {
          return stop.value, i, rest;
        }
        i := i + 1;
      }
      AllSent(io.replies, whole, limit, i, start, Ledger(requests, replies, acked));
      return Flushed, i, [];
    }

    /** One replay tick: the oldest spooled file is sent, or split if oversized. */
    method ReplayOneBatch(reply: Reply, removed: bool, fault: SplitFault)
      requires Conserved()
      modifies this`acked, this`refused, this`requests, this`replies, spool`files
      ensures Conserved() && old(acked) <= acked
      ensures reply != Unsupported ==> refused == old(refused)
      ensures reply.Accepted? && removed && fault.SplitSucceeds? ==>
                spool.files == Tick(old(spool.files), EffectiveBatchMax(batchMax)) &&
                requests == old(requests) + Sent(old(spool.files), EffectiveBatchMax(batchMax))
      ensures !(reply.Accepted? || reply.Unsupported?) || !removed ==> EventsIn(spool.files) == EventsIn(old(spool.files))
      ensures old(spool.files) != map[] && |OldestEvents(old(spool.files))| <= EffectiveBatchMax(batchMax) ==>
                && requests == old(requests) + [OldestEvents(old(spool.files))] && replies == old(replies) + [reply]
                && (!(reply.Accepted? || reply.Unsupported?) || !removed ==> spool.files == old(spool.files))
                && acked == old(acked) + (if reply.Accepted? then EventsOf(OldestEvents(old(spool.files))) else {})
      ensures old(spool.files) == map[] || |OldestEvents(old(spool.files))| > EffectiveBatchMax(batchMax) ==>
                requests == old(requests) && replies == old(replies) && acked == old(acked)
    {
      var limit := EffectiveBatchMax(batchMax);
      var oldest := spool.OldestBatch();
      if oldest == None {
        EmptyListing(spool.files);
        return;
      }
      var (k, events) := oldest.value;
      if |events| > limit {
        SplitLosesNothing(spool.files, limit, fault);
        var _ := spool.ReplaceWithChunks(k, events, limit, fault);
        return;
      }
      ReplayFile(k, events, reply, removed);
    }

    /** Sends one spooled file; an answer that settles it lets the file go. */
    method ReplayFile(k: Key, events: seq<Event>, reply: Reply, removed: bool)
      requires Conserved() && k in spool.files && spool.files[k] == events && |events| <= EffectiveBatchMax(batchMax)
      modifies this`requests, this`replies, this`acked, this`refused, spool`files
      ensures Conserved() && requests == old(requests) + [events] && replies == old(replies) + [reply]
      ensures acked == if reply.Accepted? then old(acked) + EventsOf(events) else old(acked)
      ensures reply != Unsupported ==> refused == old(refused)
      ensures spool.files == if (reply.Accepted? || reply.Unsupported?) && removed then old(spool.files) - {k}
                             else old(spool.files)
    {
      AcceptedGrows(requests, replies, events, reply);
      requests, replies := requests + [events], replies + [reply];
      RemovalKeepsOthers(spool.files, k);
      match reply {
        case Accepted =>
          acked := acked + EventsOf(events);
          spool.RemoveFile(k, removed);
        case Unsupported =>
          refused := refused + EventsOf(events);
          spool.RemoveFile(k, removed);
        case _ =>
      }
    }

    method RunTicks(ticks: nat)
      requires Conserved()
      modifies this`acked, this`refused, this`requests, this`replies, spool`files
      ensures Conserved() && refused == old(refused)
      ensures spool.files == Ticks(old(spool.files), EffectiveBatchMax(batchMax), ticks)
      ensures requests == old(requests) + Requests(old(spool.files), EffectiveBatchMax(batchMax), ticks)
    {
      ghost var limit := EffectiveBatchMax(batchMax);
      ghost var files := spool.files;
      for i := 0 to ticks
        invariant Conserved() && refused == old(refused)
        invariant Ticks(spool.files, limit, ticks - i) == Ticks(files, limit, ticks)
        invariant requests + Requests(spool.files, limit, ticks - i) == old(requests) + Requests(files, limit, ticks)
      {
        ghost var dir, before, left := spool.files, requests, ticks - i;
        TickUnfolds(dir, limit, left);
        ReplayOneBatch(Accepted, true, SplitSucceeds);
        Reassociate(before, Sent(dir, limit), Requests(spool.files, limit, left - 1));
      }
    }

    /** With an acknowledging operator, as many ticks as the spool costs empty it and send
        its queue in order. */
    method Drain(ticks: nat)
      requires Conserved() && PrefixFree(spool.files.Keys)
      requires ticks == Cost(spool.files, EffectiveBatchMax(batchMax))
      modifies this`acked, this`refused, this`requests, this`replies, spool`files
      ensures Conserved() && refused == old(refused)
      ensures spool.files == map[]
      ensures old(requests) <= requests && Concat(requests[|old(requests)|..]) == Queue(old(spool.files))
    {
      RunTicks(ticks);
      DrainIsExact(old(spool.files), EffectiveBatchMax(batchMax));
    }

    /** Flushes and, when that fails, spills a buffer that is at least half full. */
    method FlushAndRecover(io: Io) returns (stopped: bool, ghost accepted: nat, ghost rest: seq<Event>)
      requires Conserved()
      modifies this`batch, this`acked, this`refused, this`evicted, this`straggling, this`requests, this`replies, spool`files
      ensures Conserved() && old(evicted) <= evicted
      ensures Supported(io) ==> refused == old(refused)
      ensures Sends(io.replies, Chunks(old(batch), EffectiveBatchMax(batchMax)), accepted, old(batch), rest,
                    Ledger(old(requests), old(replies), old(acked)), Ledger(requests, replies, acked))
      ensures rest == [] ==> !stopped && batch == [] && spool.files == old(spool.files)
      ensures rest != [] && io.replies(accepted).Hangs? ==> stopped && batch == rest && spool.files == old(spool.files)
      ensures rest != [] && io.replies(accepted).Rejected? ==> !stopped
      ensures rest != [] && io.replies(accepted).Rejected? && |rest| < bufferMax / 2 ==>
                batch == rest && spool.files == old(spool.files)
      ensures rest != [] && io.replies(accepted).Rejected? && |rest| >= bufferMax / 2 &&
              Unhindered(Later(io), old(straggling), old(spool.files), |rest|) ==>
                batch == [] && Queued(old(spool.files), rest, spool.files, evicted)
    {
      var result;
      result, accepted, rest := FlushOnce(io);
      if result.NotFlushed? {
        MaybeSpill(Later(io));
      }
      stopped := result.Cancelled?;
    }

    method FlushInTurn(io: Io) returns (stopped: bool)
      requires Conserved()
      modifies this`batch, this`acked, this`refused, this`evicted, this`straggling, this`requests, this`replies, spool`files
      ensures Conserved() && (Supported(io) ==> refused == old(refused))
      ensures AllAccepted(io, old(batch), EffectiveBatchMax(batchMax)) ==>
                && !stopped && batch == [] && spool.files == old(spool.files)
                && requests == old(requests) + Chunks(old(batch), EffectiveBatchMax(batchMax))
    {
      ghost var accepted, rest;
      ghost var whole, before := batch, Ledger(requests, replies, acked);
      stopped, accepted, rest := FlushAndRecover(io);
      AcceptedInFull(io, whole, EffectiveBatchMax(batchMax), accepted, rest, before, Ledger(requests, replies, acked));
    }

    /** One turn of the forwarder's loop. */
    method TakeTurn(turn: Turn) returns (stopped: bool)
      requires Conserved()
      modifies this, spool`files
      ensures Conserved() && pushed == old(pushed) + ItemsOf(turn)
      ensures SupportedTurn(turn) ==> refused == old(refused)
      ensures turn.FlushTick? && turn.replay.Hangs? ==> stopped && batch == old(batch)
      ensures turn.FlushTick? && !turn.replay.Hangs? && AllAccepted(turn.io, old(batch), EffectiveBatchMax(batchMax)) ==>
                !stopped && batch == []
      ensures turn.Received? ==>
                var full := LastOf(old(batch) + turn.items, Capacity(bufferMax));
                && (|full| < EffectiveBatchMax(batchMax) ==>
                      !stopped && batch == full && requests == old(requests) && spool.files == old(spool.files))
                && (|full| >= EffectiveBatchMax(batchMax) && AllAccepted(turn.io, full, EffectiveBatchMax(batchMax)) ==>
                      !stopped && batch == [] && requests == old(requests) + Chunks(full, EffectiveBatchMax(batchMax)))
    {
      stopped := false;
      match turn {
        case FlushTick(replay, removed, fault, io) =>
          ReplayOneBatch(replay, removed, fault);
          if replay.Hangs? {
            return true;
          }
          if batch != [] {
            stopped := FlushInTurn(io);
          }
        case Received(items, io) =>
          PushAll(items);
          if |batch| >= EffectiveBatchMax(batchMax) {
            stopped := FlushInTurn(io);
          }
      }
    }

    /** Buffers the events of one received record, its own and those derived from it; what
        the cap cannot hold is the front. */
    method PushAll(items: seq<Event>)
      requires Conserved()
      modifies this`batch, this`pushed, this`dropped
      ensures Conserved() && pushed == old(pushed) + EventsOf(items)
      ensures batch == LastOf(old(batch) + items, Capacity(bufferMax))
    {
      assert old(batch) + items[..0] == old(batch);
      for i := 0 to |items|
        invariant Conserved() && pushed == old(pushed) + EventsOf(items[..i])
        invariant batch == LastOf(old(batch) + items[..i], Capacity(bufferMax))
      {
        LastOfGrows(old(batch), items, i, Capacity(bufferMax));
        PushWithCap(items[i]);
      }
      assert items[..|items|] == items;
    }

    /** The final flush and spill, with the writes of cut spills still going on;
        `persisted` says that nothing is left that only
        this process remembers. */
    method Shutdown(queued: seq<Event>, io: Io) returns (persisted: bool)
      requires Conserved()
      modifies this, spool`files
      ensures Conserved() && pushed == old(pushed) + EventsOf(queued)
      ensures persisted ==> batch == []
      ensures Calm(io, old(straggling), old(spool.files), Capacity(bufferMax)) ==> persisted
      ensures persisted && Supported(io) ==>
                pushed == acked + EventsIn(spool.files) + dropped + evicted + old(refused)
    {
      PushAll(queued);
      Straggles(io.before);
      if batch == [] {
        return true;
      }
      persisted := FlushOrSpill(io);
    }

    method FlushOrSpill(io: Io) returns (persisted: bool)
      requires Conserved()
      modifies this`batch, this`acked, this`refused, this`evicted, this`straggling, this`requests, this`replies, spool`files
      ensures Conserved() && (persisted ==> batch == [])
      ensures Calm(io, old(straggling), old(spool.files), Capacity(bufferMax)) ==> persisted
      ensures Supported(io) ==> refused == old(refused)
    {
      ghost var cut, files, most := straggling, spool.files, |batch|;
      var result, _, rest := FlushOnce(io);
      if result.Flushed? {
        return true;
      }
      assert |rest| <= most;
      var end := SpillRemaining(Later(io), None);
      persisted := end.SpillDone?;
    }

    /** The forwarder's life: turns until shutdown, then the final drain. */
    method Run(turns: seq<Turn>, queued: seq<Event>, last: Io) returns (persisted: bool)
      requires Conserved()
      modifies this, spool`files
      ensures Conserved()
      ensures forall e :: e in acked <==> exists i :: 0 <= i < |requests| && replies[i].Accepted? && e in requests[i]
      ensures persisted ==> batch == []
      ensures old(pushed) + EventsOf(queued) <= pushed <= old(pushed) + Arrivals(turns) + EventsOf(queued)
      ensures (forall t :: t in turns ==> SupportedTurn(t)) && Supported(last) && persisted ==>
                pushed == acked + EventsIn(spool.files) + dropped + evicted + old(refused)
    {
      ghost var supported := forall t :: t in turns ==> SupportedTurn(t);
      var i := 0;
      var stopped := false;
      while i < |turns| && !stopped
        invariant 0 <= i <= |turns| && Conserved()
        invariant old(pushed) <= pushed <= old(pushed) + Arrivals(turns[..i])
        invariant supported ==> refused == old(refused)
      {
        assert turns[i] in turns;
        stopped := TakeTurn(turns[i]);
        ArrivalsGrow(turns, i);
        i := i + 1;
      }
      ArrivalsBound(turns, i);
      persisted := Shutdown(queued, last);
      AcknowledgedWereAccepted(requests, replies);
    }
  }

  /** A forwarder started on a directory without interrupted splits replays all of it:
      every event is acknowledged, in the order of the queue and in bounded requests. */
  method ReplayAll(files: Directory, maxFiles: nat, batchMax: nat, bufferMax: nat, ticks: nat) returns (f: Forwarder)
    requires PrefixFree(files.Keys) && ticks == Cost(files, EffectiveBatchMax(batchMax))
    ensures fresh(f) && f.spool.files == map[] && f.acked == EventsIn(files)
    ensures Concat(f.requests) == Queue(files)
    ensures forall r :: r in f.requests ==> |r| <= EffectiveBatchMax(batchMax)
  {
    var spool := new Spool(files, maxFiles);
    PrefixFreeIsShadowed(files);
    f := new Forwarder(spool, batchMax, bufferMax);
    f.Drain(ticks);
    assert f.requests[0..] == f.requests;
  }

  lemma Reassociate(a: seq<seq<Event>>, b: seq<seq<Event>>, c: seq<seq<Event>>)
    ensures a + (b + c) == (a + b) + c
  {
  }

  lemma TickUnfolds(dir: Directory, limit: nat, n: nat)
    requires limit > 0 && n > 0
    ensures Ticks(dir, limit, n) == Ticks(Tick(dir, limit), limit, n - 1)
    ensures Requests(dir, limit, n) == Sent(dir, limit) + Requests(Tick(dir, limit), limit, n - 1)
  {
  }

  ghost function OldestEvents(dir: Directory): seq<Event>
    requires dir != map[]
  {
    EmptyListing(dir);
    dir[Listing(dir.Keys)[0]]
  }

  /** `added` has joined the end of the queue, and only evicted events have left it,
      from the front. */
  ghost predicate Queued(before: Directory, added: seq<Event>, after: Directory, evicted: set<Event>) {
    exists out :: Queue(before) + added == out + Queue(after) && EventsOf(out) <= evicted
  }

  lemma NothingQueued(dir: Directory, evicted: set<Event>)
    ensures Queued(dir, [], dir, evicted)
  {
    assert Queue(dir) + [] == [] + Queue(dir);
  }

  lemma QueuedTwice(a: Directory, first: seq<Event>, b: Directory, gone: set<Event>, second: seq<Event>, c: Directory,
                    evicted: set<Event>)
    requires Queued(a, first, b, gone) && Queued(b, second, c, evicted) && gone <= evicted
    ensures Queued(a, first + second, c, evicted)
  {
    var out1 :| Queue(a) + first == out1 + Queue(b) && EventsOf(out1) <= gone;
    var out2 :| Queue(b) + second == out2 + Queue(c) && EventsOf(out2) <= evicted;
    MovesCompose(Queue(a), first, out1, Queue(b), second, out2, Queue(c));
    EventsOfAppend(out1, out2);
  }

  /** What a flush and the spill after it meet: replies, the faults of its own spill and
      the chunk before which that is cut, the faults of the later spill, and the straggling
      writes that get in before the flush and between the chunks of either spill. */
  datatype Io = Io(replies: nat -> Reply, faults: nat -> SpillFault, cut: Option<nat>, laterFaults: nat -> SpillFault,
                   before: seq<Straggle>, straggles: nat -> seq<Straggle>, laterStraggles: nat -> seq<Straggle>)

  /** What the spill after the flush meets. */
  function Later(io: Io): Io {
    io.(faults := io.laterFaults, straggles := io.laterStraggles)
  }

  /** How many events the buffer holds at most. */
  function Capacity(bufferMax: nat): nat {
    if bufferMax == 0 then 1 else bufferMax
  }

  function LastOf(s: seq<Event>, n: nat): seq<Event> {
    if |s| <= n then s else s[|s| - n..]
  }

  lemma OneMoreLast(s: seq<Event>, item: Event, n: nat)
    requires 0 < n && |s| <= n
    ensures LastOf(s + [item], n) == (if |s| < n then s else s[1..]) + [item]
  {
  }

  lemma LastOfGrows(s: seq<Event>, items: seq<Event>, i: nat, n: nat)
    requires i < |items| && n > 0
    ensures LastOf(s + items[..i + 1], n) == LastOf(LastOf(s + items[..i], n) + [items[i]], n)
    ensures EventsOf(items[..i + 1]) == EventsOf(items[..i]) + {items[i]}
  {
    assert items[..i + 1] == items[..i] + [items[i]];
    assert s + items[..i + 1] == (s + items[..i]) + [items[i]];
    LastOfLast(s + items[..i], items[i], n);
    EventsOfAppend(items[..i], [items[i]]);
  }

  lemma LastOfLast(s: seq<Event>, item: Event, n: nat)
    requires n > 0
    ensures LastOf(s + [item], n) == LastOf(LastOf(s, n) + [item], n)
  {
    if |s| > n {
      OneMoreLast(LastOf(s, n), item, n);
      assert (s + [item])[|s| + 1 - n..] == s[|s| - n..][1..] + [item];
    }
  }

  /** The events of the requests that were accepted. */
  ghost function AcceptedEvents(requests: seq<seq<Event>>, replies: seq<Reply>): set<Event> {
    if requests == [] || |requests| != |replies| then {}
    else
      var last := |requests| - 1;
      AcceptedEvents(requests[..last], replies[..last]) + (if replies[last].Accepted? then EventsOf(requests[last]) else {})
  }

  lemma AcceptedGrows(requests: seq<seq<Event>>, replies: seq<Reply>, request: seq<Event>, reply: Reply)
    requires |requests| == |replies|
    ensures AcceptedEvents(requests + [request], replies + [reply]) ==
            AcceptedEvents(requests, replies) + (if reply.Accepted? then EventsOf(request) else {})
  {
    assert (requests + [request])[..|requests|] == requests;
    assert (replies + [reply])[..|replies|] == replies;
  }

  /** An event counts as acknowledged exactly when a request that holds it was accepted. */
  lemma {:induction false} AcceptedEventsAre(requests: seq<seq<Event>>, replies: seq<Reply>, e: Event)
    requires |requests| == |replies|
    ensures e in AcceptedEvents(requests, replies) <==>
            exists i :: 0 <= i < |requests| && replies[i].Accepted? && e in requests[i]
  {
    if requests != [] {
      var last := |requests| - 1;
      AcceptedEventsAre(requests[..last], replies[..last], e);
      forall i | 0 <= i < last ensures requests[..last][i] == requests[i] && replies[..last][i] == replies[i] {
      }
    }
  }

  lemma AcknowledgedWereAccepted(requests: seq<seq<Event>>, replies: seq<Reply>)
    requires |requests| == |replies|
    ensures forall e :: e in AcceptedEvents(requests, replies) <==>
              exists i :: 0 <= i < |requests| && replies[i].Accepted? && e in requests[i]
  {
    forall e {
      AcceptedEventsAre(requests, replies, e);
    }
  }

  /** How many of the first `n` requests are accepted before one is not. */
  function Leading(replies: nat -> Reply, n: nat): (k: nat)
    ensures k <= n && (forall i :: 0 <= i < k ==> replies(i).Accepted?) && (k < n ==> !replies(k).Accepted?)
  {
    if n == 0 then 0
    else
      var k := Leading(replies, n - 1);
      if k == n - 1 && replies(k).Accepted? then n else k
  }

  function Answers(replies: nat -> Reply, n: nat): (r: seq<Reply>)
    ensures |r| == n && forall i :: 0 <= i < n ==> r[i] == replies(i)
  {
    if n == 0 then [] else Answers(replies, n - 1) + [replies(n - 1)]
  }

  /** Every request that the buffer is cut into is accepted. */
  ghost predicate AllAccepted(io: Io, whole: seq<Event>, limit: nat)
    requires limit > 0
  {
    forall i :: 0 <= i < |Chunks(whole, limit)| ==> io.replies(i).Accepted?
  }

  /** What has been sent, how it was answered, and what counts as acknowledged. */
  datatype Ledger = Ledger(requests: seq<seq<Event>>, replies: seq<Reply>, acked: set<Event>)

  /** A flush sends the leading requests that are accepted and the first one that is not;
      exactly the events of the former are acknowledged, and `rest` is what is left. */
  ghost predicate Sends(replies: nat -> Reply, chunks: seq<seq<Event>>, accepted: nat, whole: seq<Event>, rest: seq<Event>,
                        before: Ledger, after: Ledger)
  {
    && accepted == Leading(replies, |chunks|) && (rest == [] <==> accepted == |chunks|)
    && whole == Concat(chunks[..accepted]) + rest
    && after.acked == before.acked + EventsOf(Concat(chunks[..accepted]))
    && after.requests == before.requests + chunks[..Min(accepted + 1, |chunks|)]
    && after.replies == before.replies + Answers(replies, Min(accepted + 1, |chunks|))
  }

  /** The first `i` requests of a flush were accepted, and `batch` is what they left. */
  ghost predicate SentSoFar(replies: nat -> Reply, whole: seq<Event>, limit: nat, i: nat, batch: seq<Event>,
                            before: Ledger, after: Ledger)
    requires limit > 0
  {
    var chunks := Chunks(whole, limit);
    && i <= |chunks| && Chunks(batch, limit) == chunks[i..] && whole == Concat(chunks[..i]) + batch
    && (forall j :: 0 <= j < i ==> replies(j).Accepted?)
    && after.acked == before.acked + EventsOf(Concat(chunks[..i]))
    && after.requests == before.requests + chunks[..i]
    && after.replies == before.replies + Answers(replies, i)
  }

  lemma NothingSent(replies: nat -> Reply, whole: seq<Event>, limit: nat, start: Ledger)
    requires limit > 0
    ensures SentSoFar(replies, whole, limit, 0, whole, start, start)
  {
  }

  lemma AllSent(replies: nat -> Reply, whole: seq<Event>, limit: nat, i: nat, before: Ledger, after: Ledger)
    requires limit > 0 && SentSoFar(replies, whole, limit, i, [], before, after)
    ensures Sends(replies, Chunks(whole, limit), i, whole, [], before, after)
  {
  }

  /** A flush goes through when every request is accepted. */
  lemma AcceptedInFull(io: Io, whole: seq<Event>, limit: nat, accepted: nat, rest: seq<Event>, before: Ledger, after: Ledger)
    requires limit > 0 && Sends(io.replies, Chunks(whole, limit), accepted, whole, rest, before, after)
    ensures AllAccepted(io, whole, limit) ==>
              && rest == [] && after.requests == before.requests + Chunks(whole, limit)
              && after.acked == before.acked + EventsOf(whole)
  {
    var chunks := Chunks(whole, limit);
    ChunksCover(whole, limit);
    assert chunks[..|chunks|] == chunks;
  }

  lemma OneMoreSent(replies: nat -> Reply, whole: seq<Event>, limit: nat, i: nat, batch: seq<Event>,
                    start: Ledger, before: Ledger, after: Ledger)
    requires limit > 0 && batch != [] && SentSoFar(replies, whole, limit, i, batch, start, before)
    requires var take := Min(|batch|, limit);
             && after.requests == before.requests + [batch[..take]] && after.replies == before.replies + [replies(i)]
             && after.acked == before.acked + (if replies(i).Accepted? then EventsOf(batch[..take]) else {})
    ensures replies(i).Accepted? ==> SentSoFar(replies, whole, limit, i + 1, batch[Min(|batch|, limit)..], start, after)
    ensures !replies(i).Accepted? ==> Sends(replies, Chunks(whole, limit), i, whole, batch, start, after)
  {
    var chunks := Chunks(whole, limit);
    OneMoreChunk(chunks, i, whole, batch, limit);
    assert before.requests + [chunks[i]] == start.requests + chunks[..i + 1];
    assert Answers(replies, i + 1) == Answers(replies, i) + [replies(i)];
  }

  /** A buffer that is not empty is cut at its first request. */
  lemma OneMoreChunk(chunks: seq<seq<Event>>, i: nat, whole: seq<Event>, batch: seq<Event>, limit: nat)
    requires limit > 0 && i <= |chunks| && Chunks(batch, limit) == chunks[i..] && batch != []
    requires whole == Concat(chunks[..i]) + batch
    ensures i < |chunks|
    ensures var take := Min(|batch|, limit);
            && chunks[i] == batch[..take] && Chunks(batch[take..], limit) == chunks[i + 1..]
            && whole == Concat(chunks[..i + 1]) + batch[take..]
            && chunks[..i] + [chunks[i]] == chunks[..i + 1]
            && EventsOf(Concat(chunks[..i + 1])) == EventsOf(Concat(chunks[..i])) + EventsOf(chunks[i])
  {
    var take := Min(|batch|, limit);
    if |batch| <= limit {
      assert batch[..take] == batch && batch[take..] == [];
    }
    assert Chunks(batch, limit) == [batch[..take]] + Chunks(batch[take..], limit);
    assert chunks[i] == chunks[i..][0] && chunks[i + 1..] == chunks[i..][1..];
    ConcatPrefix(chunks, i);
    assert batch == batch[..take] + batch[take..];
  }

  lemma ChunksAreFew(whole: seq<Event>, limit: nat)
    requires limit > 0
    ensures |Chunks(whole, limit)| <= |whole|
    decreases |whole|
  {
    if |whole| > limit {
      ChunksAreFew(whole[limit..], limit);
    }
  }

  /** The directory can number `n` more batches. */
  ghost predicate HasRoom(dir: Directory, n: nat) {
    LastSequence(dir.Keys) + n <= U64_MAX
  }

  /** However it ends, a spill uses up one number at most. */
  lemma SpillTakesOneNumber(dir: Directory, chunk: seq<Event>, maxFiles: nat, fault: SpillFault, room: nat)
    ensures var r := SpillResult(dir, chunk, maxFiles, fault);
            && (r.ok <==> fault.SpillSucceeds? && HasRoom(dir, 1))
            && (HasRoom(dir, room + 1) ==> HasRoom(r.files, room))
  {
    var r := SpillResult(dir, chunk, maxFiles, fault);
    var ks := Listing(r.files.Keys);
    if ks != [] {
      var k := ks[|ks| - 1];
      assert k in ks && k in r.files.Keys;
      if k in dir.Keys {
        LastSequenceIsMax(dir.Keys, k);
      }
    }
  }

  /** Every file that is new holds `limit` events at most: it takes one request. */
  ghost predicate AddsSmallFiles(before: Directory, after: Directory, limit: nat) {
    forall k :: k in after ==> (k in before && after[k] == before[k]) || |after[k]| <= limit
  }

  lemma SpillAddsOneFile(dir: Directory, chunk: seq<Event>, maxFiles: nat, fault: SpillFault, limit: nat)
    requires |chunk| <= limit
    ensures AddsSmallFiles(dir, SpillResult(dir, chunk, maxFiles, fault).files, limit)
  {
  }

  /** Nothing gets in the way of writing `n` batches: no call fails, nothing straggles. */
  ghost predicate Unhindered(io: Io, straggling: seq<seq<seq<Event>>>, dir: Directory, n: nat) {
    straggling == [] && NoFaults(io) && HasRoom(dir, n)
  }

  ghost predicate NoFaults(io: Io) {
    forall i :: io.faults(i).SpillSucceeds?
  }

  /** Nothing gets in the way of either spill. */
  ghost predicate Calm(io: Io, straggling: seq<seq<seq<Event>>>, dir: Directory, n: nat) {
    io.cut.None? && Unhindered(io, straggling, dir, n) && Unhindered(Later(io), straggling, dir, n)
  }

  /** What a flush leaves alone unless a request is refused. */
  datatype Stock = Stock(files: Directory, straggling: seq<seq<seq<Event>>>, evicted: set<Event>, refused: set<Event>)

  /** What a reply other than `Accepted` does to the unsent `rest`, and the result it gives. */
  ghost predicate StopsAs(io: Io, reply: Reply, rest: seq<Event>, result: FlushResult, batch: seq<Event>, before: Stock, after: Stock) {
    match reply
    case Accepted => false
    case Unsupported => result == Flushed && batch == [] && after == before.(refused := before.refused + EventsOf(rest))
    case Rejected => result == NotFlushed && batch == rest && after == before
    case Hangs => result == Cancelled && batch == rest && after == before
    case Inactive => after.refused == before.refused && SpilledAs(io, rest, result, batch, before, after)
  }

  /** What the spill that an inactive installation asks for leaves. */
  ghost predicate SpilledAs(io: Io, rest: seq<Event>, result: FlushResult, batch: seq<Event>, before: Stock, after: Stock) {
    && ((result == NotFlushed && (batch == [] || batch == rest)) || (result == Cancelled && io.cut.Some? && batch == rest))
    && (batch == [] && before.straggling == [] ==> Queued(before.files, rest, after.files, after.evicted))
    && (Unhindered(io, before.straggling, before.files, |rest|) ==>
          if io.cut.None? then result == NotFlushed && batch == [] else result == Cancelled)
  }

  /** The operator never answers that it does not support events. */
  ghost predicate Supported(io: Io) {
    forall i :: io.replies(i) != Unsupported
  }

  ghost predicate SupportedTurn(turn: Turn) {
    Supported(turn.io) && (turn.FlushTick? ==> turn.replay != Unsupported)
  }

  datatype Turn =
    | FlushTick(replay: Reply, removed: bool, fault: SplitFault, io: Io)
    | Received(items: seq<Event>, io: Io)

  function ItemsOf(turn: Turn): set<Event> {
    if turn.Received? then EventsOf(turn.items) else {}
  }

  function Arrivals(turns: seq<Turn>): set<Event> {
    set i, e | 0 <= i < |turns| && e in ItemsOf(turns[i]) :: e
  }

  lemma ArrivalsGrow(turns: seq<Turn>, i: nat)
    requires i < |turns|
    ensures Arrivals(turns[..i + 1]) == Arrivals(turns[..i]) + ItemsOf(turns[i])
  {
    var more := turns[..i + 1];
    assert more[..i] == turns[..i] && more[i] == turns[i];
    forall e ensures e in Arrivals(more) <==> e in Arrivals(turns[..i]) + ItemsOf(turns[i]) {
      if e in Arrivals(turns[..i]) {
        var j :| 0 <= j < i && e in ItemsOf(turns[..i][j]);
        assert e in ItemsOf(more[j]);
      }
      if e in Arrivals(more) && e !in ItemsOf(turns[i]) {
        var j :| 0 <= j <= i && e in ItemsOf(more[j]);
        assert e in ItemsOf(turns[..i][j]);
      }
    }
  }

  lemma ArrivalsBound(turns: seq<Turn>, i: nat)
    requires i <= |turns|
    ensures Arrivals(turns[..i]) <= Arrivals(turns)
  {
    forall e | e in Arrivals(turns[..i]) ensures e in Arrivals(turns) {
      var j :| 0 <= j < i && e in ItemsOf(turns[..i][j]);
      assert e in ItemsOf(turns[j]);
    }
  }

  lemma ChunksArePushed(chunks: seq<seq<Event>>, i: nat)
    requires i <= |chunks|
    ensures forall j :: 0 <= j < |chunks[i..]| ==> EventsOf(chunks[i..][j]) <= EventsOf(Concat(chunks))
  {
    forall j | 0 <= j < |chunks[i..]| ensures EventsOf(chunks[i..][j]) <= EventsOf(Concat(chunks)) {
      forall e | e in chunks[i..][j] ensures e in Concat(chunks) {
        ConcatHolds(chunks, i + j, e);
      }
    }
  }

  lemma {:induction false} ConcatPrefix(chunks: seq<seq<Event>>, i: nat)
    requires i < |chunks|
    ensures Concat(chunks[..i + 1]) == Concat(chunks[..i]) + chunks[i]
    ensures EventsOf(Concat(chunks[..i + 1])) == EventsOf(Concat(chunks[..i])) + EventsOf(chunks[i])
    ensures EventsOf(chunks[i]) <= EventsOf(Concat(chunks))
  {
    assert chunks[..i + 1] == chunks[..i] + [chunks[i]];
    ConcatAppend(chunks[..i], [chunks[i]]);
    assert Concat([chunks[i]]) == chunks[i] + Concat([]);
    EventsOfAppend(Concat(chunks[..i]), chunks[i]);
    forall e | e in chunks[i] ensures e in Concat(chunks) {
      ConcatHolds(chunks, i, e);
    }
  }
}
