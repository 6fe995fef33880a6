/** The pending-upload spool: durable entries by recording id, and in-memory claims. */
module PendingUploads {
  import opened Wrappers

  type Id = string

  datatype SpoolEntry = SpoolEntry(recordingId: Id, questionId: Option<string>, path: string,
                                   sizeBytes: Option<nat>, durationMs: Option<nat>)

  type Directory = map<Id, SpoolEntry>

  /** Where writing an entry stops. Before the rename nothing is stored; after it the
      entry is stored although the call fails. */
  datatype EnqueueFault = EnqueueSucceeds | FailsBeforeRename | FailsAfterRename

  function Enqueued(dir: Directory, e: SpoolEntry, fault: EnqueueFault): Directory {
    if fault.FailsBeforeRename? then dir else dir[e.recordingId := e]
  }

  function Dequeued(dir: Directory, id: Id, removable: bool): Directory {
    if removable then dir - {id} else dir
  }

  class PendingUploadSpool {
    var dir: Directory
    var inFlight: set<Id>

    constructor (dir: Directory)
      ensures this.dir == dir && inFlight == {}
    {
      this.dir := dir;
      inFlight := {};
    }

    method Claim(id: Id) returns (claimed: bool)
      modifies this`inFlight
      ensures claimed <==> id !in old(inFlight)
      ensures inFlight == old(inFlight) + {id}
    {
      claimed := id !in inFlight;
      inFlight := inFlight + {id};
    }

    /** Dropping a claim. */
    method Release(id: Id)
      modifies this`inFlight
      ensures inFlight == old(inFlight) - {id}
    {
      inFlight := inFlight - {id};
    }

    method Contains(id: Id) returns (found: bool)
      ensures found <==> id in dir
    {
      found := id in dir;
    }

    method Enqueue(e: SpoolEntry, fault: EnqueueFault) returns (ok: bool)
      modifies this`dir
      ensures ok <==> fault.EnqueueSucceeds?
      ensures dir == Enqueued(old(dir), e, fault)
      ensures ok ==> e.recordingId in dir && dir[e.recordingId] == e
    {
      if fault.FailsBeforeRename? {
        return false;
      }
      dir := dir[e.recordingId := e];
      return fault.EnqueueSucceeds?;
    }

    /** Removing an entry; one that is not there counts as removed. */
    method Dequeue(id: Id, removable: bool) returns (ok: bool)
      modifies this`dir
      ensures dir == Dequeued(old(dir), id, removable)
      ensures ok <==> id !in dir
    {
      if id !in dir {
        assert dir - {id} == dir;
        return true;
      }
      if removable {
        dir := dir - {id};
      }
      return removable;
    }

    /** Every stored entry once, in whatever order the directory yields them. */
    method Scan() returns (entries: seq<SpoolEntry>)
      ensures exists ids :: ListsOnce(ids, entries, dir)
    {
      entries := [];
      ghost var ids: seq<Id> := [];
      var remaining := dir.Keys;
      while remaining != {}
        invariant remaining <= dir.Keys
        invariant |ids| == |entries|
        invariant forall id :: id in ids <==> id in dir && id !in remaining
        invariant forall i :: 0 <= i < |ids| ==> ids[i] in dir && dir[ids[i]] == entries[i]
        invariant forall i, j :: 0 <= i < j < |ids| ==> ids[i] != ids[j]
        decreases remaining
      {
        var id :| id in remaining;
        entries := entries + [dir[id]];
        ids := ids + [id];
        remaining := remaining - {id};
      }
      assert ListsOnce(ids, entries, dir);
    }
  }

  /** `ids` names every stored id once, and `entries` what is stored under each. */
  ghost predicate ListsOnce(ids: seq<Id>, entries: seq<SpoolEntry>, dir: Directory) {
    && |ids| == |entries|
    && (forall id :: id in dir <==> id in ids)
    && (forall i :: 0 <= i < |ids| ==> dir[ids[i]] == entries[i])
    && (forall i, j :: 0 <= i < j < |ids| ==> ids[i] != ids[j])
  }
}
