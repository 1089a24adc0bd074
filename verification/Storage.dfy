// The storage contract for staged task inputs: three directories, one metadata file per
// input, and the multi-step moves between them. Every durable write may be the last one.
module StorageService {
  import opened Prelude
  import opened SchedulerState
  import opened Machines

  datatype Status = InputAccepted | InputProcessing | InputProcessed | InputRejected
  datatype Outcome = NoOutcome | OutcomeSucceeded | OutcomeFailed | OutcomeAwaitingReview | OutcomeRetryWait
  datatype Meta = Meta(status: Status, outcome: Outcome, result: Option<string>, pending: bool)
  datatype Dir = Incoming | Processing | Processed
  datatype Image = Image(dir: Dir, meta: Meta)

  const FRESH := Image(Incoming, Meta(InputAccepted, NoOutcome, None, false))

  datatype ClaimReply = InputClaimed | NotAvailable | ClaimRaised

  // ---------- The durable states each operation passes through ----------

  function ClaimStages(img: Image): seq<Image> {
    [img, img.(dir := Processing), Image(Processing, img.meta.(status := InputProcessing))]
  }

  /** complete_task: record the outcome, move, mark processed; or finish a move already made. */
  function CompletionStages(img: Image, result: Option<string>, outcome: Outcome): seq<Image> {
    match img.dir
    case Incoming => [img]
    case Processing =>
      var m := img.meta.(outcome := if outcome == NoOutcome then img.meta.outcome else outcome,
                         result := if result.None? then img.meta.result else result,
                         pending := true);
      [img, Image(Processing, m), Image(Processed, m), Image(Processed, m.(status := InputProcessed, pending := false))]
    case Processed => [img, Image(Processed, img.meta.(status := InputProcessed))]
  }

  /** requeue_for_retry: record the outcome, move back, accept again; or finish that move. */
  function RequeueStages(img: Image): seq<Image> {
    var m := img.meta.(outcome := OutcomeRetryWait);
    match img.dir
    case Incoming => [img, Image(Incoming, m.(status := InputAccepted))]
    case Processing => [img, Image(Processing, m), Image(Incoming, m), Image(Incoming, m.(status := InputAccepted))]
    case Processed => [img]
  }

  function Last(stages: seq<Image>): Image
    requires stages != []
  {
    stages[|stages| - 1]
  }

  class StorageContract {
    const machine: Machine
    var incoming: map<Id, Meta>
    var processing: map<Id, Meta>
    var processed: map<Id, Meta>
    var tmp: set<Id>

    /** get_task: the first directory that has the input. */
    function Find(id: Id): Option<Image>
      reads this
    {
      if id in incoming then Some(Image(Incoming, incoming[id]))
      else if id in processing then Some(Image(Processing, processing[id]))
      else if id in processed then Some(Image(Processed, processed[id]))
      else None
    }

    /** Every input is in one directory only. */
    ghost predicate Exclusive()
      reads this
    {
      incoming.Keys !! processing.Keys !! processed.Keys
    }

    twostate predicate OthersKept(id: Id)
      reads this
    {
      forall other :: other != id ==> Find(other) == old(Find(other))
    }

    constructor (machine: Machine)
      ensures Exclusive() && this.machine == machine
      ensures forall id :: Find(id) == None
    {
      this.machine := machine;
      incoming, processing, processed, tmp := map[], map[], map[], {};
    }

    method WriteMeta(id: Id, dir: Dir, meta: Meta)
      requires Exclusive()
      requires machine.on ==> Find(id).Some? && Find(id).value.dir == dir
      modifies this, machine
      ensures Exclusive() && OthersKept(id)
      ensures machine.Runs()
      ensures Find(id) == if machine.on then Some(Image(dir, meta)) else old(Find(id))
      ensures machine.faults == old(machine.faults)
    {
      machine.Spend();
      if machine.on {
        match dir {
          case Incoming => incoming := incoming[id := meta];
          case Processing => processing := processing[id := meta];
          case Processed => processed := processed[id := meta];
        }
      }
    }

    method Rename(id: Id, to: Dir)
      requires Exclusive()
      requires machine.on ==> Find(id).Some? && Find(id).value.dir == if to.Processing? then Incoming else Processing
      modifies this, machine
      ensures Exclusive() && OthersKept(id)
      ensures machine.Runs()
      ensures Find(id) == if machine.on then Some(old(Find(id)).value.(dir := to)) else old(Find(id))
      ensures machine.faults == old(machine.faults)
    {
      machine.Spend();
      if machine.on {
        match to {
          case Processing =>
            processing := processing[id := incoming[id]];
            incoming := incoming - {id};
          case Incoming =>
            incoming := incoming[id := processing[id]];
            processing := processing - {id};
          case Processed =>
            processed := processed[id := processing[id]];
            processing := processing - {id};
        }
      }
    }

    /** stage_input: assembled under tmp and renamed into incoming, so it appears whole or not at all.
        Only incoming can refuse the rename: that every input is in one directory only rests on the
        id being a new one. */
    method StageInput(id: Id) returns (staged: bool)
      modifies this`incoming, this`tmp, machine
      ensures machine.Runs() && OthersKept(id)
      ensures incoming ==
        if staged then old(incoming)[id := Meta(InputAccepted, NoOutcome, None, false)] else old(incoming)
      ensures staged ==> id !in old(incoming) && old(machine.on)
      ensures tmp == old(tmp) - {id} || tmp == old(tmp) + {id} || tmp == old(tmp)
      ensures old(Exclusive()) ==> (Exclusive() <==> !staged || (id !in processing && id !in processed))
    {
      staged := false;
      var failed := machine.Fails();
      if failed {
        return;
      }
      machine.Spend();
      if machine.on {
        tmp := tmp + {id};
      }
      failed := machine.Fails();
      if failed {
        return;
      }
      machine.Spend();
      if machine.on {
        tmp := tmp - {id};
        if id !in incoming {
          incoming := incoming[id := FRESH.meta];
          staged := true;
        }
      }
    }

    method ClaimForProcessing(id: Id) returns (reply: ClaimReply)
      requires Exclusive()
      modifies this, machine
      ensures Exclusive() && OthersKept(id)
      ensures machine.Runs()
      ensures !old(machine.on) ==> Find(id) == old(Find(id))
      ensures reply.ClaimRaised? ==> machine.faults > old(machine.faults)
      ensures old(Find(id)).None? ==> Find(id) == None && reply == NotAvailable
      ensures old(Find(id)).Some? ==>
        Find(id).Some? && Find(id).value in ClaimStages(old(Find(id)).value) &&
        (reply.NotAvailable? <==>
          !(old(Find(id)).value.dir == Incoming && old(Find(id)).value.meta.status == InputAccepted)) &&
        (reply.NotAvailable? ==> Find(id) == old(Find(id))) &&
        (machine.on && reply.InputClaimed? ==> Find(id).value == Last(ClaimStages(old(Find(id)).value)))
      ensures machine.on && reply.InputClaimed? ==>
        old(Find(id)).Some? &&
        Find(id) == Some(Image(Processing, old(Find(id)).value.meta.(status := InputProcessing)))
    {
      if id !in incoming {
        return NotAvailable;
      }
      var metadata := incoming[id];
      if metadata.status != InputAccepted {
        return NotAvailable;
      }
      var failed := machine.Fails();
      if failed {
        return ClaimRaised;
      }
      Rename(id, Processing);
      failed := machine.Fails();
      if failed {
        return ClaimRaised;
      }
      WriteMeta(id, Processing, metadata.(status := InputProcessing));
      return InputClaimed;
    }

    method CompleteTask(id: Id, result: Option<string>, outcome: Outcome) returns (reply: Reply)
      requires Exclusive()
      modifies this, machine
      ensures Exclusive() && OthersKept(id)
      ensures machine.Runs()
      ensures !old(machine.on) ==> Find(id) == old(Find(id))
      ensures old(Find(id)).None? ==> Find(id) == None && reply == Refused
      ensures old(Find(id)).Some? ==>
        Find(id).Some? && Find(id).value in CompletionStages(old(Find(id)).value, result, outcome) &&
        (old(Find(id)).value.dir == Incoming ==> reply == Refused) &&
        (reply == Done || old(Find(id)).value.dir == Incoming || machine.faults > old(machine.faults)) &&
        (machine.on && (reply == Done || machine.faults == old(machine.faults)) ==>
          Find(id).value == Last(CompletionStages(old(Find(id)).value, result, outcome)))
      ensures machine.on && reply == Done ==>
        old(Find(id)).Some? &&
        var was, now := old(Find(id)).value.meta, Find(id).value.meta;
        Find(id).value.dir == Processed && now.status == InputProcessed &&
        (old(Find(id)).value.dir == Processing ==>
          now.outcome == (if outcome == NoOutcome then was.outcome else outcome) &&
          now.result == (if result == None then was.result else result) && !now.pending) &&
        (old(Find(id)).value.dir == Processed ==> now == was.(status := InputProcessed))
    {
      if id !in processing {
        if id !in processed {
          return Refused;
        }
        if processed[id].status != InputProcessed {
          var failed := machine.Fails();
          if failed {
            return Refused;
          }
          WriteMeta(id, Processed, processed[id].(status := InputProcessed));
        }
        return Done;
      }
      var metadata := processing[id];
      if outcome != NoOutcome {
        metadata := metadata.(outcome := outcome);
      }
      if result.Some? {
        metadata := metadata.(result := result);
      }
      metadata := metadata.(pending := true);
      var failed := machine.Fails();
      if failed {
        return Raised;
      }
      WriteMeta(id, Processing, metadata);
      failed := machine.Fails();
      if failed {
        return Raised;
      }
      Rename(id, Processed);
      failed := machine.Fails();
      if failed {
        return Raised;
      }
      WriteMeta(id, Processed, metadata.(status := InputProcessed, pending := false));
      return Done;
    }

    method RequeueForRetry(id: Id) returns (reply: Reply)
      requires Exclusive()
      modifies this, machine
      ensures Exclusive() && OthersKept(id)
      ensures machine.Runs()
      ensures reply != Raised
      ensures !old(machine.on) ==> Find(id) == old(Find(id))
      ensures old(Find(id)).None? ==> Find(id) == None && reply == Refused
      ensures old(Find(id)).Some? ==>
        Find(id).Some? && Find(id).value in RequeueStages(old(Find(id)).value) &&
        (old(Find(id)).value.dir == Processed ==> reply == Refused) &&
        (reply == Done || old(Find(id)).value.dir == Processed || machine.faults > old(machine.faults)) &&
        (machine.on && (reply == Done || machine.faults == old(machine.faults)) ==>
          Find(id).value == Last(RequeueStages(old(Find(id)).value)))
      ensures machine.on && reply == Done ==>
        old(Find(id)).Some? && old(Find(id)).value.dir != Processed &&
        Find(id) ==
          Some(Image(Incoming, old(Find(id)).value.meta.(status := InputAccepted, outcome := OutcomeRetryWait)))
    {
      if id in incoming && id !in processing {
        var failed := machine.Fails();
        if failed {
          return Refused;
        }
        WriteMeta(id, Incoming, incoming[id].(status := InputAccepted, outcome := OutcomeRetryWait));
        return Done;
      }
      if id !in processing || id in incoming {
        return Refused;
      }
      var metadata := processing[id].(outcome := OutcomeRetryWait);
      var failed := machine.Fails();
      if failed {
        return Refused;
      }
      WriteMeta(id, Processing, metadata);
      failed := machine.Fails();
      if failed {
        return Refused;
      }
      Rename(id, Incoming);
      failed := machine.Fails();
      if failed {
        return Refused;
      }
      WriteMeta(id, Incoming, metadata.(status := InputAccepted));
      return Done;
    }

    method TaskIds() returns (ids: set<Id>)
      ensures forall id :: id in ids <==> Find(id).Some?
    {
      ids := incoming.Keys + processing.Keys + processed.Keys;
    }

    /** Retention looks at processed and rejected inputs only, and never into processing. `expired`
        are the inputs whose terminal timestamp, and `stale` the staging directories whose age, is
        beyond the cutoff. */
    method CleanupOldTasks(expired: set<Id>, stale: set<Id>) returns (removed: nat)
      requires Exclusive()
      modifies this`incoming, this`processed, this`tmp
      ensures Exclusive()
      ensures processed == Retained(old(processed), expired) && incoming == Retained(old(incoming), expired)
      ensures tmp == old(tmp) - stale
      ensures removed == |old(processed)| - |processed| + |old(incoming)| - |incoming| + |old(tmp)| - |tmp|
    {
      var n;
      removed, processed := SweepDirectory(processed, expired);
      n, incoming := SweepDirectory(incoming, expired);
      removed := removed + n;
      n := |tmp * stale|;
      assert tmp == (tmp - stale) + tmp * stale;
      tmp := tmp - stale;
      removed := removed + n;
    }
  }

  predicate Removable(meta: Meta) {
    meta.status in {InputProcessed, InputRejected}
  }

  function Retained(dir: map<Id, Meta>, expired: set<Id>): map<Id, Meta> {
    map id | id in dir && !(Removable(dir[id]) && id in expired) :: dir[id]
  }

  /** Of a directory exactly the expired inputs that are processed or rejected are removed. */
  lemma RetainedExactly(dir: map<Id, Meta>, expired: set<Id>, id: Id)
    requires id in dir
    ensures id !in Retained(dir, expired) <==>
            id in expired && dir[id].status != InputAccepted && dir[id].status != InputProcessing
    ensures id in Retained(dir, expired) ==> Retained(dir, expired)[id] == dir[id]
  {
  }

  method SweepDirectory(dir: map<Id, Meta>, expired: set<Id>) returns (removed: nat, kept: map<Id, Meta>)
    ensures kept == Retained(dir, expired)
    ensures removed == |dir| - |kept|
  {
    kept, removed := dir, 0;
    var rest := dir.Keys;
    while rest != {}
      invariant rest <= dir.Keys
      invariant kept == map id | id in dir && (id in rest || !(Removable(dir[id]) && id in expired)) :: dir[id]
      invariant removed + |kept| == |dir|
      decreases rest
    {
      var id :| id in rest;
      rest := rest - {id};
      if Removable(dir[id]) && id in expired {
        assert id in kept;
        var smaller := kept - {id};
        assert smaller.Keys == kept.Keys - {id};
        assert |smaller.Keys| == |kept.Keys| - 1;
        kept := smaller;
        removed := removed + 1;
      }
    }
  }
}
