// The scheduler daemon over its two durable stores: dispatch, restart recovery, and
// whole lives of crashes and restarts.
module DaemonService {
  import opened Prelude
  import opened SchedulerState
  import opened EventReplay
  import opened ReadyAudit
  import opened SchedulerService
  import opened Machines
  import opened StorageService
  import opened RecoveryRules

  datatype HandlerResult = Success | Failure | Retry | WorkerUnavailable | ReviewNeeded | Unknown | Crashed

  /** What a dispatch finds out beside the two stores: the verdicts on the manifest, before the claim of
      the input and again at the start, the worker selected for the task, whether that worker can do
      it, and whether there is a handler. */
  datatype Given = Given(manifestValid: bool, worker: Option<string>, capable: bool, startValid: bool, handled: bool)

  /** How far a dispatch gets. */
  datatype Fate = NotClaimed | Invalid | NoInput | NotStarted | NoHandler | Ran(result: HandlerResult)

  /** The scheduler calls the daemon makes, and those of the operator API beside it. */
  datatype Call =
    | Claim
    | FailClaimed
    | RequeueClaimed
    | Start(profile: string, capable: bool, valid: bool)
    | Complete(result: Option<string>, failed: bool)
    | RunningToRetry(result: Option<string>)
    | RunningToReview
    | Promote
    | Cancel
    | Approve
    | Reject

  predicate CallFrom(call: Call, s: TaskState) {
    match call
    case Claim => s == Queued
    case FailClaimed => s == Claimed
    case RequeueClaimed => s == Claimed
    case Start(_, _, _) => s == Claimed
    case Complete(_, _) => s == Running
    case RunningToRetry(_) => s == Running
    case RunningToReview => s == Running
    case Promote => s == RetryWait
    case Cancel => s in {Accepted, Queued, Claimed}
    case Approve => s == AwaitingReview
    case Reject => s == AwaitingReview
  }

  function CallTo(call: Call): TaskState {
    match call
    case Claim => Claimed
    case FailClaimed => FailedTerminal
    case RequeueClaimed => RetryWait
    case Start(_, _, _) => Running
    case Complete(_, failed) => if failed then FailedTerminal else Succeeded
    case RunningToRetry(_) => RetryWait
    case RunningToReview => AwaitingReview
    case Promote => Queued
    case Cancel => Cancelled
    case Approve => Succeeded
    case Reject => FailedTerminal
  }

  /** What a call makes of the newest attempt of its task. */
  function LastAfter(call: Call, last: Option<Slip>): Option<Slip> {
    match call
    case Start(_, _, _) => Some(Slip(true, None))
    case Complete(result, _) => Ending(last, result)
    case RunningToRetry(result) => Ending(last, result)
    case RunningToReview => Ending(last, None)
    case _ => last
  }

  /** What the operator's rulings become when a call moves its task. */
  function Ruled(rulings: map<Id, Ruling>, id: Id, call: Call, moved: bool): map<Id, Ruling> {
    if moved && call == Approve then rulings[id := Approved]
    else if moved && call == Reject then rulings[id := Rejected]
    else rulings
  }

  /** The outcome and result storage first recorded for an input, and how often its handler had run. */
  datatype Seal = Seal(outcome: Outcome, result: Option<string>, runs: nat)

  /** One restart: whether the daemon came up, and the error count before and after its recovery. */
  datatype Restart = Restart(up: bool, before: nat, after: nat)

  /** It came up although recovery met an error. */
  predicate Troubled(r: Restart) {
    r.up && r.after > r.before
  }

  /** The restarts of some lives, one after the other, while the error count went `from` ... `to`. */
  predicate Recorded(from: nat, log: seq<Restart>, to: nat) {
    if log == [] then from <= to
    else
      var last := log[|log| - 1];
      last.before <= last.after <= to && Recorded(from, log[..|log| - 1], last.before)
  }

  predicate AnyTroubled(log: seq<Restart>) {
    exists i :: 0 <= i < |log| && Troubled(log[i])
  }

  lemma {:induction false} RecordedOnce(from: nat, log: seq<Restart>, restart: Restart, to: nat)
    requires Recorded(from, log, restart.before) && restart.before <= restart.after <= to
    ensures Recorded(from, log + [restart], to) && from <= to
    ensures AnyTroubled(log + [restart]) <==> AnyTroubled(log) || Troubled(restart)
  {
    DropAppended(log, restart);
    if log != [] {
      RecordedOnce(from, log[..|log| - 1], log[|log| - 1], restart.before);
    }
    if AnyTroubled(log) {
      var i :| 0 <= i < |log| && Troubled(log[i]);
      assert (log + [restart])[i] == log[i];
    }
    if Troubled(restart) {
      assert (log + [restart])[|log|] == restart;
    }
  }

  class SchedulerDaemon {
    const machine: Machine
    const storage: StorageContract
    const scheduler: Scheduler
    ghost var health: Health
    ghost var runs: map<Id, nat>
    ghost var seals: map<Id, Seal>
    ghost var overruled: set<Id>
    ghost var known: set<Id>
    ghost var over: map<Id, Cell>

    ghost function CellOf(id: Id): Cell
      reads this`overruled, storage, scheduler
    {
      Shown(scheduler.Tables(), id, storage.Find(id), id in overruled, scheduler.RulingOf(id))
    }

    /** How often the handler has been started on a staged input. */
    ghost function Runs(id: Id): nat
      reads this
    {
      if id in runs then runs[id] else 0
    }

    /** A staged input with a recorded outcome is sealed: the outcome and the result are still the
        ones first recorded, and the handler has not been started since. */
    ghost predicate Sealed(id: Id)
      reads this, storage
    {
      var img := storage.Find(id);
      (img.Some? && Finished(img.value.meta.outcome) ==> id in seals) &&
      (id in seals ==>
        img.Some? && Finished(seals[id].outcome) &&
        seals[id] == Seal(img.value.meta.outcome, img.value.meta.result, Runs(id)))
    }

    ghost predicate Fine(id: Id)
      reads this, storage, scheduler
    {
      Healthy(health, CellOf(id)) && Sealed(id) &&
      (id in known ==> Known(CellOf(id))) && (id in over ==> Over(over[id]) && CellOf(id) == over[id])
    }

    /** Holds at every write of every operation below, whatever crashes or fails. */
    ghost predicate Inv()
      reads this, storage, scheduler
    {
      storage.machine == machine && scheduler.machine == machine && scheduler.Valid() && storage.Exclusive() &&
      forall id :: Fine(id)
    }

    twostate predicate OthersKept(id: Id)
      reads this`overruled, storage, scheduler
    {
      forall other :: other != id ==> CellOf(other) == old(CellOf(other))
    }

    /** No seal is broken, and nobody but other processes decides a review. */
    twostate predicate Kept()
      reads this`seals, machine, scheduler
    {
      (forall id :: id in old(seals) ==> id in seals && seals[id] == old(seals[id])) &&
      old(machine.acts) <= machine.acts &&
      (machine.acts == old(machine.acts) ==> scheduler.rulings == old(scheduler.rulings))
    }

    /** ... and the machine does not come back by itself. */
    twostate predicate Onward()
      reads this, machine, storage, scheduler
    {
      Kept() && machine.Runs() && old(overruled) <= overruled &&
      (machine.faults == old(machine.faults) ==> overruled == old(overruled))
    }

    /** A change to one task only has to be right for that task. */
    twostate lemma OneTask(id: Id)
      requires old(Inv()) && scheduler.Valid() && storage.Exclusive()
      requires OthersKept(id) && Fine(id) && health == old(health) && known == old(known) && over == old(over)
      requires forall other :: other != id ==> Runs(other) == old(Runs(other))
      requires forall other :: other != id ==> (other in seals <==> other in old(seals))
      requires forall other :: other != id && other in seals ==> seals[other] == old(seals[other])
      ensures Inv()
    {
      forall other ensures Fine(other) {
        if other != id {
          assert old(Fine(other));
          assert CellOf(other) == old(CellOf(other));
          assert CellOf(other).image == storage.Find(other);
          assert old(CellOf(other).image) == old(storage.Find(other));
        }
      }
    }

    constructor (workers: Workers)
      ensures Inv() && machine.on && health == Clean
      ensures fresh(machine) && fresh(storage) && fresh(scheduler)
    {
      var m := new Machine();
      var st := new StorageContract(m);
      var sch := new Scheduler(workers, m);
      machine, storage, scheduler := m, st, sch;
      runs, seals, overruled, health := map[], map[], {}, Clean;
      known, over := {}, map[];
    }

    /** The outcome an operation has just recorded is sealed. */
    ghost method Reseal(id: Id, was: Option<Image>, now: Option<Image>)
      modifies this`seals
      ensures seals == old(seals) ||
        (now.Some? && Finished(now.value.meta.outcome) && !(was.Some? && Finished(was.value.meta.outcome)) &&
         seals == old(seals)[id := Seal(now.value.meta.outcome, now.value.meta.result, Runs(id))])
      ensures now.Some? && Finished(now.value.meta.outcome) && !(was.Some? && Finished(was.value.meta.outcome)) ==>
        id in seals && seals[id] == Seal(now.value.meta.outcome, now.value.meta.result, Runs(id))
    {
      if now.Some? && Finished(now.value.meta.outcome) && !(was.Some? && Finished(was.value.meta.outcome)) {
        seals := seals[id := Seal(now.value.meta.outcome, now.value.meta.result, Runs(id))];
      }
    }

    // ---------- One scheduler call ----------

    /** A call may be refused, may be cut short by a crash or an error between its statements, and may
        raise. Every state it passes through has to fit the task. */
    method Schedule(id: Id, call: Call) returns (reply: Reply)
      requires Inv()
      requires machine.on && Applies(call, CellOf(id)) ==> CallFits(health, CellOf(id), call)
      modifies machine, scheduler
      ensures Inv() && Onward() && OthersKept(id)
      ensures Answered(id, call, reply)
    {
      assert Fine(id);
      ghost var was := CellOf(id);
      reply := Perform(id, call);
      if CellOf(id) != was {
        ReachedFits(health, was, call, CellOf(id));
      }
      OneTask(id);
    }

    method Perform(id: Id, call: Call) returns (reply: Reply)
      requires scheduler.Valid() && scheduler.machine == machine
      modifies machine, scheduler
      ensures scheduler.Valid() && OthersKept(id) && machine.Runs() && Answered(id, call, reply)
      ensures machine.acts == old(machine.acts) ==> scheduler.rulings == old(scheduler.rulings)
    {
      ghost var db, before := scheduler.Tables(), scheduler.RulingOf(id);
      reply := Issue(id, call);
      OthersUnseen(db, scheduler.Tables(), id, call);
      CallSeen(db, scheduler.Tables(), id, call, reply, old(machine.on), machine.on, machine.Quiet(), storage.Find(id),
               id in overruled, before, scheduler.RulingOf(id));
    }

    /** The claim of a task: refused exactly when the scheduler's own tables do not permit it. */
    method ScheduleClaim(id: Id) returns (reply: Reply)
      requires Inv()
      requires machine.on && Applies(Claim, CellOf(id)) ==> CallFits(health, CellOf(id), Claim)
      modifies machine, scheduler
      ensures Inv() && Onward() && OthersKept(id)
      ensures Answered(id, Claim, reply)
      ensures machine.Quiet() ==> (reply == Done <==> ClaimPermitted(old(scheduler.Tables()), id))
      ensures machine.Quiet() && reply == Done ==>
        scheduler.controls == old(scheduler.controls) &&
        Issued(old(scheduler.Tables()), scheduler.Tables(), id, Claim)
    {
      assert Fine(id);
      ghost var was := CellOf(id);
      ghost var db, before := scheduler.Tables(), scheduler.RulingOf(id);
      reply := IssueClaim(id);
      OthersUnseen(db, scheduler.Tables(), id, Claim);
      CallSeen(db, scheduler.Tables(), id, Claim, reply, old(machine.on), machine.on, machine.Quiet(), storage.Find(id),
               id in overruled, before, scheduler.RulingOf(id));
      if CellOf(id) != was {
        ReachedFits(health, was, Claim, CellOf(id));
      }
      OneTask(id);
    }

    method ScheduleStart(id: Id, start: Call) returns (reply: Reply)
      requires Inv() && start.Start?
      requires machine.on && Applies(start, CellOf(id)) ==> CallFits(health, CellOf(id), start)
      modifies machine, scheduler
      ensures Inv() && Onward() && OthersKept(id)
      ensures Answered(id, start, reply)
      ensures machine.Quiet() ==> (reply == Done <==> Admits(old(scheduler.Tables()), scheduler.workers, id, start))
    {
      assert Fine(id);
      ghost var was := CellOf(id);
      ghost var db, before := scheduler.Tables(), scheduler.RulingOf(id);
      reply := IssueStart(id, start);
      OthersUnseen(db, scheduler.Tables(), id, start);
      CallSeen(db, scheduler.Tables(), id, start, reply, old(machine.on), machine.on, machine.Quiet(), storage.Find(id),
               id in overruled, before, scheduler.RulingOf(id));
      if CellOf(id) != was {
        ReachedFits(health, was, start, CellOf(id));
      }
      OneTask(id);
    }

    /** What a call shows in the cell of its task. */
    twostate predicate Answered(id: Id, call: Call, reply: Reply)
      reads this`overruled, machine, storage, scheduler
    {
      AnsweredAs(old(CellOf(id)), CellOf(id), call, reply, old(machine.on), machine.on, machine.Quiet()) &&
      (reply == Raised ==> machine.faults > old(machine.faults))
    }

    /** What a call makes of the scheduler's tables. */
    twostate predicate Performed(id: Id, call: Call, reply: Reply)
      reads this, machine, storage, scheduler
    {
      scheduler.controls == old(scheduler.controls) &&
      scheduler.rulings == Ruled(old(scheduler.rulings), id, call, scheduler.tasks != old(scheduler.tasks)) &&
      PerformedAs(old(scheduler.Tables()), scheduler.Tables(), id, call, reply, old(machine.on), machine.on,
                  machine.Quiet()) &&
      (reply == Raised ==> machine.faults > old(machine.faults))
    }

    method Issue(id: Id, call: Call) returns (reply: Reply)
      requires scheduler.Valid() && scheduler.machine == machine
      modifies machine, scheduler
      ensures scheduler.Valid() && machine.Runs() && Performed(id, call, reply)
      ensures call == Approve || call == Reject ==> machine.acts > old(machine.acts)
    {
      var now: nat := *;
      match call {
        case Claim => reply := IssueClaim(id);
        case FailClaimed => reply := IssueTransaction(id, call);
        case Cancel => reply := IssueTransaction(id, call);
        case Start(_, _, _) => reply := IssueStart(id, call);
        case Complete(_, _) => reply := IssueCompletion(id, call);
        case RunningToRetry(_) => reply := IssueFromRunning(id, call, now);
        case RunningToReview => reply := IssueFromRunning(id, call, now);
        case Approve => reply := IssueDecision(id, call);
        case Reject => reply := IssueDecision(id, call);
        case _ => reply := IssueWaiting(id, call, now);
      }
    }

    method IssueClaim(id: Id) returns (reply: Reply)
      requires scheduler.Valid() && scheduler.machine == machine
      modifies machine, scheduler
      ensures scheduler.Valid() && machine.Runs() && Performed(id, Claim, reply)
      ensures machine.Quiet() ==> (reply == Done <==> ClaimPermitted(old(scheduler.Tables()), id))
    {
      MoveIssued(scheduler.Tables(), id, Claimed, None, "task_claimed", None, Claim, scheduler.workers);
      reply := scheduler.ClaimTask(id);
    }

    method IssueTransaction(id: Id, call: Call) returns (reply: Reply)
      requires scheduler.Valid() && scheduler.machine == machine && call in {FailClaimed, Cancel}
      modifies machine, scheduler
      ensures scheduler.Valid() && machine.Runs() && Performed(id, call, reply)
    {
      ghost var name := if call == Cancel then "task_cancelled" else "task_rejected";
      MoveIssued(scheduler.Tables(), id, CallTo(call), None, name, None, call, scheduler.workers);
      if call == Cancel {
        reply := scheduler.CancelTask(id);
      } else {
        reply := scheduler.FailClaimedTask(id);
      }
    }

    method IssueStart(id: Id, call: Call) returns (reply: Reply)
      requires scheduler.Valid() && scheduler.machine == machine && call.Start?
      modifies machine, scheduler
      ensures scheduler.Valid() && machine.Runs() && Performed(id, call, reply)
      ensures machine.Quiet() ==> (reply == Done <==> Admits(old(scheduler.Tables()), scheduler.workers, id, call))
    {
      reply := scheduler.StartTask(id, call.profile, call.capable, call.valid);
    }

    method IssueWaiting(id: Id, call: Call, now: nat) returns (reply: Reply)
      requires scheduler.Valid() && scheduler.machine == machine && call in {RequeueClaimed, Promote}
      modifies machine, scheduler
      ensures scheduler.Valid() && machine.Runs() && Performed(id, call, reply)
    {
      if call == Promote {
        MoveIssued(scheduler.Tables(), id, Queued, Some(None), "task_requeued", None, Promote, scheduler.workers);
        reply := scheduler.RequeueRetryWait(id, now);
      } else {
        reply := IssueRequeue(id, now);
      }
    }

    method IssueRequeue(id: Id, now: nat) returns (reply: Reply)
      requires scheduler.Valid() && scheduler.machine == machine
      modifies machine, scheduler
      ensures scheduler.Valid() && machine.Runs() && Performed(id, RequeueClaimed, reply)
    {
      MoveIssued(scheduler.Tables(), id, RetryWait, Some(Some(now)), "task_retry_wait", None, RequeueClaimed,
                 scheduler.workers);
      reply := scheduler.RequeueClaimedToRetryWait(id, now);
    }

    method IssueDecision(id: Id, call: Call) returns (reply: Reply)
      requires scheduler.Valid() && scheduler.machine == machine && call in {Approve, Reject}
      modifies machine, scheduler
      ensures scheduler.Valid() && machine.Runs() && Performed(id, call, reply)
      ensures machine.acts > old(machine.acts)
    {
      machine.acts := machine.acts + 1;
      MoveIssued(scheduler.Tables(), id, CallTo(call), None, "task_completed", None, call, scheduler.workers);
      if call == Approve {
        reply := scheduler.ApproveAwaitingReview(id);
      } else {
        reply := scheduler.TransitionAwaitingReviewToFailed(id);
      }
    }

    method IssueCompletion(id: Id, call: Call) returns (reply: Reply)
      requires scheduler.Valid() && scheduler.machine == machine && call.Complete?
      modifies machine, scheduler
      ensures scheduler.Valid() && machine.Runs() && Performed(id, call, reply)
    {
      MoveIssued(scheduler.Tables(), id, CallTo(call), None, "task_completed", call.result, call, scheduler.workers);
      reply := scheduler.CompleteTask(id, call.result, call.failed);
    }

    method IssueFromRunning(id: Id, call: Call, now: nat) returns (reply: Reply)
      requires scheduler.Valid() && scheduler.machine == machine && (call.RunningToRetry? || call.RunningToReview?)
      modifies machine, scheduler
      ensures scheduler.Valid() && machine.Runs() && Performed(id, call, reply)
    {
      ghost var db := scheduler.Tables();
      if call.RunningToRetry? {
        MoveIssued(db, id, RetryWait, Some(Some(now)), "task_retry_wait", call.result, call, scheduler.workers);
        reply := scheduler.TransitionRunningToRetryWait(id, call.result, now);
      } else {
        MoveIssued(db, id, AwaitingReview, None, "task_awaiting_review", None, call, scheduler.workers);
        reply := scheduler.TransitionRunningToAwaitingReview(id);
      }
    }

    // ---------- One storage operation ----------

    method StoreClaim(id: Id) returns (reply: ClaimReply)
      requires Inv()
      requires machine.on && CellOf(id).image.Some? && AtRest(CellOf(id).image.value) ==>
        StagesFit(health, CellOf(id), ClaimStages(CellOf(id).image.value))
      modifies this`seals, machine, storage
      ensures Inv() && Onward() && OthersKept(id)
      ensures !old(machine.on) ==> CellOf(id) == old(CellOf(id))
      ensures CellOf(id) == old(CellOf(id)).(image := CellOf(id).image)
      ensures reply.ClaimRaised? ==> machine.faults > old(machine.faults)
      ensures reply.NotAvailable? ==> CellOf(id) == old(CellOf(id))
      ensures reply.NotAvailable? && CellOf(id).image.Some? ==> !AtRest(CellOf(id).image.value)
      ensures machine.on && reply.InputClaimed? ==>
        old(CellOf(id)).image.Some? && old(AtRest(CellOf(id).image.value)) &&
        CellOf(id).image == Some(Last(ClaimStages(old(CellOf(id)).image.value)))
    {
      assert Fine(id);
      ghost var was := CellOf(id).image;
      reply := storage.ClaimForProcessing(id);
      Reseal(id, was, CellOf(id).image);
      OneTask(id);
    }

    method StoreCompletion(id: Id, result: Option<string>, outcome: Outcome) returns (reply: Reply)
      requires Inv()
      requires machine.on && CellOf(id).image.Some? ==>
        StagesFit(health, CellOf(id), CompletionStages(CellOf(id).image.value, result, outcome))
      modifies this`seals, machine, storage
      ensures Inv() && Onward() && OthersKept(id)
      ensures !old(machine.on) ==> CellOf(id) == old(CellOf(id))
      ensures CellOf(id) == old(CellOf(id)).(image := CellOf(id).image)
      ensures machine.on && reply == Done ==>
        old(CellOf(id)).image.Some? && old(CellOf(id)).image.value.dir != Incoming &&
        CellOf(id).image == Some(Last(CompletionStages(old(CellOf(id)).image.value, result, outcome)))
      ensures machine.Quiet() && reply != Done ==>
        CellOf(id) == old(CellOf(id)) && (CellOf(id).image.Some? ==> CellOf(id).image.value.dir == Incoming)
      ensures reply == Raised ==> machine.faults > old(machine.faults)
    {
      assert Fine(id);
      ghost var was := CellOf(id).image;
      reply := storage.CompleteTask(id, result, outcome);
      Reseal(id, was, CellOf(id).image);
      OneTask(id);
    }

    method StoreRequeue(id: Id) returns (done: bool)
      requires Inv()
      requires machine.on && CellOf(id).image.Some? ==>
        StagesFit(health, CellOf(id), RequeueStages(CellOf(id).image.value))
      modifies this`seals, machine, storage
      ensures Inv() && Onward() && OthersKept(id)
      ensures !old(machine.on) ==> CellOf(id) == old(CellOf(id))
      ensures CellOf(id) == old(CellOf(id)).(image := CellOf(id).image)
      ensures machine.on && done ==>
        old(CellOf(id)).image.Some? && old(CellOf(id)).image.value.dir != Processed &&
        CellOf(id).image == Some(Last(RequeueStages(old(CellOf(id)).image.value)))
      ensures machine.Quiet() && !done ==>
        CellOf(id) == old(CellOf(id)) && (CellOf(id).image.Some? ==> CellOf(id).image.value.dir == Processed)
    {
      assert Fine(id);
      ghost var was := CellOf(id).image;
      var reply := storage.RequeueForRetry(id);
      done := reply == Done;
      Reseal(id, was, CellOf(id).image);
      OneTask(id);
    }

    // ---------- Restart recovery ----------

    method TransitionToRetry(id: Id, state: TaskState) returns (reply: Reply)
      requires Inv() && health != Clean && (state == Running || state == Claimed)
      requires machine.on ==>
        Known(CellOf(id)) && CellOf(id).state.value == state && !Finished(CellOf(id).image.value.meta.outcome) &&
        Waiting(CellOf(id).image.value)
      modifies machine, scheduler
      ensures Inv() && Onward() && OthersKept(id)
      ensures machine.Quiet() ==> reply == Done
      ensures machine.on && reply == Done ==> CellOf(id) == AsRetrying(old(CellOf(id)))
      ensures machine.on && reply == Done ==>
        CellOf(id).state == Some(RetryWait) && CellOf(id).image == old(CellOf(id)).image
      ensures reply == Raised ==> machine.faults > old(machine.faults)
    {
      assert Fine(id);
      var call := if state == Running then RunningToRetry(None) else RequeueClaimed;
      if machine.on {
        RetryingFits(health, CellOf(id), call);
      }
      reply := Schedule(id, call);
    }

    method FinishRecoveredTask(id: Id, state: TaskState, meta: Meta) returns (reply: Reply)
      requires Inv() && (state == Running || state == Claimed)
      requires machine.on ==>
        Known(CellOf(id)) && CellOf(id).state.value == state && CellOf(id).image == Some(Image(Processed, meta)) &&
        Filed(CellOf(id).image.value) && Finished(meta.outcome)
      modifies machine, scheduler
      ensures Inv() && Onward() && OthersKept(id)
      ensures machine.Quiet() ==> reply == Done && CellOf(id) == Concluded(old(CellOf(id)))
      ensures machine.Quiet() ==>
        CellOf(id).image == old(CellOf(id)).image && !HasOpen(CellOf(id)) &&
        CellOf(id).state == Some(match meta.outcome
          case OutcomeSucceeded => Succeeded
          case OutcomeAwaitingReview => AwaitingReview
          case _ => FailedTerminal)
      ensures reply == Raised ==> machine.faults > old(machine.faults)
    {
      assert Fine(id);
      if state != Running {
        return Refused;
      }
      if machine.on {
        ClosingConcludes(health, CellOf(id));
      }
      reply := Schedule(id, Closing(meta.outcome, meta.result));
    }

    /** An interrupted task: claimed or running when the daemon went down. */
    method RecoverInterrupted(id: Id, state: TaskState, img: Image) returns (died: bool)
      requires Inv() && health != Clean && (state == Running || state == Claimed)
      requires CellOf(id).state == Some(state) && CellOf(id).image == Some(img)
      modifies this`seals, machine, storage, scheduler
      ensures Inv() && Onward() && OthersKept(id)
      ensures machine.Quiet() ==> !died && CellOf(id) == Recovered(old(CellOf(id)))
    {
      died := false;
      assert Fine(id);
      if img.meta.outcome == OutcomeRetryWait {
        var ready := img.meta.status == InputAccepted;
        if !ready {
          ready := RequeueKnown(id);
        }
        if ready {
          var reply := TransitionToRetry(id, state);
          died := reply == Raised;
        }
      } else if img.meta.outcome != NoOutcome {
        died := RecoverFinished(id, state, img);
      } else {
        var reply := TransitionToRetry(id, state);
        died := reply == Raised;
        if reply == Done && img.meta.status != InputAccepted {
          var _ := RequeueKnown(id);
        }
      }
    }

    method RecoverFinished(id: Id, state: TaskState, img: Image) returns (died: bool)
      requires Inv() && health != Clean && (state == Running || state == Claimed)
      requires CellOf(id).state == Some(state) && CellOf(id).image == Some(img) && Finished(img.meta.outcome)
      modifies this`seals, machine, storage, scheduler
      ensures Inv() && Onward() && OthersKept(id)
      ensures machine.Quiet() ==> !died && CellOf(id) == Recovered(old(CellOf(id)))
    {
      assert Fine(id);
      FiledThenConcluded(CellOf(id));
      died := false;
      var now := img.meta;
      if img.meta.status != InputProcessed {
        var filed := FileInput(id, img.meta.result, img.meta.outcome);
        if filed != Done {
          return filed == Raised;
        }
        now := Last(CompletionStages(img, img.meta.result, img.meta.outcome)).meta;
      }
      var reply := FinishRecoveredTask(id, state, now);
      died := reply == Raised;
    }

    method FileInput(id: Id, result: Option<string>, outcome: Outcome) returns (reply: Reply)
      requires Inv() && Finished(outcome)
      requires machine.on ==> Known(CellOf(id)) && CellOf(id).state.value == Running && (
        Finished(CellOf(id).image.value.meta.outcome) ==>
          outcome == CellOf(id).image.value.meta.outcome && result == CellOf(id).image.value.meta.result)
      requires machine.on && outcome == OutcomeSucceeded ==> HasOpen(CellOf(id))
      modifies this`seals, machine, storage
      ensures Inv() && Onward() && OthersKept(id)
      ensures !old(machine.on) ==> CellOf(id) == old(CellOf(id))
      ensures CellOf(id) == old(CellOf(id)).(image := CellOf(id).image)
      ensures machine.on && reply == Done ==>
        old(CellOf(id)).image.value.dir != Incoming &&
        CellOf(id).image == Some(Last(CompletionStages(old(CellOf(id)).image.value, result, outcome)))
      ensures machine.Quiet() && reply != Done ==>
        CellOf(id) == old(CellOf(id)) && CellOf(id).image.value.dir == Incoming
      ensures reply == Raised ==> machine.faults > old(machine.faults)
    {
      if machine.on {
        assert Fine(id);
        FilingIsSafe(health, CellOf(id), result, outcome);
      }
      reply := StoreCompletion(id, result, outcome);
    }

    method RequeueKnown(id: Id) returns (done: bool)
      requires Inv()
      requires machine.on ==> (
        Known(CellOf(id)) && !Finished(CellOf(id).image.value.meta.outcome) &&
        (CellOf(id).state.value in {Claimed, Running, Cancelled} ||
         (CellOf(id).state.value == RetryWait && !health.Clean?)))
      modifies this`seals, machine, storage
      ensures Inv() && Onward() && OthersKept(id)
      ensures !old(machine.on) ==> CellOf(id) == old(CellOf(id))
      ensures CellOf(id) == old(CellOf(id)).(image := CellOf(id).image)
      ensures machine.on && done ==>
        old(CellOf(id)).image.value.dir != Processed &&
        CellOf(id).image == Some(Last(RequeueStages(old(CellOf(id)).image.value)))
      ensures machine.Quiet() && !done ==>
        CellOf(id) == old(CellOf(id)) && CellOf(id).image.value.dir == Processed
    {
      if machine.on {
        assert Fine(id);
        RequeueIsSafe(health, CellOf(id));
      }
      done := StoreRequeue(id);
    }

    /** One input after a restart. `died`: an error escaped and took the process down. */
    method RecoverOne(id: Id) returns (died: bool)
      requires Inv() && health != Clean
      modifies this`seals, machine, storage, scheduler
      ensures Inv() && Onward() && OthersKept(id)
      ensures machine.Quiet() ==> !died && CellOf(id) == Recovered(old(CellOf(id)))
      ensures machine.Quiet() ==> PutRight(old(CellOf(id)), CellOf(id))
    {
      died := false;
      assert Fine(id);
      RecoveryPutsRight(CellOf(id));
      if id !in scheduler.tasks || storage.Find(id).None? {
        return;
      }
      var state := scheduler.tasks[id].state;
      var img := storage.Find(id).value;
      if state == Running || state == Claimed {
        died := RecoverInterrupted(id, state, img);
      } else if state == RetryWait {
        if img.meta.status == InputProcessing {
          var _ := RequeueKnown(id);
        }
      } else if state in {Succeeded, FailedTerminal, AwaitingReview, Cancelled} {
        if img.meta.status == InputProcessing {
          ShelvingIsSafe(health, CellOf(id));
          var reply := StoreCompletion(id, None, NoOutcome);
          died := reply == Raised;
        }
      }
    }

    /** _recover_interrupted_tasks: every input with metadata, once. */
    method RecoverInterruptedTasks() returns (died: bool)
      requires Inv() && health != Clean
      modifies this`seals, machine, storage, scheduler
      ensures Inv() && Onward()
      ensures machine.Quiet() ==>
        !died && forall id :: CellOf(id) == Recovered(old(CellOf(id))) && PutRight(old(CellOf(id)), CellOf(id))
    {
      died := false;
      var ids := storage.TaskIds();
      var rest := ids;
      while rest != {} && !died
        invariant Inv() && Onward() && rest <= ids
        invariant machine.Quiet() ==>
          !died && forall id :: CellOf(id) == (if id in ids - rest then Recovered(old(CellOf(id))) else old(CellOf(id)))
        decreases rest
      {
        var id :| id in rest;
        rest := rest - {id};
        died := RecoverOne(id);
      }
      forall id ensures id !in ids ==> Recovered(old(CellOf(id))) == old(CellOf(id))
        ensures PutRight(old(CellOf(id)), Recovered(old(CellOf(id))))
      {
        assert old(Fine(id));
        RecoveryPutsRight(old(CellOf(id)));
      }
    }

    /** A restart. When recovery meets no error, every known input is at its documented resting
        place, except exactly those whose claim was torn. */
    method StartUp() returns (up: bool)
      requires Inv() && health != Clean
      modifies this`seals, this`health, machine, storage, scheduler
      ensures Inv() && Onward() && (up ==> machine.on)
      ensures if up then health != Restarting else health == old(health)
      ensures health == Spoiled <==> old(health) == Spoiled || (up && machine.faults > old(machine.faults))
      ensures machine.Quiet() ==>
        up && (forall id :: CellOf(id) == Recovered(old(CellOf(id))) && PutRight(old(CellOf(id)), CellOf(id))) &&
        (old(health) == Restarting ==>
          health == Clean &&
          forall id :: Settled(CellOf(id)) <==> !old(Known(CellOf(id)) && Torn(CellOf(id).image.value)))
    {
      var died := RecoverInterruptedTasks();
      up := machine.on && !died;
      if up {
        if machine.faults == old(machine.faults) && health == Restarting {
          EverythingPlaced();
          Assess(Clean);
        } else {
          Assess(Spoiled);
        }
      }
    }

    twostate lemma EverythingPlaced()
      requires old(Inv()) && old(health) == Restarting
      requires forall id :: CellOf(id) == Recovered(old(CellOf(id)))
      ensures forall id :: Placed(Clean, CellOf(id))
      ensures forall id :: Settled(CellOf(id)) <==> !old(Known(CellOf(id)) && Torn(CellOf(id).image.value))
    {
      forall id
        ensures Placed(Clean, CellOf(id))
        ensures Settled(CellOf(id)) <==> !old(Known(CellOf(id)) && Torn(CellOf(id).image.value))
      {
        assert old(Fine(id));
        RecoveredIsPlaced(old(CellOf(id)));
      }
    }

    ghost method NewLife()
      requires Inv()
      modifies this`health
      ensures Inv() && health == if old(health) == Clean then Restarting else old(health)
    {
      if health.Clean? {
        forall id ensures Placed(Restarting, CellOf(id)) {
          assert Fine(id);
        }
        Assess(Restarting);
      }
    }

    ghost method Assess(h: Health)
      requires Inv() && forall id :: Placed(h, CellOf(id))
      modifies this`health
      ensures Inv() && health == h
    {
      health := h;
      forall id ensures Fine(id) {
        assert old(Fine(id)) && CellOf(id) == old(CellOf(id)) && old(Placed(h, CellOf(id)));
      }
    }

    // ---------- The operator beside the daemon ----------

    /** What the operator API can do to a task that has a row: cancel it before it runs, or decide a review. */
    twostate predicate OperatorOnly()
      reads this`overruled, storage, scheduler
    {
      forall id :: old(CellOf(id)).state.Some? ==> OperatorMove(old(CellOf(id)), CellOf(id))
    }

    /** Nothing has happened beside the daemon unless an act is counted. */
    twostate predicate Counted()
      reads this`overruled, machine, storage, scheduler
    {
      machine.acts == old(machine.acts) ==>
        machine.on == old(machine.on) && machine.faults == old(machine.faults) &&
        scheduler.Tables() == old(scheduler.Tables()) && forall id :: CellOf(id) == old(CellOf(id))
    }

    method OperatorCall(id: Id, call: Call)
      requires Inv() && call in {Cancel, Approve, Reject}
      modifies machine, scheduler
      ensures Inv() && Onward() && OperatorOnly()
    {
      assert Fine(id);
      var _ := Schedule(id, call);
    }

    /** Ingress: the input is staged under a new id; its row follows. */
    method Ingress(id: Id)
      requires Inv()
      modifies machine, storage
      ensures Inv() && Onward() && OperatorOnly()
    {
      if id !in scheduler.tasks && storage.Find(id).None? {
        assert Fine(id);
        var staged := storage.StageInput(id);
        OneTask(id);
      }
    }

    method Submit(id: Id, row: Task)
      requires Inv() && row.state == Queued && (storage.Find(id).Some? ==> row.staged)
      modifies machine, scheduler
      ensures Inv() && Onward() && OperatorOnly()
    {
      assert Fine(id);
      var added := scheduler.AddTask(id, row);
      AdmissionSeen(old(scheduler.Tables()), scheduler.Tables(), id, row);
      OneTask(id);
    }

    method SetControl(c: Control, on: bool)
      requires Inv()
      modifies machine, scheduler
      ensures Inv() && Onward() && OperatorOnly()
    {
      assert Fine("");
      var reply, p40 := scheduler.SetControl(c, on);
      SameRowsSeen(old(scheduler.Tables()), scheduler.Tables());
      OneTask("");
    }

    method OtherAct()
      requires Inv()
      modifies machine, storage, scheduler
      ensures Inv() && Onward() && OperatorOnly()
    {
      var id: Id := *;
      if {
        case true => OperatorCall(id, Cancel);
        case true => OperatorCall(id, Approve);
        case true => OperatorCall(id, Reject);
        case true => Ingress(id);
        case true =>
          var row: Task := *;
          if row.state == Queued && (storage.Find(id).Some? ==> row.staged) {
            Submit(id, row);
          }
        case true =>
          var c: Control := *;
          var on: bool := *;
          SetControl(c, on);
      }
    }

    /** Anything the other processes may do between two writes of the daemon. */
    method Others()
      requires Inv()
      modifies machine, storage, scheduler
      ensures Inv() && Onward() && OperatorOnly() && Counted()
    {
      var n: nat := *;
      while n > 0
        invariant Inv() && Onward() && OperatorOnly() && Counted()
      {
        n := n - 1;
        label Before:
        OtherAct();
        machine.acts := machine.acts + 1;
        forall id | old(CellOf(id)).state.Some? ensures OperatorMove(old(CellOf(id)), CellOf(id)) {
          OperatorMovesCompose(old(CellOf(id)), old@Before(CellOf(id)), CellOf(id));
        }
      }
    }

    // ---------- Dispatch ----------

    /** ... as far as one task is concerned. */
    method OthersAround(id: Id)
      requires Inv()
      modifies machine, storage, scheduler
      ensures Inv() && Onward()
      ensures old(CellOf(id)).state.Some? ==> OperatorMove(old(CellOf(id)), CellOf(id))
      ensures machine.acts == old(machine.acts) ==>
        machine.on == old(machine.on) && machine.faults == old(machine.faults) &&
        scheduler.Tables() == old(scheduler.Tables()) && CellOf(id) == old(CellOf(id))
    {
      Others();
    }

    /** A scheduler call with other processes at work since the daemon last looked. */
    method ScheduleLater(id: Id, call: Call) returns (reply: Reply)
      requires Inv()
      requires machine.on ==> CellOf(id).state.Some?
      requires machine.on && Applies(call, CellOf(id)) ==> CallFits(health, CellOf(id), call)
      modifies machine, storage, scheduler
      ensures Inv() && Onward()
      ensures machine.on ==> LaterAs(old(CellOf(id)), CellOf(id), call, reply, machine.Quiet())
      ensures reply == Raised ==> machine.faults > old(machine.faults)
    {
      ghost var was := CellOf(id);
      OthersAround(id);
      ghost var mid, faults := CellOf(id), machine.faults;
      if machine.on {
        OperatorMovesAreFinal(was, mid, call);
      }
      reply := Schedule(id, call);
      if machine.on {
        LaterAnswer(was, mid, CellOf(id), call, reply, machine.faults == faults);
      }
    }

    /** The start of a task in hand, with other processes at work since the daemon last looked. */
    method StartLater(id: Id, storageClaimed: bool, start: Call) returns (reply: Reply)
      requires Inv() && start.Start?
      requires machine.on ==> InHand(CellOf(id), storageClaimed) && CellOf(id).state.value in {Claimed, Cancelled}
      modifies machine, storage, scheduler
      ensures Inv() && Onward()
      ensures machine.on ==> InHand(CellOf(id), storageClaimed) && CellOf(id).image == old(CellOf(id)).image
      ensures machine.on ==> CellOf(id).state.value in {Claimed, Cancelled, Running}
      ensures machine.on && reply == Done ==> CellOf(id).state.value == Running
      ensures machine.Quiet() && reply != Done ==> CellOf(id).state.value in {Claimed, Cancelled}
      ensures machine.Undisturbed() ==>
        (reply == Done <==> Admits(old(scheduler.Tables()), scheduler.workers, id, start))
      ensures reply == Raised ==> machine.faults > old(machine.faults)
    {
      if machine.on {
        assert Fine(id);
        StartedOrNot(health, CellOf(id), storageClaimed, start);
      }
      ghost var was := CellOf(id);
      OthersAround(id);
      ghost var mid := CellOf(id);
      if machine.on {
        OperatorMovesAreFinal(was, mid, start);
      }
      reply := ScheduleStart(id, start);
      assert machine.on ==> CellOf(id) == mid || (mid == was && Reached(was, start, CellOf(id)));
    }

    /** Give the input and then the task back, or leave both for recovery. */
    method GiveBack(id: Id, storageClaimed: bool)
      requires Inv()
      requires machine.on ==>
        InHand(CellOf(id), storageClaimed) && CellOf(id).state.value in {Claimed, Cancelled, Running}
      modifies this`seals, machine, storage, scheduler
      ensures Inv() && Onward()
      ensures machine.Quiet() && old(CellOf(id)).state.value != Running ==>
        Rested(CellOf(id))
      ensures machine.Quiet() && old(CellOf(id)).state.value != Running ==>
        LeftAs(NotStarted, old(CellOf(id)), CellOf(id))
    {
      if machine.on {
        assert Fine(id);
        GivenBack(health, CellOf(id), storageClaimed);
      }
      if storageClaimed {
        var ready := RequeueKnown(id);
        if !ready {
          return;
        }
      }
      var _ := ScheduleLater(id, RequeueClaimed);
    }

    /** The handler starts on the input: once, or twice when the model profile had to be repaired. */
    method RunHandler(id: Id, storageClaimed: bool) returns (r: HandlerResult, payload: Option<string>)
      requires Inv()
      requires machine.on ==> InHand(CellOf(id), storageClaimed)
      modifies this`runs, machine`on
      ensures Inv() && Onward()
      ensures forall other :: other != id ==> Runs(other) == old(Runs(other))
      ensures old(Runs(id)) <= Runs(id) <= old(Runs(id)) + if storageClaimed && old(machine.on) then 2 else 0
      ensures storageClaimed && machine.on ==> Runs(id) > old(Runs(id))
      ensures CellOf(id) == old(CellOf(id))
    {
      var again: bool := *;
      r, payload := *, *;
      if storageClaimed && machine.on {
        assert Fine(id);
        runs := runs[id := Runs(id) + 1];
        OneTask(id);
        machine.Spend();
        if machine.on && again {
          runs := runs[id := Runs(id) + 1];
          OneTask(id);
        }
      }
    }

    /** Record the outcome on the input, then close the task: this order throughout. */
    method Close(id: Id, storageClaimed: bool, payload: Option<string>, outcome: Outcome, call: Call)
      returns (raised: bool)
      requires Inv() && Closes(outcome, payload, call)
      requires machine.on ==> InHand(CellOf(id), storageClaimed) && CellOf(id).state.value == Running
      modifies this`seals, machine, storage, scheduler
      ensures Inv() && Onward()
      ensures machine.Quiet() ==> LeftWith(outcome, CellOf(id))
      ensures machine.Quiet() ==> (CellOf(id).image.Some? <==> old(CellOf(id)).image.Some?)
      ensures raised ==> machine.faults > old(machine.faults)
      ensures machine.on && raised ==> OutOfHand(CellOf(id), storageClaimed)
    {
      if machine.on {
        assert Fine(id);
        ClosedDown(health, CellOf(id), storageClaimed, payload, outcome, call);
      }
      if storageClaimed {
        var stored := FileInput(id, payload, outcome);
        if stored != Done {
          return false;
        }
      }
      ghost var filed := CellOf(id);
      var reply := ScheduleLater(id, call);
      raised := reply == Raised;
      if machine.on {
        StaysOutOfHand(filed, CellOf(id), call, storageClaimed);
      }
    }

    method RetryLater(id: Id, storageClaimed: bool, payload: Option<string>) returns (raised: bool)
      requires Inv()
      requires machine.on ==> InHand(CellOf(id), storageClaimed) && CellOf(id).state.value == Running
      modifies this`seals, machine, storage, scheduler
      ensures Inv() && Onward()
      ensures machine.Quiet() ==> LeftWith(OutcomeRetryWait, CellOf(id))
      ensures machine.Quiet() ==> (CellOf(id).image.Some? <==> old(CellOf(id)).image.Some?)
      ensures raised ==> machine.faults > old(machine.faults)
      ensures machine.on && raised ==> OutOfHand(CellOf(id), storageClaimed)
    {
      if machine.on {
        assert Fine(id);
        RetriedLater(health, CellOf(id), storageClaimed, payload);
      }
      if storageClaimed {
        var ready := RequeueKnown(id);
        if !ready {
          return false;
        }
      }
      ghost var back := CellOf(id);
      var reply := ScheduleLater(id, RunningToRetry(payload));
      raised := reply == Raised;
      if machine.on {
        StaysOutOfHand(back, CellOf(id), RunningToRetry(payload), storageClaimed);
      }
    }

    /** The handler of an error that escaped from the closing call: it files the input as failed, which
        changes nothing any more, and fails the task if it is still running. */
    method Escaped(id: Id, storageClaimed: bool)
      requires Inv()
      requires machine.on ==> OutOfHand(CellOf(id), storageClaimed)
      modifies this`seals, this`overruled, machine, storage, scheduler
      ensures Inv() && Kept() && machine.Runs()
      ensures old(overruled) <= overruled
    {
      if machine.on {
        assert Fine(id);
        if storageClaimed {
          NothingToFile(health, CellOf(id), storageClaimed);
        }
      }
      if storageClaimed {
        var reply := StoreCompletion(id, Some("unexpected error"), OutcomeFailed);
        if reply != Done {
          return;
        }
      }
      FailRunning(id);
    }

    /** The task is failed if it is still running, whatever its input says. */
    method FailRunning(id: Id)
      requires Inv()
      requires machine.on ==>
        CellOf(id).state.Some? && (CellOf(id).image.Some? ==> Filed(CellOf(id).image.value))
      modifies this`overruled, machine, storage, scheduler
      ensures Inv() && Kept() && machine.Runs() && old(overruled) <= overruled
    {
      if machine.on && CellOf(id).state == Some(Running) {
        Overrule(id);
      }
      if machine.on {
        assert Fine(id);
        FailingIsSafe(health, CellOf(id));
      }
      var _ := ScheduleLater(id, Complete(None, true));
    }

    ghost method Overrule(id: Id)
      requires Inv() && CellOf(id).state == Some(Running)
      modifies this`overruled
      ensures Inv() && Kept() && OthersKept(id) && CellOf(id) == old(CellOf(id)).(overruled := true)
      ensures overruled == old(overruled) + {id}
    {
      assert Fine(id);
      overruled := overruled + {id};
      OneTask(id);
    }

    /** The body of a started task: the handler's result decides how both stores are left. */
    method Execute(id: Id, storageClaimed: bool, handled: bool) returns (fate: Fate)
      requires Inv()
      requires machine.on ==> InHand(CellOf(id), storageClaimed) && CellOf(id).state.value == Running
      modifies this`runs, this`seals, this`overruled, machine, storage, scheduler
      ensures Inv() && Onward()
      ensures if handled then fate.Ran? else fate.NoHandler?
      ensures machine.Quiet() ==> LeftAs(fate, old(CellOf(id)), CellOf(id))
      ensures HasRun(id, fate, storageClaimed)
    {
      var raised: bool;
      fate, raised := TryHandler(id, storageClaimed, handled);
      if raised {
        Escaped(id, storageClaimed);
      }
    }

    /** The handler of a staged input has been started exactly if the task ran. */
    twostate predicate HasRun(id: Id, fate: Fate, storageClaimed: bool)
      reads this, machine
    {
      (!fate.Ran? ==> Runs(id) == old(Runs(id))) &&
      (machine.on && fate.Ran? && storageClaimed ==> Runs(id) > old(Runs(id)))
    }

    method TryHandler(id: Id, storageClaimed: bool, handled: bool) returns (fate: Fate, raised: bool)
      requires Inv()
      requires machine.on ==> InHand(CellOf(id), storageClaimed) && CellOf(id).state.value == Running
      modifies this`runs, this`seals, machine, storage, scheduler
      ensures Inv() && Onward()
      ensures if handled then fate.Ran? else fate.NoHandler?
      ensures machine.Quiet() ==> LeftAs(fate, old(CellOf(id)), CellOf(id))
      ensures HasRun(id, fate, storageClaimed)
      ensures raised ==> machine.faults > old(machine.faults)
      ensures machine.on && raised ==> OutOfHand(CellOf(id), storageClaimed)
    {
      if !handled {
        raised := Close(id, storageClaimed, Some("no handler"), OutcomeFailed, Complete(None, true));
        return NoHandler, raised;
      }
      var r, payload := RunHandler(id, storageClaimed);
      fate := Ran(r);
      raised := AfterHandler(id, storageClaimed, r, payload);
    }

    /** What each result of the handler leads to. */
    method AfterHandler(id: Id, storageClaimed: bool, r: HandlerResult, payload: Option<string>)
      returns (raised: bool)
      requires Inv()
      requires machine.on ==> InHand(CellOf(id), storageClaimed) && CellOf(id).state.value == Running
      modifies this`seals, machine, storage, scheduler
      ensures Inv() && Onward()
      ensures machine.Quiet() ==> LeftAs(Ran(r), old(CellOf(id)), CellOf(id))
      ensures raised ==> machine.faults > old(machine.faults)
      ensures machine.on && raised ==> OutOfHand(CellOf(id), storageClaimed)
    {
      match r {
        case Success =>
          raised := Close(id, storageClaimed, payload, OutcomeSucceeded, Complete(payload, false));
        case Failure =>
          raised := Close(id, storageClaimed, payload, OutcomeFailed, Complete(payload, true));
        case Retry =>
          raised := RetryLater(id, storageClaimed, payload);
        case WorkerUnavailable =>
          raised := RetryLater(id, storageClaimed, payload);
        case ReviewNeeded =>
          raised := Close(id, storageClaimed, Some("awaiting_review"), OutcomeAwaitingReview, RunningToReview);
        case Unknown =>
          raised := Close(id, storageClaimed, Some("unknown handler result"), OutcomeFailed, Complete(None, true));
        case Crashed =>
          // The handler's own error is handled where it is caught; a second one is not.
          var _ := Close(id, storageClaimed, Some("unexpected error"), OutcomeFailed, Complete(None, true));
          raised := false;
      }
    }

    /** _dispatch_task. Without errors both stores are left as the fate of the task says; with nobody else
        at work, its fate is decided by the tables, the input and what dispatch is given. */
    method DispatchTask(id: Id, given: Given) returns (fate: Fate)
      requires Inv()
      modifies this`runs, this`seals, this`overruled, machine, storage, scheduler
      ensures Inv() && Onward()
      ensures machine.Quiet() && old(CellOf(id).state == Some(Queued) && InReach(CellOf(id))) ==>
        Rested(CellOf(id))
      ensures machine.Quiet() ==> LeftAs(fate, old(CellOf(id)), CellOf(id))
      ensures machine.Undisturbed() ==>
        Decided(fate, given, ClaimPermitted(old(scheduler.Tables()), id),
                !old(CellOf(id)).staged || old(InPlace(CellOf(id))),
                StartsOn(old(scheduler.Tables()), scheduler.workers, given))
      ensures HasRun(id, fate, old(CellOf(id)).staged)
    {
      ghost var was := CellOf(id);
      var taken := TakeTask(id, given);
      if !taken {
        return NotClaimed;
      }
      ghost var mid := CellOf(id);
      fate := DispatchTaken(id, given);
      if machine.Quiet() {
        SameInputBefore(fate, was, mid, CellOf(id));
      }
    }

    method TakeTask(id: Id, given: Given) returns (taken: bool)
      requires Inv()
      modifies machine, scheduler
      ensures Inv() && Onward()
      ensures machine.on && taken ==>
        CellOf(id) == old(CellOf(id)).(state := Some(Claimed)) && ClaimableOrTorn(health, CellOf(id))
      ensures machine.Quiet() && !taken ==> CellOf(id) == old(CellOf(id))
      ensures old(CellOf(id).state == Some(Queued) && InReach(CellOf(id))) ==> Rested(old(CellOf(id)))
      ensures machine.Quiet() ==> (taken <==> ClaimPermitted(old(scheduler.Tables()), id))
      ensures machine.Quiet() && taken ==>
        (StartsOn(scheduler.Tables(), scheduler.workers, given) <==>
         StartsOn(old(scheduler.Tables()), scheduler.workers, given))
    {
      assert Fine(id);
      ghost var db := scheduler.Tables();
      Taken(health, CellOf(id));
      var reply := ScheduleClaim(id);
      taken := reply == Done;
      if machine.Quiet() && taken && given.worker.Some? {
        ClaimTakesNoWorker(db, scheduler.Tables(), scheduler.workers, id, given.worker.value, given.capable,
                           given.startValid);
      }
    }

    method DispatchTaken(id: Id, given: Given) returns (fate: Fate)
      requires Inv()
      requires machine.on ==> CellOf(id).state == Some(Claimed)
      requires machine.on ==> ClaimableOrTorn(health, CellOf(id))
      modifies this`runs, this`seals, this`overruled, machine, storage, scheduler
      ensures Inv() && Onward() && fate != NotClaimed
      ensures machine.Quiet() && old(InReach(CellOf(id))) ==> Rested(CellOf(id))
      ensures machine.Quiet() ==> LeftAs(fate, old(CellOf(id)), CellOf(id))
      ensures machine.Undisturbed() ==>
        if given.manifestValid then
          Proceeds(fate, given, !old(CellOf(id)).staged || old(InPlace(CellOf(id))),
                   StartsOn(old(scheduler.Tables()), scheduler.workers, given))
        else fate.Invalid?
      ensures HasRun(id, fate, old(CellOf(id)).staged)
    {
      if given.manifestValid {
        fate := DispatchClaimed(id, given);
      } else {
        RejectClaimed(id);
        fate := Invalid;
      }
    }

    method RejectClaimed(id: Id)
      requires Inv()
      requires machine.on ==> CellOf(id).state == Some(Claimed)
      modifies machine, storage, scheduler
      ensures Inv() && Onward()
      ensures machine.Quiet() && old(InReach(CellOf(id))) ==> Rested(CellOf(id))
      ensures machine.Quiet() ==> LeftAs(Invalid, old(CellOf(id)), CellOf(id))
    {
      if machine.on {
        assert Fine(id);
        RejectedSafely(health, CellOf(id));
      }
      var _ := ScheduleLater(id, FailClaimed);
    }

    method DispatchClaimed(id: Id, given: Given) returns (fate: Fate)
      requires Inv()
      requires machine.on ==> CellOf(id).state == Some(Claimed)
      requires machine.on ==> ClaimableOrTorn(health, CellOf(id))
      modifies this`runs, this`seals, this`overruled, machine, storage, scheduler
      ensures Inv() && Onward()
      ensures fate in {NoInput, NotStarted, NoHandler} || fate.Ran?
      ensures machine.Quiet() && old(InReach(CellOf(id))) ==> Rested(CellOf(id))
      ensures machine.Quiet() ==> LeftAs(fate, old(CellOf(id)), CellOf(id))
      ensures machine.Undisturbed() ==>
        Proceeds(fate, given, !old(CellOf(id)).staged || old(InPlace(CellOf(id))),
                 StartsOn(old(scheduler.Tables()), scheduler.workers, given))
      ensures HasRun(id, fate, old(CellOf(id)).staged)
    {
      assert Fine(id);
      var staged := id in scheduler.tasks && scheduler.tasks[id].staged;
      if staged {
        var ok := ClaimStagedInput(id);
        if !ok {
          return NoInput;
        }
      }
      fate := StartClaimed(id, staged, given);
    }

    /** From a claimed task and input to a started worker, or back. */
    method StartClaimed(id: Id, storageClaimed: bool, given: Given) returns (fate: Fate)
      requires Inv()
      requires machine.on ==> InHand(CellOf(id), storageClaimed) && CellOf(id).state.value in {Claimed, Cancelled}
      modifies this`runs, this`seals, this`overruled, machine, storage, scheduler
      ensures Inv() && Onward()
      ensures fate in {NotStarted, NoHandler} || fate.Ran?
      ensures machine.Quiet() ==> Rested(CellOf(id)) && LeftAs(fate, old(CellOf(id)), CellOf(id))
      ensures machine.Undisturbed() && old(CellOf(id)).state == Some(Claimed) ==>
        Proceeds(fate, given, true, StartsOn(old(scheduler.Tables()), scheduler.workers, given))
      ensures HasRun(id, fate, storageClaimed)
    {
      if given.worker.None? {
        GiveBack(id, storageClaimed);
        return NotStarted;
      }
      fate := StartOn(id, storageClaimed, Start(given.worker.value, given.capable, given.startValid), given.handled);
    }

    method StartOn(id: Id, storageClaimed: bool, start: Call, handled: bool) returns (fate: Fate)
      requires Inv() && start.Start?
      requires machine.on ==> InHand(CellOf(id), storageClaimed) && CellOf(id).state.value in {Claimed, Cancelled}
      modifies this`runs, this`seals, this`overruled, machine, storage, scheduler
      ensures Inv() && Onward()
      ensures fate in {NotStarted, NoHandler} || fate.Ran?
      ensures machine.Quiet() ==> Rested(CellOf(id)) && LeftAs(fate, old(CellOf(id)), CellOf(id))
      ensures fate != NotStarted ==> if handled then fate.Ran? else fate.NoHandler?
      ensures machine.Undisturbed() ==>
        (fate != NotStarted <==> Admits(old(scheduler.Tables()), scheduler.workers, id, start))
      ensures HasRun(id, fate, storageClaimed)
    {
      ghost var was := CellOf(id);
      var reply := StartLater(id, storageClaimed, start);
      ghost var mid := CellOf(id);
      if reply == Done {
        fate := Execute(id, storageClaimed, handled);
      } else {
        fate := NotStarted;
        if reply == Refused {
          GiveBack(id, storageClaimed);
        }
      }
      if machine.Quiet() {
        SameInputBefore(fate, was, mid, CellOf(id));
      }
    }

    /** Move the input to processing before a worker can read it; a task whose input is not there to
        be claimed goes back to wait, and one whose claim failed is left for recovery. */
    method ClaimStagedInput(id: Id) returns (claimed: bool)
      requires Inv()
      requires machine.on ==> CellOf(id).state == Some(Claimed) && CellOf(id).staged
      requires machine.on ==> ClaimableOrTorn(health, CellOf(id))
      modifies this`seals, machine, storage, scheduler
      ensures Inv() && Onward()
      ensures machine.on && claimed ==> InHand(CellOf(id), true) && CellOf(id).state.value in {Claimed, Cancelled}
      ensures machine.Quiet() && !claimed && old(InReach(CellOf(id))) ==>
        Rested(CellOf(id))
      ensures machine.Quiet() && !claimed ==> LeftAs(NoInput, old(CellOf(id)), CellOf(id))
      ensures machine.Quiet() && claimed ==> old(InPlace(CellOf(id))) && CellOf(id).image.Some?
      ensures machine.Undisturbed() ==>
        (claimed <==> old(InPlace(CellOf(id)))) &&
        (claimed ==> scheduler.Tables() == old(scheduler.Tables()) && CellOf(id).state == Some(Claimed))
    {
      if machine.on {
        assert Fine(id);
        ClaimedOrNot(health, CellOf(id));
      }
      var reply := StoreClaimLater(id);
      claimed := reply == InputClaimed;
      if reply == NotAvailable {
        var _ := ScheduleLater(id, RequeueClaimed);
      }
    }

    /** The storage claim with other processes at work since the scheduler's. */
    method StoreClaimLater(id: Id) returns (reply: ClaimReply)
      requires Inv()
      requires machine.on ==> CellOf(id).state == Some(Claimed)
      modifies this`seals, machine, storage, scheduler
      ensures Inv() && Onward()
      ensures machine.on && reply.InputClaimed? ==>
        Known(old(CellOf(id))) && old(AtRest(CellOf(id).image.value)) &&
        OperatorMove(old(CellOf(id)), CellOf(id).(image := old(CellOf(id)).image)) &&
        CellOf(id).image == Some(Last(ClaimStages(old(CellOf(id)).image.value)))
      ensures machine.on && reply.NotAvailable? ==>
        !(Known(old(CellOf(id))) && old(AtRest(CellOf(id).image.value))) && OperatorMove(old(CellOf(id)), CellOf(id))
      ensures reply.ClaimRaised? ==> machine.faults > old(machine.faults)
      ensures machine.Undisturbed() ==> scheduler.Tables() == old(scheduler.Tables())
    {
      ghost var was := CellOf(id);
      OthersAround(id);
      if machine.on {
        StillTaken(was, CellOf(id));
        if Known(CellOf(id)) && AtRest(CellOf(id).image.value) {
          assert Fine(id);
          ClaimingIsSafe(health, CellOf(id));
        }
      }
      reply := StoreClaim(id);
    }

    // ---------- Whole lives ----------

    /** One pass of the daemon loop over whatever task selection returned. */
    method LoopOnce(id: Id)
      requires Inv() && !health.Restarting?
      modifies this`runs, this`seals, this`overruled, machine, storage, scheduler
      ensures Inv() && Onward()
    {
      if {
        case true =>
          var given: Given := *;
          var _ := DispatchTask(id, given);
        case true =>
          assert Fine(id);
          var _ := Schedule(id, Promote);
        case true => Others();
      }
    }

    method Loop(passes: nat)
      requires Inv() && !health.Restarting?
      modifies this`runs, this`seals, this`overruled, machine, storage, scheduler
      ensures Inv() && Onward()
    {
      var left := passes;
      while left > 0
        invariant Inv() && Onward()
      {
        var id: Id := *;
        LoopOnce(id);
        left := left - 1;
      }
    }

    /** One life of the daemon, and how its restart went. */
    method Life() returns (ghost restart: Restart)
      requires Inv()
      modifies this`runs, this`seals, this`overruled, this`health, machine, storage, scheduler
      ensures Inv() && Kept() && old(overruled) <= overruled
      ensures Recorded(old(machine.faults), [restart], machine.faults) && restart.before == old(machine.faults)
      ensures machine.faults == old(machine.faults) ==> overruled == old(overruled)
      ensures health == Spoiled <==> old(health) == Spoiled || Troubled(restart)
    {
      machine.on := true;
      NewLife();
      var up := StartUp();
      restart := Restart(up, old(machine.faults), machine.faults);
      if up {
        var passes: nat := *;
        Loop(passes);
      }
    }

    /** Any number of restarts, each cut short at any write, with any handler results, errors and
        operator actions in between. `log` says of each restart whether it came up, and what the error
        count was before and after it. */
    method Lives(restarts: nat) returns (ghost log: seq<Restart>)
      requires Inv()
      modifies this`runs, this`seals, this`overruled, this`health, machine, storage, scheduler
      ensures Inv() && Kept() && old(overruled) <= overruled
      ensures |log| == restarts && Recorded(old(machine.faults), log, machine.faults)
      ensures machine.faults == old(machine.faults) ==> overruled == old(overruled)
      ensures health == Spoiled <==> old(health) == Spoiled || AnyTroubled(log)
    {
      log := [];
      var left := restarts;
      while left > 0
        invariant Inv() && Kept() && old(overruled) <= overruled
        invariant 0 <= left && |log| + left == restarts && Recorded(old(machine.faults), log, machine.faults)
        invariant old(machine.faults) <= machine.faults
        invariant machine.faults == old(machine.faults) ==> overruled == old(overruled)
        invariant health == Spoiled <==> old(health) == Spoiled || AnyTroubled(log)
      {
        left := left - 1;
        ghost var restart := Life();
        RecordedOnce(old(machine.faults), log, restart, machine.faults);
        log := log + [restart];
      }
    }

    ghost method Watch(id: Id)
      requires Inv()
      modifies this`known, this`over
      ensures Inv() && CellOf(id) == old(CellOf(id))
      ensures Known(CellOf(id)) ==> id in known
      ensures Over(CellOf(id)) ==> id in over && over[id] == CellOf(id)
    {
      if Known(CellOf(id)) {
        known := known + {id};
      }
      if Over(CellOf(id)) {
        over := over[id := CellOf(id)];
      }
      forall other ensures Fine(other) {
        assert old(Fine(other));
      }
    }

    /** Over any lives no staged input with a row is lost, and a task that is over with its input filed
        stays as it is: in particular a lost result stays lost. */
    method LivesCarry(id: Id, restarts: nat)
      requires Inv()
      modifies this, machine, storage, scheduler
      ensures Inv() && Kept() && Carried(old(CellOf(id)), CellOf(id))
    {
      Watch(id);
      assert CellOf(id) == old(CellOf(id));
      ghost var log := Lives(restarts);
      assert Fine(id);
    }

    /** After any lives in which no restart came up in spite of an error, a restart without errors
        leaves every known input at its documented resting place, except exactly the torn ones. */
    method LivesThenRestart(restarts: nat) returns (ghost log: seq<Restart>)
      requires Inv() && health != Spoiled
      modifies this`runs, this`seals, this`overruled, this`health, machine, storage, scheduler
      ensures Inv() && Kept()
      ensures |log| == restarts + 1 && Recorded(old(machine.faults), log, machine.faults)
      ensures var last := log[restarts];
        !AnyTroubled(log[..restarts]) && last.after == last.before && machine.on ==>
          last.up && forall id :: Settled(CellOf(id)) <==> !(Known(CellOf(id)) && Torn(CellOf(id).image.value))
    {
      ghost var earlier := Lives(restarts);
      machine.on := true;
      NewLife();
      ghost var before := machine.faults;
      label Again:
      var up := StartUp();
      ghost var last := Restart(up, before, machine.faults);
      if !AnyTroubled(earlier) && machine.faults == before && machine.on {
        forall id ensures Settled(CellOf(id)) <==> !(Known(CellOf(id)) && Torn(CellOf(id).image.value)) {
          assert old@Again(Fine(id));
          TornStaysTorn(old@Again(CellOf(id)));
        }
      }
      RecordedOnce(old(machine.faults), earlier, last, machine.faults);
      DropAppended(earlier, last);
      log := earlier + [last];
    }

    /** Whatever keeps the seals: once an outcome is recorded, its handler is never started again, the
        record does not change, and the scheduler only ever moves the task to the matching state; a task
        whose outcome asks for a review succeeds only by the operator's approval. */
    twostate lemma OutcomeIsFinal(id: Id)
      requires old(Inv()) && Inv() && Kept()
      requires old(Known(CellOf(id))) && old(Finished(CellOf(id).image.value.meta.outcome))
      ensures Runs(id) == old(Runs(id)) && Known(CellOf(id))
      ensures CellOf(id).image.value.meta.outcome == old(CellOf(id).image.value.meta.outcome)
      ensures CellOf(id).image.value.meta.result == old(CellOf(id).image.value.meta.result)
      ensures FollowsOutcome(CellOf(id), old(CellOf(id).image.value.meta.outcome),
                             old(CellOf(id).image.value.meta.result))
      ensures old(CellOf(id).image.value.meta.outcome) == OutcomeAwaitingReview ==>
        (CellOf(id).state == Some(Succeeded) ==> scheduler.RulingOf(id) == Approved)
    {
      assert old(Fine(id)) && Fine(id);
      SoundFollowsOutcome(CellOf(id));
    }
  }

  // ---------- What a scheduler call leaves in the tables ----------

  predicate SameRows(db: Db, db': Db) {
    db'.tasks == db.tasks && db'.attempts == db.attempts
  }

  predicate RowIssued(db: Db, db': Db, id: Id, call: Call) {
    id in db.tasks && id in db'.tasks && db'.tasks == db.tasks[id := db'.tasks[id]] &&
    db'.tasks[id].state == CallTo(call) && db'.tasks[id].staged == db.tasks[id].staged
  }

  predicate AttemptsIssued(db: Db, db': Db, id: Id, call: Call) {
    db'.attempts == match call
      case Start(profile, _, _) => Closed(db.attempts, id) + [Attempt(id, profile, true, None)]
      case Complete(result, _) => Closed(db.attempts, id, result)
      case RunningToRetry(result) => Closed(db.attempts, id, result)
      case RunningToReview => Closed(db.attempts, id)
      case _ => db.attempts
  }

  predicate Issued(db: Db, db': Db, id: Id, call: Call) {
    id in db.tasks && CallFrom(call, db.tasks[id].state) &&
    RowIssued(db, db', id, call) && AttemptsIssued(db, db', id, call)
  }

  /** Row and attempts of a call that was perhaps cut short. */
  predicate IssuedPartly(db: Db, db': Db, id: Id, call: Call) {
    id in db.tasks && CallFrom(call, db.tasks[id].state) &&
    (db'.tasks == db.tasks || RowIssued(db, db', id, call)) &&
    (db'.attempts == db.attempts || AttemptsIssued(db, db', id, call)) &&
    match call
    case Complete(_, _) => db'.attempts == db.attempts || RowIssued(db, db', id, call)
    case RunningToRetry(_) => db'.tasks == db.tasks || AttemptsIssued(db, db', id, call)
    case RunningToReview => true
    case _ => SameRows(db, db') || Issued(db, db', id, call)
  }

  /** The specification of a scheduler method is the whole effect of its call. */
  lemma MoveIssued(db: Db, id: Id, to: TaskState, retryAt: Option<Option<nat>>, name: string, result: Option<string>,
                   call: Call, workers: Workers)
    requires id in db.tasks && CallFrom(call, db.tasks[id].state) ==>
      to == CallTo(call) && !call.Start? &&
      result == (if call.Complete? || call.RunningToRetry? then call.result else None)
    ensures id in db.tasks && CallFrom(call, db.tasks[id].state) ==>
      var full := if retryAt.None? then MovedTo(db, id, to, name, None, result)
                  else MovedAt(db, id, to, retryAt.value, name, result);
      Issued(db, full, id, call) && Issued(db, WithReadyRecorded(full, workers), id, call)
  {
  }

  function SlipOf(a: Option<Attempt>): Option<Slip> {
    if a.Some? then Some(Slip(a.value.open, a.value.result)) else None
  }

  function Shown(db: Db, id: Id, image: Option<Image>, overruled: bool, ruling: Ruling): Cell {
    Cell(StateOf(db, id), id in db.tasks && db.tasks[id].staged, SlipOf(Newest(db.attempts, id)), image, overruled,
         ruling)
  }

  function RulingAfter(call: Call, ruling: Ruling): Ruling {
    if call == Approve then Approved else if call == Reject then Rejected else ruling
  }

  /** A call shows in its own task only. */
  lemma OthersUnseen(db: Db, db': Db, id: Id, call: Call)
    requires SameRows(db, db') || IssuedPartly(db, db', id, call)
    ensures forall other, image, o, r :: other != id ==> Shown(db', other, image, o, r) == Shown(db, other, image, o, r)
  {
    forall other, image, o, r | other != id ensures Shown(db', other, image, o, r) == Shown(db, other, image, o, r) {
      AttemptsSeen(db, db', id, call, other);
    }
  }

  /** Row and attempts after a call, by whether the machine was and is on, and whether nothing failed. */
  predicate PerformedAs(db: Db, db': Db, id: Id, call: Call, reply: Reply, wasOn: bool, on: bool, quiet: bool) {
    (SameRows(db, db') || (wasOn && IssuedPartly(db, db', id, call))) &&
    (on && reply == Done ==>
      IssuedPartly(db, db', id, call) && RowIssued(db, db', id, call) &&
      (call.RunningToReview? || AttemptsIssued(db, db', id, call))) &&
    (quiet ==>
      if reply == Done then Issued(db, db', id, call)
      else SameRows(db, db') && (Conditional(call) || id !in db'.tasks || !CallFrom(call, db'.tasks[id].state)))
  }

  predicate AnsweredAs(was: Cell, now: Cell, call: Call, reply: Reply, wasOn: bool, on: bool, quiet: bool) {
    (now == was || (wasOn && Reached(was, call, now))) &&
    (on && reply == Done ==> Landed(was, call, now)) &&
    (quiet ==>
      if reply == Done then Called(was, call, now)
      else now == was && (Conditional(call) || !Applies(call, was)))
  }

  /** A call that came after what other processes may have done to its task. */
  predicate LaterAs(was: Cell, now: Cell, call: Call, reply: Reply, quiet: bool) {
    (OperatorMove(was, now) || Reached(was, call, now)) &&
    (reply == Done ==> Landed(was, call, now)) &&
    (quiet && reply == Done ==> Called(was, call, now)) &&
    (quiet && reply != Done ==> OperatorMove(was, now) && (Conditional(call) || !Applies(call, now))) &&
    (quiet && CallFrom(call, Running) && was.state == Some(Running) ==> reply == Done)
  }

  lemma LaterAnswer(was: Cell, mid: Cell, now: Cell, call: Call, reply: Reply, quiet: bool)
    requires was.state.Some? && OperatorMove(was, mid) && AnsweredAs(mid, now, call, reply, true, true, quiet)
    ensures LaterAs(was, now, call, reply, quiet)
  {
    OperatorMovesAreFinal(was, mid, call);
  }

  lemma CallSeen(db: Db, db': Db, id: Id, call: Call, reply: Reply, wasOn: bool, on: bool, quiet: bool,
                 image: Option<Image>, overruled: bool, before: Ruling, after: Ruling)
    requires PerformedAs(db, db', id, call, reply, wasOn, on, quiet)
    requires after == if db'.tasks == db.tasks then before else RulingAfter(call, before)
    ensures AnsweredAs(Shown(db, id, image, overruled, before), Shown(db', id, image, overruled, after), call, reply,
                       wasOn, on, quiet)
  {
    PartlySeen(db, db', id, call, image, overruled, before, after);
    if on && reply == Done {
      LandingSeen(db, db', id, call, image, overruled, before, after);
    }
    if quiet && reply == Done {
      WholeSeen(db, db', id, call, image, overruled, before);
    }
  }

  /** It shows as one of the states it passes through. */
  lemma PartlySeen(db: Db, db': Db, id: Id, call: Call, image: Option<Image>, overruled: bool, before: Ruling,
                   after: Ruling)
    requires SameRows(db, db') || IssuedPartly(db, db', id, call)
    requires after == if db'.tasks == db.tasks then before else RulingAfter(call, before)
    ensures var was, now := Shown(db, id, image, overruled, before), Shown(db', id, image, overruled, after);
      (now == was || Reached(was, call, now)) && (SameRows(db, db') ==> now == was)
  {
    if !SameRows(db, db') {
      AttemptsSeen(db, db', id, call, id);
      var was, now := Shown(db, id, image, overruled, before), Shown(db', id, image, overruled, after);
      assert now == was.(state := now.state, last := now.last, ruling := now.ruling);
      PartsAddUp(was, now, call, db'.tasks != db.tasks, db'.attempts != db.attempts);
    }
  }

  /** The row, the attempts, or both have moved on. */
  lemma PartsAddUp(was: Cell, now: Cell, call: Call, row: bool, attempts: bool)
    requires Applies(call, was) && now == was.(state := now.state, last := now.last, ruling := now.ruling)
    requires now.ruling == if row then RulingAfter(call, was.ruling) else was.ruling
    requires now.state == if row then Some(CallTo(call)) else was.state
    requires attempts ==> now.last == LastAfter(call, was.last)
    requires !attempts ==> now.last == was.last || now.last == LastAfter(call, was.last)
    requires !call.Complete? && !call.RunningToRetry? && !call.RunningToReview? ==>
      now.last == if row then LastAfter(call, was.last) else was.last
    requires call.Complete? && !row ==> now.last == was.last
    requires call.RunningToRetry? && row ==> now.last == LastAfter(call, was.last)
    ensures now == was || Reached(was, call, now)
  {
  }

  lemma WholeSeen(db: Db, db': Db, id: Id, call: Call, image: Option<Image>, overruled: bool, before: Ruling)
    requires Issued(db, db', id, call)
    ensures Called(Shown(db, id, image, overruled, before), call,
                   Shown(db', id, image, overruled, RulingAfter(call, before)))
  {
    AttemptsSeen(db, db', id, call, id);
  }

  lemma LandingSeen(db: Db, db': Db, id: Id, call: Call, image: Option<Image>, overruled: bool, before: Ruling,
                    after: Ruling)
    requires after == if db'.tasks == db.tasks then before else RulingAfter(call, before)
    requires IssuedPartly(db, db', id, call) && RowIssued(db, db', id, call)
    requires call.RunningToReview? || AttemptsIssued(db, db', id, call)
    ensures Landed(Shown(db, id, image, overruled, before), call, Shown(db', id, image, overruled, after))
  {
    AttemptsSeen(db, db', id, call, id);
  }

  /** What the attempts of a call show of the newest attempt of any task. */
  lemma AttemptsSeen(db: Db, db': Db, id: Id, call: Call, other: Id)
    requires db'.attempts == db.attempts || AttemptsIssued(db, db', id, call)
    ensures other != id ==> SlipOf(Newest(db'.attempts, other)) == SlipOf(Newest(db.attempts, other))
    ensures AttemptsIssued(db, db', id, call) ==>
      SlipOf(Newest(db'.attempts, id)) == LastAfter(call, SlipOf(Newest(db.attempts, id)))
  {
    var result := if call.Complete? || call.RunningToRetry? then call.result else None;
    NewestClosed(db.attempts, id, result, other);
    NewestClosed(db.attempts, id, result, id);
    if call.Start? {
      DropAppended(Closed(db.attempts, id), Attempt(id, call.profile, true, None));
    }
  }

  function After(c: Cell, call: Call): Cell {
    c.(state := Some(CallTo(call)), last := LastAfter(call, c.last), ruling := RulingAfter(call, c.ruling))
  }

  /** The states a call passes through, the last included; the row or the attempts may be missing
      where the source writes them one by one. */
  predicate Reached(was: Cell, call: Call, now: Cell) {
    Applies(call, was) &&
    (now == After(was, call) ||
     (call.Complete? && now == was.(state := Some(CallTo(call)))) ||
     (call.RunningToRetry? && now == was.(last := LastAfter(call, was.last))) ||
     (call.RunningToReview? &&
      (now == was.(state := Some(CallTo(call))) || now == was.(last := LastAfter(call, was.last)))))
  }

  lemma ReachedFits(health: Health, was: Cell, call: Call, now: Cell)
    requires Reached(was, call, now) && CallFits(health, was, call)
    ensures Healthy(health, now) && Carried(was, now) && now.image == was.image
  {
  }

  /** A call that reports success: only the closing of attempts before a review may be missing. */
  predicate Landed(was: Cell, call: Call, now: Cell) {
    Called(was, call, now) ||
    (Applies(call, was) && call.RunningToReview? && now == was.(state := Some(CallTo(call))))
  }

  predicate CallFits(health: Health, c: Cell, call: Call) {
    Healthy(health, After(c, call)) &&
    (call.Complete? || call.RunningToReview? ==> Healthy(health, c.(state := Some(CallTo(call))))) &&
    (call.RunningToRetry? || call.RunningToReview? ==> Healthy(health, c.(last := LastAfter(call, c.last))))
  }

  /** The scheduler call recovery makes for a recorded outcome. */
  function Closing(outcome: Outcome, result: Option<string>): Call {
    match outcome
    case OutcomeSucceeded => Complete(result, false)
    case OutcomeAwaitingReview => RunningToReview
    case _ => Complete(None, true)
  }

  /** The scheduler calls dispatch pairs with a recorded outcome. */
  predicate Closes(outcome: Outcome, payload: Option<string>, call: Call) {
    match outcome
    case OutcomeSucceeded => call == Complete(payload, false)
    case OutcomeFailed => call.Complete? && call.failed
    case OutcomeAwaitingReview => call == RunningToReview
    case _ => false
  }

  /** The input is where a claim finds it. */
  predicate InPlace(c: Cell) {
    c.image.Some? && c.image.value.dir == Incoming && c.image.value.meta.status == InputAccepted
  }

  predicate StartsOn(db: Db, workers: Workers, given: Given) {
    given.worker.Some? && WorkerFree(db, workers, given.worker.value, given.capable, given.startValid)
  }

  /** The fate of a claimed task with a valid manifest: `here` says that the input, if there has to be
      one, is in place, `free` that the selected worker may start. */
  predicate Proceeds(fate: Fate, given: Given, here: bool, free: bool) {
    (fate.NoInput? <==> !here) &&
    (fate.NotStarted? <==> here && !free) &&
    (fate.NoHandler? <==> here && free && !given.handled) &&
    (fate.Ran? <==> here && free && given.handled)
  }

  predicate Decided(fate: Fate, given: Given, permitted: bool, here: bool, free: bool) {
    (fate.NotClaimed? <==> !permitted) &&
    (fate.Invalid? <==> permitted && !given.manifestValid) &&
    (permitted && given.manifestValid ==> Proceeds(fate, given, here, free))
  }

  /** How both stores are left, fate by fate. Until its start an operator may still cancel the task. */
  predicate LeftAs(fate: Fate, was: Cell, now: Cell) {
    (was.image.Some? <==> now.image.Some?) &&
    match fate
    case NotClaimed => now == was
    case Invalid => now.state in {Some(FailedTerminal), Some(Cancelled)} && now.image == was.image
    case NoInput => now.state in {Some(RetryWait), Some(Cancelled)} && now.image == was.image
    case NotStarted => now.state in {Some(RetryWait), Some(Cancelled)} && Back(now)
    case NoHandler => LeftWith(OutcomeFailed, now)
    case Ran(Success) => LeftWith(OutcomeSucceeded, now)
    case Ran(Retry) => LeftWith(OutcomeRetryWait, now)
    case Ran(WorkerUnavailable) => LeftWith(OutcomeRetryWait, now)
    case Ran(ReviewNeeded) => LeftWith(OutcomeAwaitingReview, now)
    case Ran(_) => LeftWith(OutcomeFailed, now)
  }

  /** The input waits in incoming for a retry. */
  predicate Back(c: Cell) {
    c.image.Some? ==> c.image.value.dir == Incoming && c.image.value.meta.status == InputAccepted
  }

  predicate FiledAs(c: Cell, outcome: Outcome) {
    c.image.Some? ==>
      c.image.value.dir == Processed && c.image.value.meta.status == InputProcessed &&
      c.image.value.meta.outcome == outcome
  }

  /** Both stores show the outcome, or wait again for a retry; no attempt is left open. */
  predicate LeftWith(outcome: Outcome, c: Cell) {
    Rested(c) && !HasOpen(c) &&
    match outcome
    case OutcomeSucceeded =>
      c.state == Some(Succeeded) && FiledAs(c, OutcomeSucceeded) &&
      (c.image.Some? ==> c.last == Some(Slip(false, c.image.value.meta.result)))
    case OutcomeAwaitingReview => c.state == Some(AwaitingReview) && FiledAs(c, OutcomeAwaitingReview)
    case OutcomeFailed => c.state == Some(FailedTerminal) && FiledAs(c, OutcomeFailed)
    case OutcomeRetryWait => c.state == Some(RetryWait) && Back(c)
    case NoOutcome => false
  }

  lemma RetryingFits(health: Health, c: Cell, call: Call)
    requires Healthy(health, c) && health != Clean && Known(c) && Waiting(c.image.value)
    requires (c.state.value == Running && call == RunningToRetry(None)) ||
      (c.state.value == Claimed && call == RequeueClaimed)
    ensures CallFits(health, c, call) && After(c, call) == AsRetrying(c) && !Conditional(call) && Applies(call, c)
  {
  }

  lemma SameInputBefore(fate: Fate, was: Cell, mid: Cell, now: Cell)
    requires LeftAs(fate, mid, now) && mid.image == was.image && fate != NotClaimed
    ensures LeftAs(fate, was, now)
  {
  }

  lemma ClosingConcludes(health: Health, c: Cell)
    requires Known(c) && Sound(c) && c.state.value == Running && Filed(c.image.value)
    requires Finished(c.image.value.meta.outcome)
    ensures After(c, Closing(c.image.value.meta.outcome, c.image.value.meta.result)) == Concluded(c)
    ensures CallFits(health, c, Closing(c.image.value.meta.outcome, c.image.value.meta.result))
  {
  }

  predicate Applies(call: Call, c: Cell) {
    c.state.Some? && CallFrom(call, c.state.value)
  }

  predicate OperatorMove(was: Cell, now: Cell) {
    now == was || Called(was, Cancel, now) || Called(was, Approve, now) || Called(was, Reject, now)
  }

  lemma OperatorMovesCompose(a: Cell, b: Cell, c: Cell)
    requires OperatorMove(a, b) && OperatorMove(b, c)
    ensures OperatorMove(a, c)
  {
  }

  lemma OperatorMovesAreFinal(was: Cell, now: Cell, call: Call)
    requires OperatorMove(was, now)
    ensures Applies(call, now) || was.state == Some(Running) ==> now == was
  {
  }

  // ---------- What dispatch relies on, case by case ----------

  lemma Taken(health: Health, c: Cell)
    requires Healthy(health, c)
    ensures InReach(c) && c.state == Some(Queued) ==> Rested(c)
    ensures Applies(Claim, c) ==>
      CallFits(health, c, Claim) && ClaimableOrTorn(health, After(c, Claim)) &&
      (InReach(c) ==> InReach(After(c, Claim)))
  {
  }

  lemma RejectedSafely(health: Health, c: Cell)
    requires Healthy(health, c) && c.state == Some(Claimed)
    ensures CallFits(health, c, FailClaimed) && LeftAs(Invalid, c, After(c, FailClaimed))
    ensures InReach(c) ==> Rested(After(c, FailClaimed))
    ensures forall c2 :: OperatorMove(c, c2) && !Applies(FailClaimed, c2) ==>
      LeftAs(Invalid, c, c2) && (InReach(c) ==> Rested(c2))
  {
  }

  lemma GivenBack(health: Health, c: Cell, storageClaimed: bool)
    requires Healthy(health, c) && InHand(c, storageClaimed) && c.state.value in {Claimed, Cancelled, Running}
    ensures var c1 := if storageClaimed then c.(image := Some(Last(RequeueStages(c.image.value)))) else c;
      CallFits(health, c1, RequeueClaimed) &&
      (c.state.value == Claimed ==>
        Rested(After(c1, RequeueClaimed)) && LeftAs(NotStarted, c, After(c1, RequeueClaimed))) &&
      forall c2 :: OperatorMove(c1, c2) && !Applies(RequeueClaimed, c2) && c.state.value != Running ==>
        Rested(c2) && LeftAs(NotStarted, c, c2)
  {
  }

  lemma ClosedDown(health: Health, c: Cell, storageClaimed: bool, payload: Option<string>, outcome: Outcome, call: Call)
    requires Healthy(health, c) && InHand(c, storageClaimed) && c.state.value == Running
    requires Closes(outcome, payload, call)
    ensures var c1 :=
        if storageClaimed then c.(image := Some(Last(CompletionStages(c.image.value, payload, outcome)))) else c;
      CallFits(health, c1, call) && LeftWith(outcome, After(c1, call)) && OutOfHand(c1, storageClaimed)
  {
  }

  lemma StaysOutOfHand(c: Cell, c2: Cell, call: Call, storageClaimed: bool)
    requires OutOfHand(c, storageClaimed) && (OperatorMove(c, c2) || Reached(c, call, c2))
    ensures OutOfHand(c2, storageClaimed)
  {
  }

  lemma RetriedLater(health: Health, c: Cell, storageClaimed: bool, payload: Option<string>)
    requires Healthy(health, c) && InHand(c, storageClaimed) && c.state.value == Running
    ensures var c1 := if storageClaimed then c.(image := Some(Last(RequeueStages(c.image.value)))) else c;
      CallFits(health, c1, RunningToRetry(payload)) && LeftWith(OutcomeRetryWait, After(c1, RunningToRetry(payload))) &&
      OutOfHand(c1, storageClaimed)
  {
  }

  /** The closing call has been made: the input is filed, or back in incoming. */
  predicate OutOfHand(c: Cell, storageClaimed: bool) {
    c.state.Some? && c.image.Some? == storageClaimed &&
    (storageClaimed ==> Filed(c.image.value) || AtRest(c.image.value))
  }

  lemma NothingToFile(health: Health, c: Cell, storageClaimed: bool)
    requires Healthy(health, c) && OutOfHand(c, storageClaimed) && storageClaimed
    ensures forall result, outcome :: StagesFit(health, c, CompletionStages(c.image.value, result, outcome))
    ensures forall result, outcome :: Last(CompletionStages(c.image.value, result, outcome)) == c.image.value
  {
  }

  lemma FailingIsSafe(health: Health, c: Cell)
    requires Healthy(health, c) && (c.state == Some(Running) ==> c.overruled)
    requires c.image.Some? ==> Filed(c.image.value)
    ensures Applies(Complete(None, true), c) ==> CallFits(health, c, Complete(None, true))
  {
  }

  lemma ClaimedOrNot(health: Health, c: Cell)
    requires Healthy(health, c) && c.state == Some(Claimed) && ClaimableOrTorn(health, c)
    ensures Known(c) && AtRest(c.image.value) ==>
      forall c2: Cell ::
        OperatorMove(c, c2.(image := c.image)) && c2.image == Some(Last(ClaimStages(c.image.value))) ==>
        InHand(c2, true) && c2.state.value in {Claimed, Cancelled}
    ensures !(Known(c) && AtRest(c.image.value)) ==>
      CallFits(health, c, RequeueClaimed) && (InReach(c) ==> Rested(After(c, RequeueClaimed))) &&
      LeftAs(NoInput, c, After(c, RequeueClaimed)) &&
      (forall c1 :: OperatorMove(c, c1) && Applies(RequeueClaimed, c1) ==> c1 == c) &&
      (forall c1 :: OperatorMove(c, c1) && !Applies(RequeueClaimed, c1) ==>
         c1.state == Some(Cancelled) && LeftAs(NoInput, c, c1) && (InReach(c) ==> Rested(c1)) &&
         forall c2 :: OperatorMove(c1, c2) ==> c2 == c1)
  {
  }

  lemma StillTaken(was: Cell, now: Cell)
    requires OperatorMove(was, now) && was.state == Some(Claimed)
    ensures now.image == was.image && Known(now) == Known(was)
    ensures now.state.Some? && now.state.value in {Claimed, Cancelled}
  {
  }

  lemma StartedOrNot(health: Health, c: Cell, storageClaimed: bool, call: Call)
    requires Healthy(health, c) && InHand(c, storageClaimed) && c.state.value in {Claimed, Cancelled} && call.Start?
    ensures Applies(call, c) ==> CallFits(health, c, call)
    ensures forall c2 :: OperatorMove(c, c2) ==>
      InHand(c2, storageClaimed) && c2.state.value in {Claimed, Cancelled} && c2.image == c.image
    ensures forall c2 :: Reached(c, call, c2) ==>
      InHand(c2, storageClaimed) && c2.state.value == Running && c2.image == c.image
  {
  }

  lemma SameRowsSeen(db: Db, db': Db)
    requires SameRows(db, db')
    ensures forall id, image, o, r :: Shown(db', id, image, o, r) == Shown(db, id, image, o, r)
  {
  }

  lemma AdmissionSeen(db: Db, db': Db, id: Id, row: Task)
    requires SameRows(db, db') || (id !in db.tasks && db'.tasks == db.tasks[id := row] && db'.attempts == db.attempts)
    ensures forall other, image, o, r :: other != id ==> Shown(db', other, image, o, r) == Shown(db, other, image, o, r)
    ensures forall image, o, r ::
      Shown(db', id, image, o, r) == Shown(db, id, image, o, r) ||
      (id !in db.tasks &&
       Shown(db', id, image, o, r) == Shown(db, id, image, o, r).(state := Some(row.state), staged := row.staged))
  {
  }

  /** Calls the scheduler may refuse although the task is in the right state. */
  predicate Conditional(call: Call) {
    call in {Claim, Promote, Approve} || call.Start?
  }

  /** What the scheduler asks of a claim or a start beside its own tables. */
  predicate Admits(db: Db, workers: Workers, id: Id, call: Call) {
    match call
    case Claim => ClaimPermitted(db, id)
    case Start(profile, capable, valid) => StartPermitted(db, workers, id, profile, capable, valid)
    case _ => true
  }

  /** A claim takes no worker. */
  lemma ClaimTakesNoWorker(db: Db, db': Db, workers: Workers, id: Id, profile: string, capable: bool, valid: bool)
    requires Issued(db, db', id, Claim) && db'.controls == db.controls
    ensures WorkerFree(db', workers, profile, capable, valid) == WorkerFree(db, workers, profile, capable, valid)
  {
    forall a, r: string ensures RunsOn(db', workers, a, r) == RunsOn(db, workers, a, r) {
      assert StateOf(db', a.task) == Some(Running) <==> StateOf(db, a.task) == Some(Running);
    }
    assert forall r :: ResourceInUse(db', workers, r) == ResourceInUse(db, workers, r);
  }

  predicate Called(was: Cell, call: Call, now: Cell) {
    Applies(call, was) && now == After(was, call)
  }
}
