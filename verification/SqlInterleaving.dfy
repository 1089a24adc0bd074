// The scheduler under concurrent callers. Connections run in autocommit, so outside
// the explicit transactions every SQL statement is a step of its own and any other
// caller's statements may fall between a SELECT and the UPDATE that relies on it.
// A run is an arbitrary sequence of such steps by any number of callers.
module SqlInterleaving {
  import opened Prelude
  import opened SchedulerState
  import opened EventReplay
  import opened ReadyAudit
  import opened SchedulerService

  /** The tables, and every (task, state) pair some caller may have read by now. */
  datatype Sys = Sys(db: Db, seen: set<(Id, TaskState)>)

  datatype Step =
    | InsertTask(id: Id, row: Task)
    | Update(id: Id, read: TaskState, to: TaskState)   // SET state = to WHERE id, after a SELECT that saw `read`
    | ApproveGuarded(id: Id)                           // ... WHERE id AND state = 'awaiting_review'
    | CloseAttempts(id: Id, result: Option<string>)
    | InsertEvent(event: Event)
    | ClaimTransaction(id: Id)
    | StartTransaction(id: Id, profile: string, capable: bool, manifestValid: bool)
    | CancelTransaction(id: Id)
    | FailClaimedTransaction(id: Id)
    | ControlTransaction(control: Control, on: bool)
    | ReadyTransaction

  /** The unguarded updates of the source: the state its SELECT insists on, and the state it writes. */
  predicate UnguardedUpdate(read: TaskState, to: TaskState) {
    match read
    case Running => to in {Succeeded, FailedTerminal, RetryWait, AwaitingReview}
    case Claimed => to == RetryWait
    case RetryWait => to == Queued
    case AwaitingReview => to in {Queued, FailedTerminal}
    case _ => false
  }

  function SetState(db: Db, id: Id, to: TaskState): Db
    requires id in db.tasks
  {
    db.(tasks := db.tasks[id := db.tasks[id].(state := to)])
  }

  function Next(s: Sys, step: Step, workers: Workers): Db {
    var db := s.db;
    match step
    case InsertTask(id, row) =>
      if id !in db.tasks && row.state == Queued then db.(tasks := db.tasks[id := row]) else db
    case Update(id, read, to) =>
      if id in db.tasks && (id, read) in s.seen && UnguardedUpdate(read, to) then SetState(db, id, to) else db
    case ApproveGuarded(id) =>
      if StateOf(db, id) == Some(AwaitingReview) then SetState(db, id, Succeeded) else db
    case CloseAttempts(id, result) => db.(attempts := Closed(db.attempts, id, result))
    case InsertEvent(event) => db.(events := db.events + [event])
    case ClaimTransaction(id) =>
      if ClaimPermitted(db, id) then SetState(db, id, Claimed) else db
    case StartTransaction(id, profile, capable, manifestValid) =>
      if StartPermitted(db, workers, id, profile, capable, manifestValid)
      then Moved(db, id, db.tasks[id].(state := Running), "task_started", Some(profile)) else db
    case CancelTransaction(id) =>
      if id in db.tasks && Allowed(db.tasks[id].state, Cancelled)
      then Moved(db, id, db.tasks[id].(state := Cancelled), "task_cancelled", None) else db
    case FailClaimedTransaction(id) =>
      if StateOf(db, id) == Some(Claimed)
      then Moved(db, id, db.tasks[id].(state := FailedTerminal), "task_rejected", None) else db
    case ControlTransaction(c, on) => WithControl(db, workers, c, on)
    case ReadyTransaction => WithReadyRecorded(db, workers)
  }

  function Taken(s: Sys, step: Step, workers: Workers): Sys {
    var db := Next(s, step, workers);
    Sys(db, s.seen + set id | id in db.tasks :: (id, db.tasks[id].state))
  }

  function Run(s: Sys, steps: seq<Step>, workers: Workers): Sys {
    if steps == [] then s
    else Taken(Run(s, steps[..|steps| - 1], workers), steps[|steps| - 1], workers)
  }

  // ---------- One caller alone ----------

  /** With nobody in between, the statements of complete_task add up to the call, and so do those of a
      transition from running without a retry time. */
  lemma CompletionAddsUp(s: Sys, id: Id, to: TaskState, result: Option<string>, name: string, drains: bool,
                         workers: Workers)
    requires StateOf(s.db, id) == Some(Running) && (id, Running) in s.seen
    requires to in {Succeeded, FailedTerminal, AwaitingReview}
    ensures var s1 := Taken(s, Update(id, Running, to), workers);
      var s2 := Taken(s1, CloseAttempts(id, result), workers);
      var s3 := Taken(s2, InsertEvent(Event(id, name, Some(Running), to)), workers);
      var s4 := if drains then Taken(s3, ReadyTransaction, workers) else s3;
      s4.db == Drained(MovedTo(s.db, id, to, name, None, result), workers, drains)
  {
    var closed := Closed(s.db.attempts, id, result);
    assert closed + [] == closed;
  }

  /** The updates that no WHERE clause guards, whatever state the row has by then: the four out of running, the
      requeues of a claim and of a waiting task, and the two decisions about a reviewed task. */
  lemma UnguardedExactly(s: Sys, id: Id, read: TaskState, to: TaskState, workers: Workers)
    requires id in s.db.tasks && (id, read) in s.seen && StateOf(s.db, id) != Some(to)
    ensures StateOf(Next(s, Update(id, read, to), workers), id) == Some(to) <==>
      || (read == Running && (to == Succeeded || to == FailedTerminal || to == RetryWait || to == AwaitingReview))
      || (read == Claimed && to == RetryWait)
      || (read == RetryWait && to == Queued)
      || (read == AwaitingReview && (to == Queued || to == FailedTerminal))
  {
  }

  /** ... and those of a claim. */
  lemma ClaimAddsUp(s: Sys, id: Id, workers: Workers)
    requires ClaimPermitted(s.db, id)
    ensures var s1 := Taken(s, ClaimTransaction(id), workers);
      Taken(s1, InsertEvent(Event(id, "task_claimed", Some(Queued), Claimed)), workers).db ==
        MovedTo(s.db, id, Claimed, "task_claimed")
  {
    assert s.db.attempts + [] == s.db.attempts;
  }

  /** ... and those of the decisions about a reviewed task. */
  lemma DecisionAddsUp(s: Sys, id: Id, to: TaskState, name: string, workers: Workers)
    requires StateOf(s.db, id) == Some(AwaitingReview) && (id, AwaitingReview) in s.seen
    requires to in {Queued, FailedTerminal, Succeeded}
    ensures
      var s1 := Taken(s, if to == Succeeded then ApproveGuarded(id) else Update(id, AwaitingReview, to), workers);
      Taken(s1, InsertEvent(Event(id, name, Some(AwaitingReview), to)), workers).db == MovedTo(s.db, id, to, name)
  {
    assert s.db.attempts + [] == s.db.attempts;
  }

  lemma TransactionsAreCalls(s: Sys, id: Id, workers: Workers)
    ensures Taken(s, CancelTransaction(id), workers).db ==
      if StateOf(s.db, id) in {Some(Accepted), Some(Queued), Some(Claimed)}
      then MovedTo(s.db, id, Cancelled, "task_cancelled") else s.db
    ensures Taken(s, FailClaimedTransaction(id), workers).db ==
      if StateOf(s.db, id) == Some(Claimed) then MovedTo(s.db, id, FailedTerminal, "task_rejected") else s.db
  {
  }

  lemma StartAddsUp(s: Sys, id: Id, profile: string, capable: bool, manifestValid: bool, workers: Workers)
    requires StartPermitted(s.db, workers, id, profile, capable, manifestValid)
    ensures Taken(s, StartTransaction(id, profile, capable, manifestValid), workers).db ==
      MovedTo(s.db, id, Running, "task_started", Some(profile))
  {
  }

  // ---------- Exclusive resources ----------

  /** An open attempt of a running task on a resource, by its position. */
  predicate Occupies(db: Db, workers: Workers, i: nat, resource: string) {
    i < |db.attempts| && db.attempts[i].open &&
    StateOf(db, db.attempts[i].task) == Some(Running) &&
    db.attempts[i].worker in workers && workers[db.attempts[i].worker].resource == Some(resource)
  }

  /** At most one attempt, and so at most one running task, occupies any one exclusive resource. */
  ghost predicate Exclusive(db: Db, workers: Workers) {
    forall i: nat, j: nat, r {:trigger Occupies(db, workers, i, r), Occupies(db, workers, j, r)} ::
      Occupies(db, workers, i, r) && Occupies(db, workers, j, r) ==> i == j
  }

  /** An attempt that occupies a resource after a step did so before it, or was just started on it
      while no attempt of a running task, open or closed, was on it. */
  lemma OccupantsAfter(s: Sys, step: Step, workers: Workers, i: nat, r: string)
    requires Occupies(Next(s, step, workers), workers, i, r)
    ensures Occupies(s.db, workers, i, r) ||
      (step.StartTransaction? && i == |s.db.attempts| && UsesResource(workers, step.profile, r) &&
       StartPermitted(s.db, workers, step.id, step.profile, step.capable, step.manifestValid))
  {
  }

  lemma StepKeepsExclusive(s: Sys, step: Step, workers: Workers)
    requires "" !in workers && Exclusive(s.db, workers)
    ensures Exclusive(Next(s, step, workers), workers)
  {
    var db' := Next(s, step, workers);
    forall i: nat, j: nat, r | Occupies(db', workers, i, r) && Occupies(db', workers, j, r) ensures i == j {
      OccupantsAfter(s, step, workers, i, r);
      OccupantsAfter(s, step, workers, j, r);
      if !(Occupies(s.db, workers, i, r) && Occupies(s.db, workers, j, r)) && i != j {
        assert false;
      }
    }
  }

  /** Exclusivity holds after every run of every interleaving of every number of callers. */
  lemma {:induction false} ExclusiveAlways(s: Sys, steps: seq<Step>, workers: Workers)
    requires "" !in workers && Exclusive(s.db, workers)
    ensures Exclusive(Run(s, steps, workers).db, workers)
  {
    if steps != [] {
      var n := |steps| - 1;
      ExclusiveAlways(s, steps[..n], workers);
      StepKeepsExclusive(Run(s, steps[..n], workers), steps[n], workers);
    }
  }

  // ---------- Draining the P40 for planning ----------

  /** An open attempt of a running task after a step is one from before it, or the one just started. */
  lemma OpenAttemptsAfter(s: Sys, step: Step, workers: Workers, a: Attempt, r: string)
    requires a in Next(s, step, workers).attempts && a.open && RunsOn(Next(s, step, workers), workers, a, r)
    ensures (a in s.db.attempts && RunsOn(s.db, workers, a, r)) ||
      (step.StartTransaction? && a == Attempt(step.id, step.profile, true, None) &&
       StartPermitted(s.db, workers, step.id, step.profile, step.capable, step.manifestValid))
  {
  }

  /** While planning is on no step adds a holder of the P40, whoever takes it. */
  lemma {:induction false} PlanningNeverAddsHolders(s: Sys, step: Step, workers: Workers, id: Id)
    requires "" !in workers && s.db.controls.planning
    requires Holds(Next(s, step, workers), workers, id)
    ensures Holds(s.db, workers, id)
  {
    var db' := Next(s, step, workers);
    if db'.tasks[id].state.Running? {
      var a :| a in db'.attempts && a.task == id && a.open && UsesResource(workers, a.worker, P40);
      assert RunsOn(db', workers, a, P40);
      OpenAttemptsAfter(s, step, workers, a, P40);
    }
  }

  predicate PlanningStaysOn(steps: seq<Step>) {
    forall i :: 0 <= i < |steps| ==> steps[i] != ControlTransaction(PlanningControl, false)
  }

  /** Over a whole planning session the holders only shrink. */
  lemma {:induction false} HoldersOnlyShrink(s: Sys, steps: seq<Step>, workers: Workers, id: Id)
    requires "" !in workers && s.db.controls.planning && PlanningStaysOn(steps)
    requires Holds(Run(s, steps, workers).db, workers, id)
    ensures Holds(s.db, workers, id)
  {
    if steps != [] {
      var n := |steps| - 1;
      PlanningPersists(s, steps[..n], workers);
      PlanningNeverAddsHolders(Run(s, steps[..n], workers), steps[n], workers, id);
      HoldersOnlyShrink(s, steps[..n], workers, id);
    }
  }

  lemma {:induction false} PlanningPersists(s: Sys, steps: seq<Step>, workers: Workers)
    requires s.db.controls.planning && PlanningStaysOn(steps)
    ensures Run(s, steps, workers).db.controls.planning
  {
    if steps != [] {
      var n := |steps| - 1;
      PlanningPersists(s, steps[..n], workers);
      StepKeepsPlanning(Run(s, steps[..n], workers), steps[n], workers);
    }
  }

  lemma StepKeepsPlanning(s: Sys, step: Step, workers: Workers)
    requires s.db.controls.planning && step != ControlTransaction(PlanningControl, false)
    ensures Next(s, step, workers).controls.planning
  {
  }

  /** The first scan of the busy check: open P40 attempts of running tasks. */
  predicate P40Running(db: Db, workers: Workers) {
    exists a | a in db.attempts :: a.open && RunsOn(db, workers, a, P40)
  }

  /** The second scan: claimed tasks that will need the P40. */
  predicate P40Claimed(db: Db) {
    exists id | id in db.tasks :: db.tasks[id].state.Claimed? && RequiresP40(db.tasks[id])
  }

  lemma {:induction false} RunningHoldersOnlyShrink(s: Sys, steps: seq<Step>, workers: Workers)
    requires "" !in workers && s.db.controls.planning && PlanningStaysOn(steps) && !P40Running(s.db, workers)
    ensures !P40Running(Run(s, steps, workers).db, workers)
  {
    if steps != [] {
      var n := |steps| - 1;
      RunningHoldersOnlyShrink(s, steps[..n], workers);
      PlanningPersists(s, steps[..n], workers);
      var before := Run(s, steps[..n], workers);
      forall a | a in Next(before, steps[n], workers).attempts && a.open
        ensures !RunsOn(Next(before, steps[n], workers), workers, a, P40)
      {
        if RunsOn(Next(before, steps[n], workers), workers, a, P40) {
          OpenAttemptsAfter(before, steps[n], workers, a, P40);
          assert false;
        }
      }
    }
  }

  /** get_control_state reads the controls, then the running attempts, then the claimed rows, with any
      statements of other callers in between. Once it has answered `ready`, the P40 is ready and stays
      so until planning is switched off, even if tasks were claimed before planning came on. */
  lemma {:induction false} ReadyStaysReady(s: Sys, first: seq<Step>, second: seq<Step>, rest: seq<Step>,
                                           workers: Workers)
    requires "" !in workers && PlanningStaysOn(first) && PlanningStaysOn(second) && PlanningStaysOn(rest)
    requires s.db.controls.planning
    requires !P40Running(Run(s, first, workers).db, workers)
    requires !P40Claimed(Run(Run(s, first, workers), second, workers).db)
    ensures P40StateOf(Run(Run(Run(s, first, workers), second, workers), rest, workers).db, workers) == Ready
  {
    var s1 := Run(s, first, workers);
    var s2 := Run(s1, second, workers);
    var s3 := Run(s2, rest, workers);
    PlanningPersists(s, first, workers);
    PlanningPersists(s1, second, workers);
    PlanningPersists(s2, rest, workers);
    RunningHoldersOnlyShrink(s1, second, workers);
    BusyExactlyWhenHeld(s2.db, workers);
    BusyExactlyWhenHeld(s3.db, workers);
    if P40Busy(s3.db, workers) {
      var id :| id in s3.db.tasks && Holds(s3.db, workers, id);
      HoldersOnlyShrink(s2, rest, workers, id);
      assert false;
    }
  }

  lemma StepKeepsAudit(s: Sys, step: Step, workers: Workers)
    requires AuditHolds(s.db)
    ensures AuditHolds(Next(s, step, workers))
  {
    match step {
      case ControlTransaction(c, on) => SetControlKeepsAudit(s.db, workers, c, on);
      case ReadyTransaction => RecordingReadinessKeepsAudit(s.db, workers);
      case _ =>
        var db' := Next(s, step, workers);
        assert db'.controls == s.db.controls && db'.controlEvents == s.db.controlEvents;
    }
  }

  /** The readiness audit stays paced under every interleaving. */
  lemma {:induction false} AuditAlways(s: Sys, steps: seq<Step>, workers: Workers)
    requires AuditHolds(s.db)
    ensures AuditHolds(Run(s, steps, workers).db)
  {
    if steps != [] {
      var n := |steps| - 1;
      AuditAlways(s, steps[..n], workers);
      StepKeepsAudit(Run(s, steps[..n], workers), steps[n], workers);
    }
  }

  /** The step has appended a readiness event. */
  predicate WritesReady(db: Db, db': Db) {
    |db'.controlEvents| > |db.controlEvents| && db'.controlEvents[|db'.controlEvents| - 1] == P40Ready
  }

  lemma StepReadinessIsTruthful(s: Sys, step: Step, workers: Workers)
    requires WritesReady(s.db, Next(s, step, workers))
    ensures var db' := Next(s, step, workers);
      db'.controls.planning && forall id :: id in db'.tasks ==> !Holds(db', workers, id)
  {
    match step {
      case ControlTransaction(c, on) => ReadinessIsTruthful(s.db, Next(s, step, workers), workers, c, on);
      case ReadyTransaction => ReadinessIsTruthful(s.db, Next(s, step, workers), workers, ScheduleControl, true);
      case _ =>
    }
  }

  /** In every interleaving a readiness event is only ever written while planning is on and no task
      holds the P40. */
  lemma ReadinessIsTruthfulAlways(s: Sys, steps: seq<Step>, workers: Workers, k: nat)
    requires k < |steps|
    requires WritesReady(Run(s, steps[..k], workers).db, Run(s, steps[..k + 1], workers).db)
    ensures var db' := Run(s, steps[..k + 1], workers).db;
      db'.controls.planning && forall id :: id in db'.tasks ==> !Holds(db', workers, id)
  {
    assert steps[..k + 1][..k] == steps[..k];
    StepReadinessIsTruthful(Run(s, steps[..k], workers), steps[k], workers);
  }

  // ---------- What the unguarded updates cost ----------

  /** Every unguarded update of the run lands while the state it read is still current. */
  predicate ReadsAreFresh(s: Sys, steps: seq<Step>, workers: Workers) {
    steps == [] ||
    (var n := |steps| - 1;
     ReadsAreFresh(s, steps[..n], workers) &&
     (steps[n].Update? ==> StateOf(Run(s, steps[..n], workers).db, steps[n].id) == Some(steps[n].read)))
  }

  /** A stale unguarded update that writes another state. */
  predicate Revives(s: Sys, step: Step, id: Id) {
    step.Update? && step.id == id && (id, step.read) in s.seen && UnguardedUpdate(step.read, step.to) &&
    Some(step.to) != StateOf(s.db, id)
  }

  /** Of all the steps there are, these and no others change a terminal task. */
  lemma TerminalChangesExactly(s: Sys, step: Step, workers: Workers, id: Id)
    requires StateOf(s.db, id).Some? && Terminal(StateOf(s.db, id).value)
    ensures StateOf(Next(s, step, workers), id) != StateOf(s.db, id) <==> Revives(s, step, id)
  {
  }

  /** The task shows the same state all through the run. */
  predicate Constant(s: Sys, steps: seq<Step>, workers: Workers, id: Id) {
    StateOf(Run(s, steps, workers).db, id) == StateOf(s.db, id) &&
    (steps == [] || Constant(s, steps[..|steps| - 1], workers, id))
  }

  predicate Unrevived(s: Sys, steps: seq<Step>, workers: Workers, id: Id) {
    steps == [] ||
    (var n := |steps| - 1;
     Unrevived(s, steps[..n], workers, id) && !Revives(Run(s, steps[..n], workers), steps[n], id))
  }

  /** Over any run a terminal task keeps its state throughout exactly when no step of the run is a
      reviving one. */
  lemma {:induction false} TerminalStaysExactly(s: Sys, steps: seq<Step>, workers: Workers, id: Id)
    requires StateOf(s.db, id).Some? && Terminal(StateOf(s.db, id).value)
    ensures Constant(s, steps, workers, id) <==> Unrevived(s, steps, workers, id)
  {
    if steps != [] {
      var n := |steps| - 1;
      TerminalStaysExactly(s, steps[..n], workers, id);
      if Constant(s, steps[..n], workers, id) {
        TerminalChangesExactly(Run(s, steps[..n], workers), steps[n], workers, id);
      }
    }
  }

  /** In particular fresh reads are enough. */
  lemma {:induction false} FreshReadsKeepTerminalStates(s: Sys, steps: seq<Step>, workers: Workers, id: Id)
    requires ReadsAreFresh(s, steps, workers)
    requires StateOf(s.db, id).Some? && Terminal(StateOf(s.db, id).value)
    ensures StateOf(Run(s, steps, workers).db, id) == StateOf(s.db, id)
  {
    if steps != [] {
      var n := |steps| - 1;
      FreshReadsKeepTerminalStates(s, steps[..n], workers, id);
      TerminalChangesExactly(Run(s, steps[..n], workers), steps[n], workers, id);
    }
  }

  /** The task is in this state, and may be claimed and started by `profile`. */
  ghost predicate At(s: Sys, id: Id, state: TaskState, workers: Workers, profile: string) {
    StateOf(s.db, id) == Some(state) && (id, state) in s.seen &&
    s.db.controls == DEFAULT_CONTROLS && profile in workers && workers[profile].resource == None
  }

  lemma OneStep(s: Sys, id: Id, step: Step, from: TaskState, to: TaskState, workers: Workers, profile: string)
      returns (s': Sys)
    requires At(s, id, from, workers, profile)
    requires || (step == ClaimTransaction(id) && from == Queued && to == Claimed)
             || (step == StartTransaction(id, profile, true, true) && from == Claimed && to == Running)
             || (step == Update(id, from, to) && UnguardedUpdate(from, to))
    ensures s' == Taken(s, step, workers)
    ensures At(s', id, to, workers, profile) && s.seen <= s'.seen
  {
    s' := Taken(s, step, workers);
    assert StateOf(s'.db, id) == Some(to);
  }

  /** Two callers of requeue_retry_wait both read `retry_wait`; one requeues, the task is claimed,
      runs and succeeds, then the other's UPDATE puts the finished task back in the queue. */
  lemma StaleRequeueRevivesFinishedTask(s: Sys, id: Id, workers: Workers, profile: string)
    requires At(s, id, RetryWait, workers, profile)
    ensures
      var s1 := Taken(s, Update(id, RetryWait, Queued), workers);
      var s2 := Taken(s1, ClaimTransaction(id), workers);
      var s3 := Taken(s2, StartTransaction(id, profile, true, true), workers);
      var s4 := Taken(s3, Update(id, Running, Succeeded), workers);
      var s5 := Taken(s4, Update(id, RetryWait, Queued), workers);
      StateOf(s4.db, id) == Some(Succeeded) && StateOf(s5.db, id) == Some(Queued)
  {
    var s1 := OneStep(s, id, Update(id, RetryWait, Queued), RetryWait, Queued, workers, profile);
    var s2 := OneStep(s1, id, ClaimTransaction(id), Queued, Claimed, workers, profile);
    var s3 := OneStep(s2, id, StartTransaction(id, profile, true, true), Claimed, Running, workers, profile);
    var s4 := OneStep(s3, id, Update(id, Running, Succeeded), Running, Succeeded, workers, profile);
    TerminalChangesExactly(s4, Update(id, RetryWait, Queued), workers, id);
  }
}
