// The Scheduler class: its methods as they update the durable tables, one call after the
// other. SqlInterleaving.dfy lets the statements of different callers interleave.
module SchedulerService {
  import opened Prelude
  import opened SchedulerState
  import opened EventReplay
  import opened ReadyAudit
  import opened Machines

  /** Where a method logs the event of its transaction. */
  datatype Logging = InTransaction | AfterCommit

  datatype P40State = Available | Busy | Draining | Ready

  class Scheduler {
    const workers: Workers
    const machine: Machine
    var tasks: map<Id, Task>
    var attempts: seq<Attempt>
    var events: seq<Event>
    var controls: Controls
    var controlEvents: seq<ControlEvent>
    ghost var rulings: map<Id, Ruling>

    /** The operator's last decision about a task, as the review calls below made it. */
    ghost function RulingOf(id: Id): Ruling
      reads this`rulings
    {
      if id in rulings then rulings[id] else NoRuling
    }

    function Tables(): Db
      reads this
    {
      Db(tasks, attempts, events, controls, controlEvents)
    }

    /** The readiness audit is paced: kept by every method, whatever crashes or fails. */
    ghost predicate Valid()
      reads this
    {
      AuditHolds(Tables())
    }

    /** Event log, task rows and attempts agree: kept by every method that is not cut short. */
    ghost predicate Agrees()
      reads this
    {
      HistoryAgrees(Tables())
    }

    /** A transaction has landed: all of `full`, except that an error may have lost the event without the
        caller noticing, and so may a crash where the event is logged after the commit. */
    twostate predicate Committed(full: Db, logging: Logging)
      reads this, machine
    {
      Tables() == full ||
      (Tables() == full.(events := old(events)) &&
       (machine.faults > old(machine.faults) || (logging.AfterCommit? && !machine.on)))
    }

    /** A method whose row and attempts change in one transaction. */
    twostate predicate Atomic(reply: Reply, permitted: bool, full: Db, logging: Logging)
      reads this, machine
    {
      (Tables() == old(Tables()) || (permitted && old(machine.on) && Committed(full, logging))) &&
      (machine.on && reply == Done ==> permitted && Committed(full, logging)) &&
      (machine.Quiet() ==>
        (reply == Done <==> permitted) && Tables() == if permitted then full else old(Tables())) &&
      (reply == Raised ==> machine.faults > old(machine.faults))
    }

    /** A method of several autocommit statements: a crash or an error leaves some of them done. */
    twostate predicate Stepwise(reply: Reply, permitted: bool, full: Db, order: Order)
      reads this, machine
    {
      (Tables() == old(Tables()) || (permitted && old(machine.on) && Partly(old(Tables()), Tables(), full, order))) &&
      (machine.on && reply == Done ==>
        permitted && tasks == full.tasks && (!order.AttemptsIfPossible? ==> attempts == full.attempts)) &&
      (machine.Quiet() ==> (reply == Done <==> permitted) && (permitted ==> Tables() == full)) &&
      (reply == Raised ==> machine.faults > old(machine.faults))
    }

    constructor (workers: Workers, machine: Machine)
      ensures Valid() && Agrees() && this.workers == workers && this.machine == machine
      ensures Tables() == Db(map[], [], [], DEFAULT_CONTROLS, []) && rulings == map[]
    {
      this.workers, this.machine := workers, machine;
      tasks, attempts, events := map[], [], [];
      controls, controlEvents, rulings := DEFAULT_CONTROLS, [], map[];
      new;
      EmptyHistoryAgrees(Tables());
    }

    // ---------- Statements ----------

    /** An error that a method turns into a refusal, or that escapes it. */
    method Trouble() returns (reply: Reply)
      ensures reply != Done
    {
      reply := Refused;
      if * {
        reply := Raised;
      }
    }

    method WriteRow(id: Id, row: Task) returns (ok: bool)
      modifies this`tasks, machine
      ensures machine.Runs() && (!ok ==> machine.faults > old(machine.faults))
      ensures tasks == if ok && machine.on then old(tasks)[id := row] else old(tasks)
    {
      var failed := machine.Fails();
      if failed {
        return false;
      }
      machine.Spend();
      if machine.on {
        tasks := tasks[id := row];
      }
      ok := true;
    }

    method CloseAttempts(id: Id, result: Option<string>) returns (ok: bool)
      modifies this`attempts, machine
      ensures machine.Runs() && (!ok ==> machine.faults > old(machine.faults))
      ensures attempts == if ok && machine.on then Closed(old(attempts), id, result) else old(attempts)
    {
      var failed := machine.Fails();
      if failed {
        return false;
      }
      machine.Spend();
      if machine.on {
        attempts := Closed(attempts, id, result);
      }
      ok := true;
    }

    /** Event logging never fails its caller. */
    method Emit(event: Event)
      modifies this`events, machine
      ensures machine.Runs()
      ensures events == old(events) || (machine.on && events == old(events) + [event])
      ensures machine.Quiet() ==> events == old(events) + [event]
    {
      var failed := machine.Fails();
      if !failed {
        machine.Spend();
        if machine.on {
          events := events + [event];
        }
      }
    }

    method RecordP40ReadyIfNeeded()
      requires Valid()
      modifies this`controlEvents, machine
      ensures Valid() && machine.Runs()
      ensures Tables() == old(Tables()) || (machine.on && Tables() == WithReadyRecorded(old(Tables()), workers))
      ensures machine.Quiet() ==> Tables() == WithReadyRecorded(old(Tables()), workers)
    {
      RecordingReadinessKeepsAudit(Tables(), workers);
      var failed := machine.Fails();
      if failed {
        return;
      }
      machine.Spend();
      if machine.on && controls.planning && !P40Busy(Tables(), workers) {
        var session := LastPlanningOn(controlEvents);
        var lastReady := LastReady(controlEvents);
        if lastReady.None? || session.None? || lastReady.value < session.value {
          controlEvents := controlEvents + [P40Ready];
        }
      }
    }

    // ---------- Methods ----------

    /** Insert the row, then log its creation. */
    method AddTask(id: Id, row: Task) returns (added: bool)
      requires Valid() && row.state == Queued
      modifies this`tasks, this`events, machine
      ensures Valid() && machine.Runs()
      ensures Tables() == old(Tables()) ||
        (old(machine.on) && id !in old(tasks) && tasks == old(tasks)[id := row] &&
         (events == old(events) || events == old(events) + [Event(id, "task_added", None, Queued)]))
      ensures machine.Quiet() ==>
        added == (id !in old(tasks) &&
                  !(row.key.Some? && exists other :: other in old(tasks) && old(tasks)[other].key == row.key)) &&
        Tables() == if added then old(Tables()).(tasks := old(tasks)[id := row],
                                                 events := old(events) + [Event(id, "task_added", None, Queued)])
                    else old(Tables())
      ensures machine.Quiet() && old(Agrees()) ==> Agrees()
    {
      if row.key.Some? && exists other :: other in tasks && tasks[other].key == row.key {
        return false;
      }
      if id in tasks {
        return false;
      }
      if Agrees() {
        WholeKeepsHistory(Tables(), id, Admission(row, "task_added"));
      }
      added := WriteRow(id, row);
      if added {
        Emit(Event(id, "task_added", None, Queued));
      }
    }

    /** One transaction that moves a task along an edge of the table, and starts an attempt if it
        is to run. An error in logging the event goes unnoticed. */
    method Commit(id: Id, row: Task, name: string, started: Option<string>) returns (reply: Reply)
      requires Valid() && id in tasks && Allowed(tasks[id].state, row.state) && tasks[id].state != Running
      requires row.state == Running <==> started.Some?
      modifies this`tasks, this`attempts, this`events, machine
      ensures Valid() && machine.Runs()
      ensures Atomic(reply, true, Moved(old(Tables()), id, row, name, started), InTransaction)
      ensures machine.faults == old(machine.faults) && old(Agrees()) ==> Agrees()
    {
      var failed := machine.Fails();
      if failed {
        reply := Trouble();
        return;
      }
      var unlogged := machine.Fails();
      machine.Spend();
      if machine.on {
        Move(id, row, name, started, !unlogged);
      }
      failed := machine.Fails();
      if failed {
        reply := Trouble();
      } else {
        reply := Done;
      }
    }

    method Move(id: Id, row: Task, name: string, started: Option<string>, logged: bool)
      requires id in tasks && Allowed(tasks[id].state, row.state) && tasks[id].state != Running
      requires row.state == Running <==> started.Some?
      modifies this`tasks, this`attempts, this`events
      ensures var full := Moved(old(Tables()), id, row, name, started);
        Tables() == if logged then full else full.(events := old(events))
      ensures logged && old(Agrees()) ==> Agrees()
    {
      if Agrees() {
        WholeKeepsHistory(Tables(), id, Transition(row, name, started, None));
      }
      if logged {
        events := events + [Event(id, name, Some(tasks[id].state), row.state)];
      }
      tasks := tasks[id := row];
      attempts := (if started.Some? then Closed(attempts, id) else attempts) +
                  (if started.Some? then [Attempt(id, started.value, true, None)] else []);
    }

    /** The claim commits first and logs its event afterwards. */
    method ClaimTask(id: Id) returns (reply: Reply)
      requires Valid()
      modifies this`tasks, this`events, machine
      ensures Valid() && machine.Runs()
      ensures Atomic(reply, ClaimPermitted(old(Tables()), id), MovedTo(old(Tables()), id, Claimed, "task_claimed"),
                     AfterCommit)
      ensures machine.Quiet() ==>
        (reply == Done <==>
         id in old(tasks) && old(tasks)[id].state == Queued && controls.schedule &&
         (controls.planning ==> !P40Work(old(tasks)[id])))
      ensures machine.Quiet() && old(Agrees()) ==> Agrees()
    {
      if id !in tasks || tasks[id].state != Queued {
        return Refused;
      }
      if !controls.schedule {
        return Refused;
      }
      RequiresExactlyP40Work(tasks[id]);
      if controls.planning && RequiresP40(tasks[id]) {
        return Refused;
      }
      var row := tasks[id].(state := Claimed);
      if Agrees() {
        WholeKeepsHistory(Tables(), id, Transition(row, "task_claimed", None, None));
      }
      assert attempts + [] == attempts;
      var ok := WriteRow(id, row);
      if !ok {
        reply := Trouble();
        return;
      }
      Emit(Event(id, "task_claimed", Some(Queued), Claimed));
      var failed := machine.Fails();
      if failed {
        reply := Trouble();
      } else {
        reply := Done;
      }
    }

    /** `capable` and `manifestValid` stand for the worker availability, capability and
        manifest checks, which read nothing of these tables. */
    method StartTask(id: Id, profile: string, capable: bool, manifestValid: bool) returns (reply: Reply)
      requires Valid()
      modifies this`tasks, this`attempts, this`events, machine
      ensures Valid() && machine.Runs()
      ensures Atomic(reply, StartPermitted(old(Tables()), workers, id, profile, capable, manifestValid),
                     MovedTo(old(Tables()), id, Running, "task_started", Some(profile)), InTransaction)
      ensures machine.Quiet() && profile == "" ==> (reply == Done <==> StateOf(old(Tables()), id) == Some(Claimed))
      ensures machine.Quiet() && profile != "" ==>
        (reply == Done <==>
         StateOf(old(Tables()), id) == Some(Claimed) && profile in workers && capable && manifestValid &&
         !(controls.planning && workers[profile].resource == Some("p40")) &&
         (workers[profile].resource.Some? ==>
           forall a | a in old(attempts) && StateOf(old(Tables()), a.task) == Some(Running) && a.worker in workers ::
             workers[a.worker].resource != workers[profile].resource))
      ensures machine.faults == old(machine.faults) && old(Agrees()) ==> Agrees()
    {
      if id !in tasks || tasks[id].state != Claimed {
        return Refused;
      }
      if profile != "" {
        if profile !in workers || !manifestValid {
          return Refused;
        }
        if controls.planning && workers[profile].resource == Some(P40) {
          return Refused;
        }
        // The worker_failed events of the two refusals below are rolled back with the transaction.
        if workers[profile].resource.Some? && ResourceInUse(Tables(), workers, workers[profile].resource.value) {
          return Refused;
        }
        if !capable {
          return Refused;
        }
      }
      reply := Commit(id, tasks[id].(state := Running), "task_started", Some(profile));
    }

    method CancelTask(id: Id) returns (reply: Reply)
      requires Valid()
      modifies this`tasks, this`attempts, this`events, machine
      ensures Valid() && machine.Runs()
      ensures Atomic(reply, id in old(tasks) && old(tasks)[id].state in {Accepted, Queued, Claimed},
                     MovedTo(old(Tables()), id, Cancelled, "task_cancelled"), InTransaction)
      ensures machine.faults == old(machine.faults) && old(Agrees()) ==> Agrees()
    {
      if id !in tasks || !Allowed(tasks[id].state, Cancelled) {
        return Refused;
      }
      reply := Commit(id, tasks[id].(state := Cancelled), "task_cancelled", None);
    }

    method FailClaimedTask(id: Id) returns (reply: Reply)
      requires Valid()
      modifies this`tasks, this`attempts, this`events, machine
      ensures Valid() && machine.Runs()
      ensures Atomic(reply, StateOf(old(Tables()), id) == Some(Claimed),
                     MovedTo(old(Tables()), id, FailedTerminal, "task_rejected"), InTransaction)
      ensures machine.faults == old(machine.faults) && old(Agrees()) ==> Agrees()
    {
      if id !in tasks || tasks[id].state != Claimed {
        return Refused;
      }
      reply := Commit(id, tasks[id].(state := FailedTerminal), "task_rejected", None);
    }

    /** Update the row, log the event, and record readiness where the source does: every transition
        outside a transaction that closes no attempt. */
    method Advance(id: Id, row: Task, name: string, drains: bool) returns (reply: Reply)
      requires Valid() && id in tasks
      requires tasks[id].state != Running && row.state != Running && Allowed(tasks[id].state, row.state)
      modifies this`tasks, this`events, this`controlEvents, machine
      ensures Valid() && machine.Runs()
      ensures Stepwise(reply, true, Drained(Moved(old(Tables()), id, row, name, None), workers, drains), RowFirst)
      ensures machine.Quiet() && old(Agrees()) ==> Agrees()
    {
      ghost var full := Moved(Tables(), id, row, name, None);
      KeepHistory(id, row, name, None, drains);
      assert attempts + [] == attempts;
      var from := tasks[id].state;
      var ok := WriteRow(id, row);
      if !ok {
        reply := Trouble();
        return;
      }
      reply := Done;
      Finish(Event(id, name, Some(from), row.state), drains);
    }

    /** The end of such a method: log the event, and record readiness where the source does. */
    method Finish(event: Event, drains: bool)
      requires Valid()
      modifies this`events, this`controlEvents, machine
      ensures Valid() && machine.Runs()
      ensures events == old(events) || (old(machine.on) && events == old(events) + [event])
      ensures controlEvents == old(controlEvents) ||
        (old(machine.on) && controlEvents == old(controlEvents) + [P40Ready])
      ensures machine.Quiet() ==>
        Tables() == Drained(old(Tables()).(events := old(events) + [event]), workers, drains)
    {
      Emit(event);
      if drains {
        RecordP40ReadyIfNeeded();
      }
    }

    ghost method KeepHistory(id: Id, row: Task, name: string, result: Option<string>, drains: bool)
      requires id in tasks && Allowed(tasks[id].state, row.state) && row.state != Running
      ensures Agrees() ==> HistoryAgrees(Drained(Moved(Tables(), id, row, name, None, result), workers, drains))
    {
      if Agrees() {
        var full := Moved(Tables(), id, row, name, None, result);
        WholeKeepsHistory(Tables(), id, Transition(row, name, None, result));
        HistoryIgnoresControls(full, WithReadyRecorded(full, workers));
      }
    }

    /** Leaving `running` also closes every open attempt of the task, before or after the row. */
    method LeaveRunning(id: Id, row: Task, name: string, result: Option<string>, order: Order, drains: bool)
      returns (reply: Reply)
      requires Valid() && id in tasks && tasks[id].state == Running && Allowed(Running, row.state)
      modifies this`tasks, this`attempts, this`events, this`controlEvents, machine
      ensures Valid() && machine.Runs()
      ensures Stepwise(reply, true, Drained(Moved(old(Tables()), id, row, name, None, result), workers, drains), order)
      ensures machine.Quiet() && old(Agrees()) ==> Agrees()
    {
      KeepHistory(id, row, name, result, drains);
      assert Closed(attempts, id, result) + [] == Closed(attempts, id, result);
      var ok := WriteRowAndAttempts(id, row, result, order);
      if !ok {
        reply := Trouble();
        return;
      }
      reply := Done;
      Finish(Event(id, name, Some(Running), row.state), drains);
    }

    method WriteRowAndAttempts(id: Id, row: Task, result: Option<string>, order: Order) returns (ok: bool)
      modifies this`tasks, this`attempts, machine
      ensures machine.Runs() && (!ok ==> machine.faults > old(machine.faults))
      ensures tasks == old(tasks) || (old(machine.on) && tasks == old(tasks)[id := row])
      ensures attempts == old(attempts) || (old(machine.on) && attempts == Closed(old(attempts), id, result))
      ensures match order
        case RowFirst => attempts == old(attempts) || tasks == old(tasks)[id := row]
        case AttemptsFirst => tasks == old(tasks) || attempts == Closed(old(attempts), id, result)
        case AttemptsIfPossible => true
      ensures machine.on && ok ==> tasks == old(tasks)[id := row]
      ensures machine.on && ok && (!order.AttemptsIfPossible? || machine.Quiet()) ==>
        attempts == Closed(old(attempts), id, result)
    {
      if order.RowFirst? {
        ok := WriteRow(id, row);
        if ok {
          ok := CloseAttempts(id, result);
        }
      } else {
        ok := CloseAttempts(id, result);
        if ok || order.AttemptsIfPossible? {
          ok := WriteRow(id, row);
        }
      }
    }

    /** complete_task: the row first, then the attempts. */
    method CompleteTask(id: Id, result: Option<string>, failed: bool) returns (reply: Reply)
      requires Valid()
      modifies this`tasks, this`attempts, this`events, this`controlEvents, machine
      ensures Valid() && machine.Runs()
      ensures Stepwise(reply, StateOf(old(Tables()), id) == Some(Running),
        Drained(MovedTo(old(Tables()), id, if failed then FailedTerminal else Succeeded, "task_completed", None,
                        result), workers, true), RowFirst)
      ensures machine.Quiet() && old(Agrees()) ==> Agrees()
    {
      if id !in tasks || tasks[id].state != Running {
        return Refused;
      }
      var to := if failed then FailedTerminal else Succeeded;
      reply := LeaveRunning(id, tasks[id].(state := to), "task_completed", result, RowFirst, true);
    }

    method RetryTask(id: Id, now: nat, delay: nat) returns (reply: Reply)
      requires Valid()
      modifies this`tasks, this`attempts, this`events, this`controlEvents, machine
      ensures Valid() && machine.Runs()
      ensures Stepwise(reply, StateOf(old(Tables()), id) == Some(Running),
        Drained(MovedAt(old(Tables()), id, RetryWait, Some(now + delay), "retry_scheduled"), workers, true),
        AttemptsIfPossible)
      ensures machine.Quiet() && old(Agrees()) ==> Agrees()
    {
      if id !in tasks || tasks[id].state != Running {
        return Refused;
      }
      var row := tasks[id].(state := RetryWait, retryAt := Some(now + delay));
      reply := LeaveRunning(id, row, "retry_scheduled", None, AttemptsIfPossible, true);
    }

    /** Unlike retry_task, this leaves the readiness audit alone. */
    method TransitionRunningToRetryWait(id: Id, result: Option<string>, now: nat) returns (reply: Reply)
      requires Valid()
      modifies this`tasks, this`attempts, this`events, this`controlEvents, machine
      ensures Valid() && machine.Runs()
      ensures Stepwise(reply, StateOf(old(Tables()), id) == Some(Running),
        MovedAt(old(Tables()), id, RetryWait, Some(now), "task_retry_wait", result), AttemptsFirst)
      ensures machine.Quiet() && old(Agrees()) ==> Agrees()
    {
      if id !in tasks || tasks[id].state != Running {
        return Refused;
      }
      var row := tasks[id].(state := RetryWait, retryAt := Some(now));
      reply := LeaveRunning(id, row, "task_retry_wait", result, AttemptsFirst, false);
    }

    method TransitionRunningToAwaitingReview(id: Id) returns (reply: Reply)
      requires Valid()
      modifies this`tasks, this`attempts, this`events, this`controlEvents, machine
      ensures Valid() && machine.Runs()
      ensures Stepwise(reply, StateOf(old(Tables()), id) == Some(Running),
        MovedTo(old(Tables()), id, AwaitingReview, "task_awaiting_review"), AttemptsIfPossible)
      ensures machine.Quiet() && old(Agrees()) ==> Agrees()
    {
      if id !in tasks || tasks[id].state != Running {
        return Refused;
      }
      var row := tasks[id].(state := AwaitingReview);
      reply := LeaveRunning(id, row, "task_awaiting_review", None, AttemptsIfPossible, false);
    }

    method RequeueClaimedToRetryWait(id: Id, now: nat) returns (reply: Reply)
      requires Valid()
      modifies this`tasks, this`events, this`controlEvents, machine
      ensures Valid() && machine.Runs()
      ensures Stepwise(reply, StateOf(old(Tables()), id) == Some(Claimed),
        Drained(MovedAt(old(Tables()), id, RetryWait, Some(now), "task_retry_wait"), workers, true), RowFirst)
      ensures machine.Quiet() && old(Agrees()) ==> Agrees()
    {
      if id !in tasks || tasks[id].state != Claimed {
        return Refused;
      }
      reply := Advance(id, tasks[id].(state := RetryWait, retryAt := Some(now)), "task_retry_wait", true);
    }

    method RequeueRetryWait(id: Id, now: nat) returns (reply: Reply)
      requires Valid()
      modifies this`tasks, this`events, this`controlEvents, machine
      ensures Valid() && machine.Runs()
      ensures Stepwise(reply,
        StateOf(old(Tables()), id) == Some(RetryWait) &&
        (old(tasks)[id].retryAt.Some? ==> old(tasks)[id].retryAt.value <= now),
        MovedAt(old(Tables()), id, Queued, None, "task_requeued"), RowFirst)
      ensures machine.Quiet() && old(Agrees()) ==> Agrees()
    {
      if id !in tasks || tasks[id].state != RetryWait {
        return Refused;
      }
      if tasks[id].retryAt.Some? && now < tasks[id].retryAt.value {
        return Refused;
      }
      reply := Advance(id, tasks[id].(state := Queued, retryAt := None), "task_requeued", false);
    }

    method RequeueAwaitingReview(id: Id) returns (reply: Reply)
      requires Valid()
      modifies this`tasks, this`events, this`controlEvents, machine
      ensures Valid() && machine.Runs()
      ensures Stepwise(reply, StateOf(old(Tables()), id) == Some(AwaitingReview),
                       MovedTo(old(Tables()), id, Queued, "task_requeued"), RowFirst)
      ensures machine.Quiet() && old(Agrees()) ==> Agrees()
    {
      if id !in tasks || tasks[id].state != AwaitingReview {
        return Refused;
      }
      reply := Advance(id, tasks[id].(state := Queued), "task_requeued", false);
    }

    method ApproveAwaitingReview(id: Id) returns (reply: Reply)
      requires Valid()
      modifies this`tasks, this`events, this`controlEvents, this`rulings, machine
      ensures Valid() && machine.Runs()
      ensures Stepwise(reply, StateOf(old(Tables()), id) == Some(AwaitingReview) && !old(tasks)[id].hasManifest,
                       MovedTo(old(Tables()), id, Succeeded, "task_completed"), RowFirst)
      ensures rulings == if tasks == old(tasks) then old(rulings) else old(rulings)[id := Approved]
      ensures machine.Quiet() && old(Agrees()) ==> Agrees()
    {
      if id !in tasks || tasks[id].state != AwaitingReview {
        return Refused;
      }
      if tasks[id].hasManifest {
        return Refused;
      }
      reply := Advance(id, tasks[id].(state := Succeeded), "task_completed", false);
      if tasks[id].state == Succeeded {
        rulings := rulings[id := Approved];
      }
    }

    method TransitionAwaitingReviewToFailed(id: Id) returns (reply: Reply)
      requires Valid()
      modifies this`tasks, this`events, this`controlEvents, this`rulings, machine
      ensures Valid() && machine.Runs()
      ensures Stepwise(reply, StateOf(old(Tables()), id) == Some(AwaitingReview),
                       MovedTo(old(Tables()), id, FailedTerminal, "task_completed"), RowFirst)
      ensures rulings == if tasks == old(tasks) then old(rulings) else old(rulings)[id := Rejected]
      ensures machine.Quiet() && old(Agrees()) ==> Agrees()
    {
      if id !in tasks || tasks[id].state != AwaitingReview {
        return Refused;
      }
      reply := Advance(id, tasks[id].(state := FailedTerminal), "task_completed", false);
      if tasks[id].state == FailedTerminal {
        rulings := rulings[id := Rejected];
      }
    }

    /** One transaction: the control, its change event, and readiness if the P40 is free already. */
    method SetControl(c: Control, on: bool) returns (reply: Reply, p40: P40State)
      requires Valid()
      modifies this`controls, this`controlEvents, machine
      ensures Valid() && machine.Runs()
      ensures Atomic(reply, true, WithControl(old(Tables()), workers, c, on), InTransaction)
      ensures machine.on && reply == Done ==> p40 == P40StateOf(Tables(), workers)
      ensures old(Agrees()) ==> Agrees()
    {
      p40 := P40StateOf(Tables(), workers);
      var failed := machine.Fails();
      if failed {
        reply := Trouble();
        return;
      }
      reply := Done;
      machine.Spend();
      if machine.on {
        p40 := Switch(c, on);
      }
    }

    method Switch(c: Control, on: bool) returns (p40: P40State)
      requires Valid()
      modifies this`controls, this`controlEvents
      ensures Valid() && Tables() == WithControl(old(Tables()), workers, c, on)
      ensures p40 == P40StateOf(Tables(), workers)
      ensures old(Agrees()) ==> Agrees()
    {
      SetControlKeepsAudit(Tables(), workers, c, on);
      var wasOn := ControlValue(controls, c);
      controls := ControlSet(controls, c, on);
      if wasOn != on {
        controlEvents := controlEvents + [Changed(c, on)];
      }
      BusyIgnoresControls(old(Tables()), Tables(), workers);
      p40 := P40StateOf(Tables(), workers);
      if c == PlanningControl && wasOn != on && on && p40 == Ready {
        controlEvents := controlEvents + [P40Ready];
      }
      BusyIgnoresControls(old(Tables()), Tables(), workers);
      HistoryIgnoresControls(old(Tables()), Tables());
    }

    // ---------- Runs ----------

    /** Any number of calls on any tasks, with errors, crashes and, if allowed, restarts anywhere: a run
        of history steps, so log, row and attempts of a task agree throughout exactly when none of the
        calls on this task was cut short. */
    method Serve(calls: nat, restarts: bool) returns (ghost dbs: seq<Db>, ghost steps: seq<Step>)
      requires Valid()
      modifies this, machine
      ensures Valid()
      ensures Run(dbs, steps) && |steps| == calls && dbs[0] == old(Tables()) && dbs[calls] == Tables()
      ensures forall id :: old(TaskAgrees(Tables(), id)) ==>
        (AgreesThroughout(dbs, id) <==> NeverCutShort(dbs, steps, id))
      ensures !restarts && machine.Quiet() ==> forall id :: NeverCutShort(dbs, steps, id)
    {
      dbs, steps := [Tables()], [];
      var served := 0;
      while served < calls
        invariant Valid() && |steps| == served <= calls && (!restarts ==> machine.Runs())
        invariant Run(dbs, steps) && dbs[0] == old(Tables()) && dbs[served] == Tables()
        invariant !restarts && machine.Quiet() ==>
          forall i :: 0 <= i < |steps| ==> InFull(dbs[i], dbs[i + 1], steps[i])
      {
        if restarts {
          machine.on := *;
        }
        ghost var step := ServeOne();
        dbs, steps := dbs + [Tables()], steps + [step];
        served := served + 1;
      }
      forall id | TaskAgrees(dbs[0], id) ensures AgreesThroughout(dbs, id) <==> NeverCutShort(dbs, steps, id) {
        HistoryAgreesExactly(dbs, steps, id);
      }
    }

    method ServeOne() returns (ghost step: Step)
      requires Valid()
      modifies this, machine
      ensures Valid() && machine.Runs() && Leaves(old(Tables()), Tables(), step)
      ensures machine.Quiet() ==> InFull(old(Tables()), Tables(), step)
    {
      var id: Id, now: nat, delay: nat := *, *, *;
      if {
        case true => step := ServeAdmission(id);
        case true => step := ServeTransaction(id);
        case true => step := ServeRunning(id, now, delay);
        case true => step := ServeWaiting(id, now);
        case true => step := ServeReviewed(id);
        case true =>
          var c: Control, on: bool := *, *;
          var _, _ := SetControl(c, on);
          step := OtherStep;
      }
    }

    method ServeAdmission(id: Id) returns (ghost step: Step)
      requires Valid()
      modifies this, machine
      ensures Valid() && machine.Runs() && Leaves(old(Tables()), Tables(), step)
      ensures machine.Quiet() ==> InFull(old(Tables()), Tables(), step)
    {
      var row: Task := *;
      row := row.(state := Queued);
      var _ := AddTask(id, row);
      step := ChangeStep(id, Admission(row, "task_added"));
    }

    method ServeTransaction(id: Id) returns (ghost step: Step)
      requires Valid()
      modifies this, machine
      ensures Valid() && machine.Runs() && Leaves(old(Tables()), Tables(), step)
      ensures machine.Quiet() ==> InFull(old(Tables()), Tables(), step)
    {
      ghost var db := Tables();
      if {
        case true =>
          var _ := ClaimTask(id);
          step := TransitionStep(db, id, Claimed, None, "task_claimed");
        case true =>
          var profile: string, capable: bool, valid: bool := *, *, *;
          var _ := StartTask(id, profile, capable, valid);
          step := TransitionStep(db, id, Running, None, "task_started", Some(profile));
        case true =>
          var _ := CancelTask(id);
          step := TransitionStep(db, id, Cancelled, None, "task_cancelled");
        case true =>
          var _ := FailClaimedTask(id);
          step := TransitionStep(db, id, FailedTerminal, None, "task_rejected");
      }
    }

    method ServeRunning(id: Id, now: nat, delay: nat) returns (ghost step: Step)
      requires Valid()
      modifies this, machine
      ensures Valid() && machine.Runs() && Leaves(old(Tables()), Tables(), step)
      ensures machine.Quiet() ==> InFull(old(Tables()), Tables(), step)
    {
      ghost var db := Tables();
      var result: Option<string> := *;
      if {
        case true =>
          var failed: bool := *;
          var _ := CompleteTask(id, result, failed);
          step := TransitionStep(db, id, if failed then FailedTerminal else Succeeded, None, "task_completed", None,
                                 result);
        case true =>
          var _ := RetryTask(id, now, delay);
          step := TransitionStep(db, id, RetryWait, Some(Some(now + delay)), "retry_scheduled");
        case true =>
          var _ := TransitionRunningToRetryWait(id, result, now);
          step := TransitionStep(db, id, RetryWait, Some(Some(now)), "task_retry_wait", None, result);
        case true =>
          var _ := TransitionRunningToAwaitingReview(id);
          step := TransitionStep(db, id, AwaitingReview, None, "task_awaiting_review");
      }
    }

    method ServeWaiting(id: Id, now: nat) returns (ghost step: Step)
      requires Valid()
      modifies this, machine
      ensures Valid() && machine.Runs() && Leaves(old(Tables()), Tables(), step)
      ensures machine.Quiet() ==> InFull(old(Tables()), Tables(), step)
    {
      ghost var db := Tables();
      if {
        case true =>
          var _ := RequeueClaimedToRetryWait(id, now);
          step := TransitionStep(db, id, RetryWait, Some(Some(now)), "task_retry_wait");
        case true =>
          var _ := RequeueRetryWait(id, now);
          step := TransitionStep(db, id, Queued, Some(None), "task_requeued");
      }
    }

    method ServeReviewed(id: Id) returns (ghost step: Step)
      requires Valid()
      modifies this, machine
      ensures Valid() && machine.Runs() && Leaves(old(Tables()), Tables(), step)
      ensures machine.Quiet() ==> InFull(old(Tables()), Tables(), step)
    {
      ghost var db := Tables();
      if {
        case true =>
          var _ := RequeueAwaitingReview(id);
          step := TransitionStep(db, id, Queued, None, "task_requeued");
        case true =>
          var _ := ApproveAwaitingReview(id);
          step := TransitionStep(db, id, Succeeded, None, "task_completed");
        case true =>
          var _ := TransitionAwaitingReviewToFailed(id);
          step := TransitionStep(db, id, FailedTerminal, None, "task_completed");
      }
    }
  }

  /** The step of a call that moves its task: `retryAt` is the new retry time, if the call sets one. */
  function TransitionStep(db: Db, id: Id, to: TaskState, retryAt: Option<Option<nat>>, name: string,
                          started: Option<string> := None, result: Option<string> := None): Step {
    if id !in db.tasks then OtherStep
    else
      var row := db.tasks[id].(state := to);
      ChangeStep(id, Transition(if retryAt.Some? then row.(retryAt := retryAt.value) else row, name, started, result))
  }

  function Drained(db: Db, workers: Workers, drains: bool): Db {
    if drains then WithReadyRecorded(db, workers) else db
  }

  /** The in-transaction count of running tasks with any attempt, open or closed, on the resource. */
  predicate ResourceInUse(db: Db, workers: Workers, resource: string) {
    exists a | a in db.attempts ::
      StateOf(db, a.task) == Some(Running) && a.worker in workers && workers[a.worker].resource == Some(resource)
  }

  predicate ClaimPermitted(db: Db, id: Id) {
    StateOf(db, id) == Some(Queued) && db.controls.schedule &&
    !(db.controls.planning && P40Work(db.tasks[id]))
  }

  predicate StartPermitted(db: Db, workers: Workers, id: Id, profile: string, capable: bool, manifestValid: bool) {
    StateOf(db, id) == Some(Claimed) && WorkerFree(db, workers, profile, capable, manifestValid)
  }

  predicate WorkerFree(db: Db, workers: Workers, profile: string, capable: bool, manifestValid: bool) {
    profile != "" ==>
      profile in workers && manifestValid && capable &&
      match workers[profile].resource
      case None => true
      case Some(r) => !(db.controls.planning && r == P40) && !ResourceInUse(db, workers, r)
  }

  /** The control state says of the P40 whether planning waits for it, owns it, or does not ask for it. */
  lemma P40StateExactly(db: Db, workers: Workers)
    ensures var held := exists id :: id in db.tasks && Holds(db, workers, id);
      (P40StateOf(db, workers) == Ready <==> db.controls.planning && !held) &&
      (P40StateOf(db, workers) == Draining <==> db.controls.planning && held) &&
      (P40StateOf(db, workers) == Busy <==> !db.controls.planning && held) &&
      (P40StateOf(db, workers) == Available <==> !db.controls.planning && !held)
  {
    BusyExactlyWhenHeld(db, workers);
  }

  function P40StateOf(db: Db, workers: Workers): P40State {
    if db.controls.planning then (if P40Busy(db, workers) then Draining else Ready)
    else if P40Busy(db, workers) then Busy else Available
  }
}
