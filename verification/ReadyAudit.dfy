// The control-event audit trail: one readiness event per planning session at most.
module ReadyAudit {
  import opened Prelude
  import opened SchedulerState

  /** Every readiness event follows a planning-on event that no readiness event has answered yet. */
  predicate Paced(log: seq<ControlEvent>) {
    log == [] ||
    (var last := log[|log| - 1];
     var before := log[..|log| - 1];
     Paced(before) &&
     (last == P40Ready ==>
       LastPlanningOn(before).Some? &&
       (LastReady(before).None? || LastReady(before).value < LastPlanningOn(before).value)))
  }

  /** The audit invariant of the scheduler. */
  predicate AuditHolds(db: Db) {
    Paced(db.controlEvents) &&
    (db.controls.planning ==> LastPlanningOn(db.controlEvents).Some?)
  }

  function ControlValue(controls: Controls, c: Control): bool {
    match c
    case ScheduleControl => controls.schedule
    case PlanningControl => controls.planning
    case NightControl => controls.night
  }

  function ControlSet(controls: Controls, c: Control, on: bool): Controls {
    match c
    case ScheduleControl => controls.(schedule := on)
    case PlanningControl => controls.(planning := on)
    case NightControl => controls.(night := on)
  }

  /** set_control: the control, its audit event when it changed, and the readiness event when
      planning was just switched on over a free P40. */
  function WithControl(db: Db, workers: Workers, c: Control, on: bool): Db {
    var changed := ControlValue(db.controls, c) != on;
    db.(controls := ControlSet(db.controls, c, on),
        controlEvents := db.controlEvents
          + (if changed then [Changed(c, on)] else [])
          + (if changed && c.PlanningControl? && on && !P40Busy(db, workers) then [P40Ready] else []))
  }

  lemma SetControlKeepsAudit(db: Db, workers: Workers, c: Control, on: bool)
    requires AuditHolds(db)
    ensures AuditHolds(WithControl(db, workers, c, on))
  {
    var log := db.controlEvents;
    var log1 := if ControlValue(db.controls, c) != on then log + [Changed(c, on)] else log;
    DropAppended(log, Changed(c, on));
    assert Paced(log1);
    DropAppended(log1, P40Ready);
    var log2 := WithControl(db, workers, c, on).controlEvents;
    assert log2 == log1 || log2 == log1 + [P40Ready];
  }

  lemma RecordingReadinessKeepsAudit(db: Db, workers: Workers)
    requires AuditHolds(db)
    ensures AuditHolds(WithReadyRecorded(db, workers))
  {
  }

  lemma {:induction false} LastPlanningOnIsOne(log: seq<ControlEvent>)
    requires LastPlanningOn(log).Some?
    ensures log[LastPlanningOn(log).value] == Changed(PlanningControl, true)
  {
    if log[|log| - 1] != Changed(PlanningControl, true) {
      LastPlanningOnIsOne(log[..|log| - 1]);
    }
  }

  lemma {:induction false} LastReadyIsNewest(log: seq<ControlEvent>, i: nat)
    requires i < |log| && log[i] == P40Ready
    ensures LastReady(log).Some? && i <= LastReady(log).value
  {
    if i < |log| - 1 {
      LastReadyIsNewest(log[..|log| - 1], i);
    }
  }

  /** No readiness event precedes the first planning-on event, and between two readiness
      events planning was switched on again: never two in one planning session. */
  lemma {:induction false} OneReadinessPerSession(log: seq<ControlEvent>, j: nat)
    requires Paced(log) && j < |log| && log[j] == P40Ready
    ensures exists k :: 0 <= k < j && log[k] == Changed(PlanningControl, true)
    ensures forall i :: 0 <= i < j && log[i] == P40Ready ==>
      exists k :: i < k < j && log[k] == Changed(PlanningControl, true)
  {
    var before := log[..|log| - 1];
    if j < |log| - 1 {
      OneReadinessPerSession(before, j);
      var k :| 0 <= k < j && before[k] == Changed(PlanningControl, true);
      assert log[k] == Changed(PlanningControl, true);
      forall i | 0 <= i < j && log[i] == P40Ready
        ensures exists k :: i < k < j && log[k] == Changed(PlanningControl, true)
      {
        assert before[i] == P40Ready;
        var k :| i < k < j && before[k] == Changed(PlanningControl, true);
        assert log[k] == Changed(PlanningControl, true);
      }
    } else {
      var on := LastPlanningOn(before).value;
      LastPlanningOnIsOne(before);
      assert log[on] == Changed(PlanningControl, true);
      forall i | 0 <= i < j && log[i] == P40Ready
        ensures exists k :: i < k < j && log[k] == Changed(PlanningControl, true)
      {
        LastReadyIsNewest(before, i);
        assert i < on < j;
      }
    }
  }

  /** What switching a control does: that control alone takes the new value, a change is logged and
      nothing else, but for readiness when planning comes on over a P40 that nobody holds. */
  lemma SwitchExactly(db: Db, workers: Workers, c: Control, on: bool)
    ensures var db' := WithControl(db, workers, c, on);
      var free := forall id :: id in db.tasks ==> !Holds(db, workers, id);
      db'.controls == (match c
        case ScheduleControl => Controls(on, db.controls.planning, db.controls.night)
        case PlanningControl => Controls(db.controls.schedule, on, db.controls.night)
        case NightControl => Controls(db.controls.schedule, db.controls.planning, on)) &&
      db'.controlEvents == db.controlEvents +
        (if db'.controls == db.controls then []
         else if c == PlanningControl && on && free then [Changed(c, on), P40Ready]
         else [Changed(c, on)])
  {
    BusyExactlyWhenHeld(db, workers);
  }

  /** Since planning last came on, readiness has been recorded. */
  predicate Announced(log: seq<ControlEvent>) {
    exists k :: 0 <= k < |log| && log[k] == P40Ready &&
      forall j :: k < j < |log| ==> log[j] != Changed(PlanningControl, true)
  }

  lemma {:induction false} LastPlanningOnIsNewest(log: seq<ControlEvent>, i: nat)
    requires i < |log| && log[i] == Changed(PlanningControl, true)
    ensures LastPlanningOn(log).Some? && i <= LastPlanningOn(log).value
  {
    if i < |log| - 1 {
      LastPlanningOnIsNewest(log[..|log| - 1], i);
    }
  }

  lemma {:induction false} LastReadyIsOne(log: seq<ControlEvent>)
    requires LastReady(log).Some?
    ensures log[LastReady(log).value] == P40Ready
  {
    if log[|log| - 1] != P40Ready {
      LastReadyIsOne(log[..|log| - 1]);
    }
  }

  /** Whatever drains the P40 and asks for the record, and whoever switches planning on over a free P40,
      leaves readiness recorded for the session. */
  lemma ReadinessIsRecorded(db: Db, db': Db, workers: Workers)
    requires db' == WithReadyRecorded(db, workers) ||
      (db' == WithControl(db, workers, PlanningControl, true) && !db.controls.planning)
    requires db'.controls.planning && forall id :: id in db'.tasks ==> !Holds(db', workers, id)
    ensures Announced(db'.controlEvents)
  {
    BusyExactlyWhenHeld(db, workers);
    BusyExactlyWhenHeld(db', workers);
    BusyIgnoresControls(db, db', workers);
    var log := db'.controlEvents;
    if log != db.controlEvents {
      assert log[|log| - 1] == P40Ready;
    } else {
      LastReadyIsOne(log);
      var k := LastReady(log).value;
      forall j | k < j < |log| ensures log[j] != Changed(PlanningControl, true) {
        if log[j] == Changed(PlanningControl, true) {
          LastPlanningOnIsNewest(log, j);
        }
      }
    }
  }

  /** A transition that does not ask for the record, as a cancellation, leaves the log as it is: if it
      takes the last holder away, readiness stays unrecorded. */
  lemma CancelledHolderIsNotAnnounced(db: Db, workers: Workers, id: Id)
    requires db.controls.planning && !Announced(db.controlEvents) && StateOf(db, id) == Some(Claimed)
    requires forall other :: other in db.tasks && other != id ==> !Holds(db, workers, other)
    ensures var db' := MovedTo(db, id, Cancelled, "task_cancelled");
      (forall other :: other in db'.tasks ==> !Holds(db', workers, other)) && !Announced(db'.controlEvents)
  {
    var db' := MovedTo(db, id, Cancelled, "task_cancelled");
    assert db'.attempts == db.attempts;
    forall other | other in db'.tasks ensures !Holds(db', workers, other) {
      assert other != id ==> !Holds(db, workers, other);
    }
  }

  /** A readiness event is written only while planning is on and nothing holds the P40. */
  lemma ReadinessIsTruthful(db: Db, db': Db, workers: Workers, c: Control, on: bool)
    requires db' == WithControl(db, workers, c, on) || db' == WithReadyRecorded(db, workers)
    requires |db'.controlEvents| > |db.controlEvents|
    requires db'.controlEvents[|db'.controlEvents| - 1] == P40Ready
    ensures db'.controls.planning && forall id :: id in db'.tasks ==> !Holds(db', workers, id)
  {
    BusyExactlyWhenHeld(db, workers);
    BusyExactlyWhenHeld(db', workers);
    BusyIgnoresControls(db, db', workers);
  }
}
