// The durable tables of the scheduler (gtx_broker/scheduler/scheduler.py) as one
// value, and the functions of those tables that its methods are specified by.
module SchedulerState {
  import opened Prelude

  type Id = string

  datatype TaskState =
    | Accepted | Queued | Claimed | Running | Succeeded
    | FailedTerminal | RetryWait | AwaitingReview | Cancelled

  /** The STATE_TRANSITIONS table. */
  predicate Allowed(from: TaskState, to: TaskState) {
    match from
    case Accepted => to in {Queued, Cancelled}
    case Queued => to in {Claimed, Cancelled}
    case Claimed => to in {Running, RetryWait, FailedTerminal, Cancelled}
    case Running => to in {Succeeded, FailedTerminal, RetryWait, AwaitingReview}
    case RetryWait => to == Queued
    case AwaitingReview => to in {Queued, Succeeded, FailedTerminal}
    case Succeeded => false
    case FailedTerminal => false
    case Cancelled => false
  }

  predicate Terminal(s: TaskState) {
    s in {Succeeded, FailedTerminal, Cancelled}
  }

  datatype Kind = Vision | Coding | OtherKind(name: string)
  datatype Mode = ImmediateMode | BatchMode | VisionMode | MaintenanceMode
  datatype ScheduleType = ImmediateSchedule | BatchSchedule | NightlySchedule

  datatype Task = Task(
    kind: Kind,
    mode: Mode,
    schedule: ScheduleType,
    reviewTag: bool,
    reviewWorker: Option<string>,
    requestedProfile: Option<string>,
    hasManifest: bool,
    staged: bool,
    key: Option<string>,
    priority: int,
    createdAt: nat,
    state: TaskState,
    retryAt: Option<nat>)

  datatype Attempt = Attempt(task: Id, worker: string, open: bool, result: Option<string>)
  datatype Event = Event(task: Id, name: string, from: Option<TaskState>, to: TaskState)
  datatype Worker = Worker(resource: Option<string>)
  type Workers = map<string, Worker>

  datatype Controls = Controls(schedule: bool, planning: bool, night: bool)
  datatype Control = ScheduleControl | PlanningControl | NightControl
  datatype ControlEvent = Changed(control: Control, on: bool) | P40Ready

  /** What an operator has decided about a reviewed task. */
  datatype Ruling = NoRuling | Approved | Rejected

  datatype Db = Db(
    tasks: map<Id, Task>,
    attempts: seq<Attempt>,
    events: seq<Event>,
    controls: Controls,
    controlEvents: seq<ControlEvent>)

  const DEFAULT_CONTROLS := Controls(true, false, false)
  const P40 := "p40"

  function StateOf(db: Db, id: Id): Option<TaskState> {
    if id in db.tasks then Some(db.tasks[id].state) else None
  }

  // ---------- P40 demand and occupation ----------

  predicate RequiresP40(t: Task) {
    if t.reviewTag || Given(t.reviewWorker) then false
    else if Given(t.requestedProfile) then StartsWith(t.requestedProfile.value, P40)
    else if t.kind.Vision? || t.mode.VisionMode? then true
    else if t.kind.Coding? then
      !(t.schedule.NightlySchedule? || t.mode.BatchMode? || t.mode.MaintenanceMode?)
    else false
  }

  /** The work the P40 is kept for while planning is on, field by field. A review tag or a named reviewer
      takes a task off the P40; a requested worker profile decides alone; without one vision work needs
      it, and coding work that is neither nightly, batch nor maintenance. */
  predicate P40Work(t: Task) {
    !t.reviewTag && t.reviewWorker in {None, Some("")} &&
    match t.requestedProfile
    case Some(profile) =>
      if profile == "" then UnprofiledP40Work(t) else |profile| >= 3 && profile[..3] == "p40"
    case None => UnprofiledP40Work(t)
  }

  predicate UnprofiledP40Work(t: Task) {
    t.kind == Vision || t.mode == VisionMode ||
    (t.kind == Coding && t.schedule != NightlySchedule && t.mode != BatchMode && t.mode != MaintenanceMode)
  }

  lemma RequiresExactlyP40Work(t: Task)
    ensures RequiresP40(t) <==> P40Work(t)
  {
  }

  predicate UsesResource(workers: Workers, profile: string, resource: string) {
    profile in workers && workers[profile].resource == Some(resource)
  }

  predicate RunsOn(db: Db, workers: Workers, a: Attempt, resource: string) {
    StateOf(db, a.task) == Some(Running) && UsesResource(workers, a.worker, resource)
  }

  /** A running task with an open attempt on a P40 worker, or a claimed task with P40 work. */
  predicate Holds(db: Db, workers: Workers, id: Id) {
    id in db.tasks &&
    match db.tasks[id].state
    case Running =>
      exists a | a in db.attempts ::
        a.task == id && a.open && a.worker in workers && workers[a.worker].resource == Some("p40")
    case Claimed => P40Work(db.tasks[id])
    case _ => false
  }

  /** The two scans of the busy check: open attempts of running tasks, then claimed rows. */
  predicate P40Busy(db: Db, workers: Workers) {
    || (exists a | a in db.attempts :: a.open && RunsOn(db, workers, a, P40))
    || (exists id | id in db.tasks :: db.tasks[id].state.Claimed? && RequiresP40(db.tasks[id]))
  }

  lemma BusyExactlyWhenHeld(db: Db, workers: Workers)
    ensures P40Busy(db, workers) <==> exists id :: id in db.tasks && Holds(db, workers, id)
  {
    assert forall id | id in db.tasks :: RequiresP40(db.tasks[id]) <==> P40Work(db.tasks[id]);
  }

  lemma BusyIgnoresControls(db: Db, db': Db, workers: Workers)
    requires db.tasks == db'.tasks && db.attempts == db'.attempts
    ensures P40Busy(db, workers) == P40Busy(db', workers)
  {
  }

  // ---------- Attempts ----------

  /** Every open attempt of the task ends, with the result given. */
  function Closed(attempts: seq<Attempt>, id: Id, result: Option<string> := None): (r: seq<Attempt>)
    ensures |r| == |attempts|
    ensures forall i :: 0 <= i < |r| ==> r[i] == Ended(attempts[i], id, result)
  {
    seq(|attempts|, i requires 0 <= i < |attempts| => Ended(attempts[i], id, result))
  }

  function Ended(a: Attempt, id: Id, result: Option<string>): Attempt {
    if a.task == id && a.open then a.(open := false, result := result) else a
  }

  /** The attempt of a task that was started last. */
  function Newest(attempts: seq<Attempt>, id: Id): (r: Option<Attempt>)
    ensures r.Some? ==> r.value.task == id
  {
    if attempts == [] then None
    else
      var last := attempts[|attempts| - 1];
      if last.task == id then Some(last) else Newest(attempts[..|attempts| - 1], id)
  }

  /** Ending one task's attempts shows on its newest attempt, if that was open, and nowhere else. */
  lemma {:induction false} NewestClosed(attempts: seq<Attempt>, id: Id, result: Option<string>, other: Id)
    ensures Newest(Closed(attempts, id, result), other) ==
      if Newest(attempts, other).None? then None else Some(Ended(Newest(attempts, other).value, id, result))
  {
    if attempts != [] {
      var n := |attempts| - 1;
      assert Closed(attempts, id, result)[..n] == Closed(attempts[..n], id, result);
      NewestClosed(attempts[..n], id, result, other);
    }
  }

  function OpenCount(attempts: seq<Attempt>, id: Id): nat {
    if attempts == [] then 0
    else
      var last := attempts[|attempts| - 1];
      OpenCount(attempts[..|attempts| - 1], id) + if last.task == id && last.open then 1 else 0
  }

  lemma {:induction false} OpenCountClosed(attempts: seq<Attempt>, id: Id, result: Option<string>, other: Id)
    ensures OpenCount(Closed(attempts, id, result), other) == if other == id then 0 else OpenCount(attempts, other)
  {
    if attempts != [] {
      var n := |attempts| - 1;
      assert Closed(attempts, id, result)[..n] == Closed(attempts[..n], id, result);
      OpenCountClosed(attempts[..n], id, result, other);
    }
  }

  // ---------- Readiness audit ----------

  /** Position of the newest event that switched planning on. */
  function LastPlanningOn(log: seq<ControlEvent>): (r: Option<nat>)
    ensures r.Some? ==> r.value < |log|
  {
    if log == [] then None
    else if log[|log| - 1] == Changed(PlanningControl, true) then Some(|log| - 1)
    else LastPlanningOn(log[..|log| - 1])
  }

  function LastReady(log: seq<ControlEvent>): (r: Option<nat>)
    ensures r.Some? ==> r.value < |log|
  {
    if log == [] then None
    else if log[|log| - 1] == P40Ready then Some(|log| - 1)
    else LastReady(log[..|log| - 1])
  }

  /** The test of _record_p40_ready_if_needed for a readiness event still missing. */
  predicate ReadyMissing(log: seq<ControlEvent>) {
    LastReady(log).None? || LastPlanningOn(log).None? || LastReady(log).value < LastPlanningOn(log).value
  }

  function WithReadyRecorded(db: Db, workers: Workers): Db {
    if db.controls.planning && !P40Busy(db, workers) && ReadyMissing(db.controlEvents)
    then db.(controlEvents := db.controlEvents + [P40Ready])
    else db
  }

  // ---------- One transition ----------

  /** The whole effect of moving task `id` to `row`: the row, the attempts it closes or
      opens, and the one event recorded for it. */
  function Moved(db: Db, id: Id, row: Task, name: string, started: Option<string>,
                 result: Option<string> := None): Db
    requires id in db.tasks
  {
    var from := db.tasks[id].state;
    db.(tasks := db.tasks[id := row],
        attempts := (if from == Running || started.Some? then Closed(db.attempts, id, result) else db.attempts)
                    + (if started.Some? then [Attempt(id, started.value, true, None)] else []),
        events := db.events + [Event(id, name, Some(from), row.state)])
  }

  function MovedTo(db: Db, id: Id, to: TaskState, name: string, started: Option<string> := None,
                   result: Option<string> := None): Db {
    if id in db.tasks then Moved(db, id, db.tasks[id].(state := to), name, started, result) else db
  }

  function MovedAt(db: Db, id: Id, to: TaskState, retryAt: Option<nat>, name: string,
                   result: Option<string> := None): Db {
    if id in db.tasks then Moved(db, id, db.tasks[id].(state := to, retryAt := retryAt), name, None, result) else db
  }

  /** What a whole transition writes: of the tasks only this row, and of the row only its state and, if the
      call sets one, its retry time; of the attempts only this task's open ones, which end with the
      result, and the one it starts; and one event. */
  lemma TransitionExactly(db: Db, id: Id, to: TaskState, retryAt: Option<nat>, name: string, started: Option<string>,
                          result: Option<string>)
    requires id in db.tasks
    ensures var was, moved := db.tasks[id], MovedTo(db, id, to, name, started, result);
      moved.tasks == db.tasks[id := was.(state := to)] &&
      moved.events == db.events + [Event(id, name, Some(was.state), to)] &&
      moved.controls == db.controls && moved.controlEvents == db.controlEvents &&
      |moved.attempts| == |db.attempts| + (if started.Some? then 1 else 0) &&
      (started.Some? ==> moved.attempts[|db.attempts|] == Attempt(id, started.value, true, None)) &&
      (forall i | 0 <= i < |db.attempts| ::
        moved.attempts[i] ==
        if db.attempts[i].task == id && db.attempts[i].open && (was.state == Running || started.Some?)
        then Attempt(id, db.attempts[i].worker, false, result) else db.attempts[i])
    ensures var timed := MovedAt(db, id, to, retryAt, name, result);
      timed == MovedTo(db, id, to, name, None, result)
        .(tasks := db.tasks[id := db.tasks[id].(state := to, retryAt := retryAt)])
  {
  }

  // ---------- A transition cut short ----------

  /** Which of a method's first two statements comes first. With the last, an error in closing the
      attempts goes unnoticed. */
  datatype Order = RowFirst | AttemptsFirst | AttemptsIfPossible

  predicate SameHistory(db: Db, now: Db) {
    now.tasks == db.tasks && now.attempts == db.attempts && now.events == db.events
  }

  /** Row, attempts and event have each landed or not. */
  predicate Mixture(db: Db, now: Db, full: Db) {
    (now.tasks == db.tasks || now.tasks == full.tasks) &&
    (now.attempts == db.attempts || now.attempts == full.attempts) &&
    (now.events == db.events || now.events == full.events)
  }

  /** Some of the statements that lead to `full` have landed; the event and the readiness audit come
      after the row. */
  predicate Partly(db: Db, now: Db, full: Db, order: Order) {
    Mixture(db, now, full) && now.controls == db.controls &&
    (now.events == full.events ==> now.tasks == full.tasks) &&
    (now.controlEvents == db.controlEvents ||
      (now.controlEvents == db.controlEvents + [P40Ready] && now.tasks == full.tasks)) &&
    match order
    case RowFirst => now.attempts == db.attempts || now.tasks == full.tasks
    case AttemptsFirst => now.tasks == db.tasks || now.attempts == full.attempts
    case AttemptsIfPossible => true
  }
}
