// Which queued tasks the dispatcher may take next, and in which order
// (get_pending_tasks and get_next_task over the daily dispatch policy).
module TaskSelection {
  import opened Prelude
  import opened SchedulerState
  import opened SchedulerService

  datatype Window = ImageWindow | BatchWindow | Restricted
  datatype DispatchPolicy = DispatchPolicy(imageStart: nat, imageEnd: nat)

  function PolicyWindow(policy: DispatchPolicy, hour: nat, pendingVision: nat): Window {
    if hour >= policy.imageEnd && hour < 24 then Restricted
    else if pendingVision == 0 && hour >= policy.imageStart then BatchWindow
    else if hour >= policy.imageStart then ImageWindow
    else Restricted
  }

  function VisionPending(db: Db): set<Id> {
    set id | id in db.tasks && db.tasks[id].state in {Queued, Claimed, Running} &&
             (db.tasks[id].mode.VisionMode? || db.tasks[id].kind.Vision?)
  }

  function CurrentWindow(db: Db, policy: DispatchPolicy, hour: nat): Window {
    // Vision work waits for the P40 during planning and must not keep the image window open.
    var pending := if db.controls.planning then 0 else |VisionPending(db)|;
    if db.controls.night then (if pending > 0 then ImageWindow else BatchWindow)
    else PolicyWindow(policy, hour, pending)
  }

  /** The WHERE clause of each window's query. */
  predicate Admitted(w: Window, t: Task) {
    match w
    case ImageWindow => t.mode.VisionMode? || t.mode.ImmediateMode? || t.schedule.ImmediateSchedule?
    case BatchWindow =>
      t.mode.BatchMode? || t.mode.ImmediateMode? || t.schedule.BatchSchedule? || t.schedule.ImmediateSchedule?
    case Restricted => t.mode.ImmediateMode? || t.schedule.ImmediateSchedule?
  }

  predicate Admissible(db: Db, policy: DispatchPolicy, hour: nat, id: Id) {
    db.controls.schedule && StateOf(db, id) == Some(Queued) &&
    Admitted(CurrentWindow(db, policy, hour), db.tasks[id]) &&
    !(db.controls.planning && RequiresP40(db.tasks[id]))
  }

  function Rank(first: bool): int {
    if first then 0 else 1
  }

  /** The ORDER BY of each window's query, as a lexicographic comparison. */
  predicate NotAfter(w: Window, t: Task, u: Task) {
    var tw, uw := Rank(IsWork(t)), Rank(IsWork(u));
    var ti, ui := Rank(t.mode.ImmediateMode?), Rank(u.mode.ImmediateMode?);
    match w
    case ImageWindow => ti < ui || (ti == ui && (tw < uw || (tw == uw && ByPriority(t, u))))
    case BatchWindow => tw < uw || (tw == uw && (ti < ui || (ti == ui && ByPriority(t, u))))
    case Restricted => tw < uw || (tw == uw && ByPriority(t, u))
  }

  predicate IsWork(t: Task) {
    (t.kind.Coding? || t.kind.Vision?) && !t.reviewTag
  }

  predicate ByPriority(t: Task, u: Task) {
    t.priority > u.priority || (t.priority == u.priority && t.createdAt <= u.createdAt)
  }

  ghost predicate Sorted(db: Db, w: Window, ids: seq<Id>) {
    (forall i :: 0 <= i < |ids| ==> ids[i] in db.tasks) &&
    forall i, j :: 0 <= i < j < |ids| ==> ids[i] != ids[j] && NotAfter(w, db.tasks[ids[i]], db.tasks[ids[j]])
  }

  /** What the query promises: distinct admissible tasks in order, as many as the limit allows,
      and nothing that was left out comes before anything returned. */
  ghost predicate IsSelection(db: Db, policy: DispatchPolicy, hour: nat, limit: Option<int>, ids: seq<Id>) {
    var w := CurrentWindow(db, policy, hour);
    Sorted(db, w, ids) &&
    (forall i :: 0 <= i < |ids| ==> Admissible(db, policy, hour, ids[i])) &&
    (limit.Some? ==> |ids| <= if limit.value < 1 then 0 else limit.value) &&
    (forall other :: Admissible(db, policy, hour, other) && other !in ids ==>
      limit.Some? && |ids| == (if limit.value < 1 then 0 else limit.value) &&
      forall i :: 0 <= i < |ids| ==> NotAfter(w, db.tasks[ids[i]], db.tasks[other]))
  }

  method GetPendingTasks(db: Db, policy: DispatchPolicy, hour: nat, limit: Option<int>) returns (ids: seq<Id>)
    ensures IsSelection(db, policy, hour, limit, ids)
  {
    if limit.Some? && limit.value < 1 {
      return [];
    }
    var w := CurrentWindow(db, policy, hour);
    ids := [];
    var rest := db.tasks.Keys;
    while rest != {}
      invariant rest <= db.tasks.Keys
      invariant Sorted(db, w, ids)
      invariant forall other :: other in ids ==> Admissible(db, policy, hour, other) && other !in rest
      invariant forall other :: Admissible(db, policy, hour, other) ==> other in rest || other in ids
      decreases rest
    {
      var id :| id in rest;
      rest := rest - {id};
      if Admissible(db, policy, hour, id) {
        ids := Insert(db, w, ids, id);
      }
    }
    if limit.Some? && limit.value < |ids| {
      ghost var all := ids;
      ids := ids[..limit.value];
      forall other | Admissible(db, policy, hour, other) && other !in ids
        ensures forall i :: 0 <= i < |ids| ==> NotAfter(w, db.tasks[ids[i]], db.tasks[other])
      {
        var k :| 0 <= k < |all| && all[k] == other;
        assert k >= |ids|;
      }
    }
  }

  /** Put `id` after every task that must not come after it. */
  method Insert(db: Db, w: Window, ids: seq<Id>, id: Id) returns (longer: seq<Id>)
    requires Sorted(db, w, ids) && id in db.tasks && id !in ids
    ensures Sorted(db, w, longer)
    ensures forall other :: other in longer <==> other in ids || other == id
  {
    var k := 0;
    while k < |ids| && NotAfter(w, db.tasks[ids[k]], db.tasks[id])
      invariant 0 <= k <= |ids|
      invariant forall i :: 0 <= i < k ==> NotAfter(w, db.tasks[ids[i]], db.tasks[id])
    {
      k := k + 1;
    }
    InsertKeepsSorted(db, w, ids, id, k);
    longer := ids[..k] + [id] + ids[k..];
    assert ids == ids[..k] + ids[k..];
  }

  lemma InsertKeepsSorted(db: Db, w: Window, ids: seq<Id>, id: Id, k: nat)
    requires Sorted(db, w, ids) && id in db.tasks && id !in ids && k <= |ids|
    requires forall i :: 0 <= i < k ==> NotAfter(w, db.tasks[ids[i]], db.tasks[id])
    requires k < |ids| ==> !NotAfter(w, db.tasks[ids[k]], db.tasks[id])
    ensures Sorted(db, w, ids[..k] + [id] + ids[k..])
  {
  }

  // ---------- The rules, window by window ----------

  predicate VisionTask(t: Task) {
    (t.kind == Vision || t.mode == VisionMode) && (t.state == Queued || t.state == Claimed || t.state == Running)
  }

  predicate VisionAbout(db: Db) {
    exists id | id in db.tasks :: VisionTask(db.tasks[id])
  }

  /** Which window is open. Vision work is pending while a vision task is queued, claimed or running,
      and does not count during planning. By night it keeps the image window open at any hour; by day
      it does so from the start hour to the end hour, outside of which nothing but immediate work runs. */
  lemma WindowExactly(db: Db, policy: DispatchPolicy, hour: nat)
    requires hour < 24
    ensures var pending := !db.controls.planning && VisionAbout(db);
      var open := db.controls.night || policy.imageStart <= hour < policy.imageEnd;
      (CurrentWindow(db, policy, hour) == ImageWindow <==> open && pending) &&
      (CurrentWindow(db, policy, hour) == BatchWindow <==> open && !pending) &&
      (CurrentWindow(db, policy, hour) == Restricted <==> !open)
  {
    if VisionAbout(db) {
      var id :| id in db.tasks && VisionTask(db.tasks[id]);
      assert id in VisionPending(db);
    } else {
      assert VisionPending(db) == {};
    }
  }

  /** What a window keeps out: work without an immediate mode or schedule, in the image window unless it is
      vision by mode, in the batch window unless it is batch by mode or schedule. */
  lemma KeptOutExactly(t: Task)
    ensures var urgent := t.mode == ImmediateMode || t.schedule == ImmediateSchedule;
      (!Admitted(Restricted, t) <==> !urgent) &&
      (!Admitted(ImageWindow, t) <==> !urgent && t.mode != VisionMode) &&
      (!Admitted(BatchWindow, t) <==>
        !urgent && t.mode in {VisionMode, MaintenanceMode} && t.schedule == NightlySchedule)
  {
  }

  /** The order of a selection, against what is returned later and what is left out. The image window
      puts immediate work first, then coding and vision work before the rest; the batch window the other
      way round; the restricted one looks at the kind only. Priority and age come last. */
  lemma OrderExactly(db: Db, policy: DispatchPolicy, hour: nat, limit: Option<int>, ids: seq<Id>, i: nat, other: Id)
    requires IsSelection(db, policy, hour, limit, ids) && i < |ids|
    requires Admissible(db, policy, hour, other) && (forall k :: 0 <= k <= i ==> ids[k] != other)
    ensures var w := CurrentWindow(db, policy, hour);
      var t, u := db.tasks[ids[i]], db.tasks[other];
      var tWork := (t.kind == Vision || t.kind == Coding) && !t.reviewTag;
      var uWork := (u.kind == Vision || u.kind == Coding) && !u.reviewTag;
      var tNow, uNow := t.mode == ImmediateMode, u.mode == ImmediateMode;
      (w == ImageWindow ==> (uNow ==> tNow) && (uNow == tNow && uWork ==> tWork)) &&
      (w == BatchWindow ==> (uWork ==> tWork) && (uWork == tWork && uNow ==> tNow)) &&
      (w == Restricted ==> (uWork ==> tWork)) &&
      (tWork == uWork && (w == Restricted || tNow == uNow) ==>
        t.priority >= u.priority && (t.priority == u.priority ==> t.createdAt <= u.createdAt))
  {
    if other in ids {
      var j :| 0 <= j < |ids| && ids[j] == other;
      assert i < j;
    }
    assert NotAfter(CurrentWindow(db, policy, hour), db.tasks[ids[i]], db.tasks[other]);
  }

  // ---------- What a selection guarantees ----------

  /** Immediate work is admitted in every window, at every hour and in both modes. */
  lemma ImmediateAlwaysAdmitted(db: Db, policy: DispatchPolicy, hour: nat, id: Id)
    requires db.controls.schedule && StateOf(db, id) == Some(Queued)
    requires db.tasks[id].mode.ImmediateMode? || db.tasks[id].schedule.ImmediateSchedule?
    ensures Admissible(db, policy, hour, id) <==> ClaimPermitted(db, id)
  {
  }

  /** With planning off, nothing that can only run as batch work is returned while any vision
      task is queued, claimed or running. */
  lemma BatchWaitsForVision(db: Db, policy: DispatchPolicy, hour: nat, limit: Option<int>, ids: seq<Id>, vision: Id)
    requires IsSelection(db, policy, hour, limit, ids)
    requires !db.controls.planning && vision in db.tasks && VisionTask(db.tasks[vision])
    ensures forall i :: 0 <= i < |ids| ==>
      var t := db.tasks[ids[i]];
      t.schedule.ImmediateSchedule? || t.mode.ImmediateMode? || t.mode.VisionMode?
  {
    assert vision in VisionPending(db);
  }

  /** Every returned task, the head included, could be claimed from the very same state; so none
      requires the P40 while planning is on. */
  lemma SelectedIsClaimable(db: Db, policy: DispatchPolicy, hour: nat, limit: Option<int>, ids: seq<Id>, i: nat)
    requires IsSelection(db, policy, hour, limit, ids) && i < |ids|
    ensures ClaimPermitted(db, ids[i])
    ensures db.controls.planning ==> !P40Work(db.tasks[ids[i]])
  {
    RequiresExactlyP40Work(db.tasks[ids[i]]);
  }

  /** get_next_task has nothing to offer exactly when nothing is admissible. */
  lemma NextTaskExistsExactlyWhenAdmissible(db: Db, policy: DispatchPolicy, hour: nat, ids: seq<Id>)
    requires IsSelection(db, policy, hour, Some(1), ids)
    ensures ids == [] <==> forall id :: !Admissible(db, policy, hour, id)
  {
    if ids != [] {
      assert Admissible(db, policy, hour, ids[0]);
    }
  }

  /** A task is out of reach of every window exactly when it is nightly maintenance. */
  lemma NeverAdmittedExactlyNightlyMaintenance(t: Task)
    ensures (forall w :: !Admitted(w, t)) <==> t.mode.MaintenanceMode? && t.schedule.NightlySchedule?
  {
    assert Admitted(ImageWindow, t) || Admitted(BatchWindow, t) || Admitted(Restricted, t) <==>
           !(t.mode.MaintenanceMode? && t.schedule.NightlySchedule?);
  }
}
