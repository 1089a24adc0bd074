// What the task event log means: replaying it gives the task's state, every step
// of it is an edge of the transition table, and terminal states are absorbing.
module EventReplay {
  import opened Prelude
  import opened SchedulerState

  function Replay(log: seq<Event>, id: Id): Option<TaskState> {
    if log == [] then None
    else
      var last := log[|log| - 1];
      if last.task == id then Some(last.to) else Replay(log[..|log| - 1], id)
  }

  /** Every event of `id` starts where replaying its predecessors ends, and follows an edge. */
  predicate Legal(log: seq<Event>, id: Id) {
    log == [] ||
    (var last := log[|log| - 1];
     var before := log[..|log| - 1];
     Legal(before, id) &&
     (last.task == id ==>
       last.from == Replay(before, id) &&
       if last.from.None? then last.to == Queued else Allowed(last.from.value, last.to)))
  }

  /** The log, the task table and the attempt table tell the same story about a task. */
  predicate TaskAgrees(db: Db, id: Id) {
    Legal(db.events, id) &&
    Replay(db.events, id) == StateOf(db, id) &&
    OpenCount(db.attempts, id) == if StateOf(db, id) == Some(Running) then 1 else 0
  }

  ghost predicate HistoryAgrees(db: Db) {
    forall id: Id :: TaskAgrees(db, id)
  }

  lemma EmptyHistoryAgrees(db: Db)
    requires db.tasks == map[] && db.attempts == [] && db.events == []
    ensures HistoryAgrees(db)
  {
  }

  lemma HistoryIgnoresControls(db: Db, now: Db)
    requires SameHistory(db, now)
    ensures HistoryAgrees(db) <==> HistoryAgrees(now)
  {
    assert forall id: Id :: TaskAgrees(now, id) == TaskAgrees(db, id);
  }

  // ---------- Changes to one task ----------

  /** What a method does to the history of its task. */
  datatype Change =
    | Admission(row: Task, name: string)
    | Transition(row: Task, name: string, started: Option<string>, result: Option<string>)

  /** A new task enters queued; a known one follows an edge, and starts an attempt if it is to run. */
  predicate Permitted(db: Db, id: Id, change: Change) {
    match change
    case Admission(row, _) => id !in db.tasks && row.state == Queued
    case Transition(row, _, started, _) =>
      id in db.tasks && Allowed(db.tasks[id].state, row.state) && (row.state == Running <==> started.Some?)
  }

  /** The change with all its statements done. */
  function Whole(db: Db, id: Id, change: Change): Db
    requires Permitted(db, id, change)
  {
    match change
    case Admission(row, name) =>
      db.(tasks := db.tasks[id := row], events := db.events + [Event(id, name, None, Queued)])
    case Transition(row, name, started, result) => Moved(db, id, row, name, started, result)
  }

  predicate EndsAttempts(db: Db, id: Id, change: Change) {
    change.Transition? && (StateOf(db, id) == Some(Running) || change.started.Some?)
  }

  lemma WholeAttempts(db: Db, id: Id, change: Change, other: Id)
    requires Permitted(db, id, change)
    ensures var after := Whole(db, id, change).attempts;
      (!EndsAttempts(db, id, change) ==> after == db.attempts) &&
      (other != id ==> OpenCount(after, other) == OpenCount(db.attempts, other)) &&
      (EndsAttempts(db, id, change) ==> OpenCount(after, id) == if change.started.Some? then 1 else 0)
  {
    if EndsAttempts(db, id, change) {
      var closed := Closed(db.attempts, id, change.result);
      OpenCountClosed(db.attempts, id, change.result, other);
      OpenCountClosed(db.attempts, id, change.result, id);
      if change.started.Some? {
        DropAppended(closed, Attempt(id, change.started.value, true, None));
      } else {
        assert closed + [] == closed;
      }
    } else if change.Transition? {
      assert db.attempts + [] == db.attempts;
    }
  }

  /** From any tables whatever: a change made in full leaves its task in agreement exactly when log and
      row agreed before, and so did the attempts unless the change ends them all. */
  lemma WholeAgreesExactly(db: Db, id: Id, change: Change)
    requires Permitted(db, id, change)
    ensures var logAgreed := Legal(db.events, id) && Replay(db.events, id) == StateOf(db, id);
      var full := Whole(db, id, change);
      (Legal(full.events, id) <==> logAgreed) &&
      (TaskAgrees(full, id) <==>
        logAgreed && (EndsAttempts(db, id, change) || OpenCount(db.attempts, id) == 0))
  {
    var full := Whole(db, id, change);
    DropAppended(db.events, full.events[|db.events|]);
    WholeAttempts(db, id, change, id);
  }

  /** A change cut short anywhere: starting in agreement, its task stays in agreement exactly when row,
      attempts and event landed together or none of them did. */
  lemma CutShortAgreesExactly(db: Db, now: Db, id: Id, change: Change)
    requires Permitted(db, id, change) && TaskAgrees(db, id)
    requires Mixture(db, now, Whole(db, id, change))
    ensures TaskAgrees(now, id) <==> SameHistory(db, now) || SameHistory(Whole(db, id, change), now)
  {
    var full := Whole(db, id, change);
    WholeAgreesExactly(db, id, change);
    PartsTell(db, now, id, change);
    assert SameHistory(db, now) ==> StateOf(now, id) == StateOf(db, id);
    assert SameHistory(full, now) ==> StateOf(now, id) == StateOf(full, id);
  }

  /** Each part of a change tells of itself whether it landed. */
  lemma PartsTell(db: Db, now: Db, id: Id, change: Change)
    requires Permitted(db, id, change) && TaskAgrees(db, id)
    requires Mixture(db, now, Whole(db, id, change))
    ensures var full := Whole(db, id, change);
      (StateOf(now, id) == StateOf(db, id) <==> now.tasks == db.tasks) &&
      (Replay(now.events, id) == StateOf(db, id) <==> now.events == db.events) &&
      (now.tasks != db.tasks ==> StateOf(now, id) == StateOf(full, id)) &&
      (now.events != db.events ==> Replay(now.events, id) == StateOf(full, id)) &&
      (EndsAttempts(db, id, change) ==>
        (OpenCount(now.attempts, id) == OpenCount(db.attempts, id) <==> now.attempts == db.attempts))
  {
    var full := Whole(db, id, change);
    DropAppended(db.events, full.events[|db.events|]);
    WholeAttempts(db, id, change, id);
  }

  /** ... and whatever landed, no other task is touched. */
  lemma OthersKeepAgreement(db: Db, now: Db, id: Id, change: Change, other: Id)
    requires Permitted(db, id, change) && Mixture(db, now, Whole(db, id, change)) && other != id
    ensures TaskAgrees(now, other) <==> TaskAgrees(db, other)
  {
    var full := Whole(db, id, change);
    DropAppended(db.events, full.events[|db.events|]);
    WholeAttempts(db, id, change, other);
  }

  lemma WholeKeepsHistory(db: Db, id: Id, change: Change)
    requires HistoryAgrees(db) && Permitted(db, id, change)
    ensures HistoryAgrees(Whole(db, id, change))
  {
    WholeAgreesExactly(db, id, change);
    forall other: Id ensures TaskAgrees(Whole(db, id, change), other) {
      assert TaskAgrees(db, other);
      if other != id {
        OthersKeepAgreement(db, Whole(db, id, change), id, change, other);
      }
    }
  }

  lemma {:induction false} IllegalStaysIllegal(log: seq<Event>, more: seq<Event>, id: Id)
    requires !Legal(log, id)
    ensures !Legal(log + more, id)
  {
    if more == [] {
      assert log + more == log;
    } else {
      var n := |more| - 1;
      assert (log + more)[..|log + more| - 1] == log + more[..n];
      IllegalStaysIllegal(log, more[..n], id);
    }
  }

  /** A row whose event was lost: the next change that is logged starts where replay is not, and no
      later event makes the log right again. */
  lemma LostEventIsNotRepaired(db: Db, id: Id, change: Change, more: seq<Event>)
    requires Replay(db.events, id) != StateOf(db, id) && Permitted(db, id, change)
    ensures !Legal(Whole(db, id, change).events + more, id)
  {
    WholeAgreesExactly(db, id, change);
    IllegalStaysIllegal(Whole(db, id, change).events, more, id);
  }

  /** The commit of a claim without the event that follows it, and then the start of the task. */
  lemma ClaimWithoutItsEvent(db: Db, id: Id, profile: string, more: seq<Event>)
    requires HistoryAgrees(db) && StateOf(db, id) == Some(Queued)
    ensures var now := MovedTo(db, id, Claimed, "task_claimed").(events := db.events);
      !HistoryAgrees(now) &&
      !Legal(MovedTo(now, id, Running, "task_started", Some(profile)).events + more, id)
  {
    assert TaskAgrees(db, id);
    var now := MovedTo(db, id, Claimed, "task_claimed").(events := db.events);
    assert !TaskAgrees(now, id);
    LostEventIsNotRepaired(now, id, Transition(now.tasks[id].(state := Running), "task_started", Some(profile), None),
                           more);
  }

  // ---------- Runs of calls ----------

  /** One call: a change to a task, whole or cut short, or something that leaves every history alone. */
  datatype Step = ChangeStep(id: Id, change: Change) | OtherStep

  predicate Leaves(db: Db, now: Db, step: Step) {
    SameHistory(db, now) ||
    (step.ChangeStep? && Permitted(db, step.id, step.change) && Mixture(db, now, Whole(db, step.id, step.change)))
  }

  /** All of it or nothing. */
  predicate InFull(db: Db, now: Db, step: Step) {
    SameHistory(db, now) ||
    (step.ChangeStep? && Permitted(db, step.id, step.change) && SameHistory(Whole(db, step.id, step.change), now))
  }

  predicate Run(dbs: seq<Db>, steps: seq<Step>) {
    |dbs| == |steps| + 1 && forall i :: 0 <= i < |steps| ==> Leaves(dbs[i], dbs[i + 1], steps[i])
  }

  predicate AgreesThroughout(dbs: seq<Db>, id: Id) {
    forall j :: 0 <= j < |dbs| ==> TaskAgrees(dbs[j], id)
  }

  /** Each call on this very task was made in full or not at all. */
  predicate NeverCutShort(dbs: seq<Db>, steps: seq<Step>, id: Id)
    requires Run(dbs, steps)
  {
    forall i :: 0 <= i < |steps| && steps[i].ChangeStep? && steps[i].id == id ==> InFull(dbs[i], dbs[i + 1], steps[i])
  }

  /** Over any run of calls on any tasks, cut short anywhere: log, row and attempts of a task agree at
      every point exactly when no call on this very task was cut short. */
  lemma {:induction false} HistoryAgreesExactly(dbs: seq<Db>, steps: seq<Step>, id: Id)
    requires Run(dbs, steps) && TaskAgrees(dbs[0], id)
    ensures AgreesThroughout(dbs, id) <==> NeverCutShort(dbs, steps, id)
  {
    if steps != [] {
      var n := |steps| - 1;
      var earlier := dbs[..n + 1];
      HistoryAgreesExactly(earlier, steps[..n], id);
      Extended(dbs, steps, id);
      if AgreesThroughout(earlier, id) {
        assert TaskAgrees(earlier[n], id);
        StepAgreesExactly(dbs[n], dbs[n + 1], steps[n], id);
      }
    }
  }

  lemma Extended(dbs: seq<Db>, steps: seq<Step>, id: Id)
    requires Run(dbs, steps) && steps != []
    ensures var n := |steps| - 1;
      Run(dbs[..n + 1], steps[..n]) &&
      (AgreesThroughout(dbs, id) <==> AgreesThroughout(dbs[..n + 1], id) && TaskAgrees(dbs[n + 1], id)) &&
      (NeverCutShort(dbs, steps, id) <==>
        NeverCutShort(dbs[..n + 1], steps[..n], id) &&
        (steps[n].ChangeStep? && steps[n].id == id ==> InFull(dbs[n], dbs[n + 1], steps[n])))
  {
    var n := |steps| - 1;
    assert dbs == dbs[..n + 1] + [dbs[n + 1]] && steps == steps[..n] + [steps[n]];
    forall j | 0 <= j < |dbs| && AgreesThroughout(dbs[..n + 1], id) && TaskAgrees(dbs[n + 1], id)
      ensures TaskAgrees(dbs[j], id)
    {
      assert j <= n ==> dbs[j] == dbs[..n + 1][j];
    }
  }

  lemma StepAgreesExactly(db: Db, now: Db, step: Step, id: Id)
    requires Leaves(db, now, step) && TaskAgrees(db, id)
    ensures TaskAgrees(now, id) <==> (step.ChangeStep? && step.id == id ==> InFull(db, now, step))
  {
    if !SameHistory(db, now) {
      if step.id == id {
        CutShortAgreesExactly(db, now, id, step.change);
      } else {
        OthersKeepAgreement(db, now, step.id, step.change, id);
      }
    }
  }

  /** Once a task's log is broken, no run of calls mends it. */
  lemma {:induction false} BrokenLogStaysBroken(dbs: seq<Db>, steps: seq<Step>, id: Id)
    requires Run(dbs, steps) && !Legal(dbs[0].events, id)
    ensures !Legal(dbs[|steps|].events, id)
  {
    if steps != [] {
      var n := |steps| - 1;
      BrokenLogStaysBroken(dbs[..n + 1], steps[..n], id);
      if !SameHistory(dbs[n], dbs[n + 1]) {
        var full := Whole(dbs[n], steps[n].id, steps[n].change);
        IllegalStaysIllegal(dbs[n].events, [full.events[|dbs[n].events|]], id);
      }
    }
  }

  // ---------- What a legal log says ----------

  /** Two events of a task with none of its events between them join up along an edge. */
  lemma {:induction false} ConsecutiveEventsFollowTheTable(log: seq<Event>, id: Id, i: nat, j: nat)
    requires Legal(log, id)
    requires i < j < |log| && log[i].task == id && log[j].task == id
    requires forall k :: i < k < j ==> log[k].task != id
    ensures log[j].from == Some(log[i].to) && Allowed(log[i].to, log[j].to)
  {
    var n := |log| - 1;
    if j < n {
      ConsecutiveEventsFollowTheTable(log[..n], id, i, j);
    } else {
      LatestEventDecides(log[..n], id, i);
    }
  }

  /** The first event of a task creates it in the queue. */
  lemma {:induction false} FirstEventIsCreation(log: seq<Event>, id: Id, i: nat)
    requires Legal(log, id) && i < |log| && log[i].task == id
    requires forall k :: 0 <= k < i ==> log[k].task != id
    ensures log[i].from == None && log[i].to == Queued
  {
    var n := |log| - 1;
    if i < n {
      FirstEventIsCreation(log[..n], id, i);
    } else {
      NeverNamed(log[..n], id);
    }
  }

  lemma {:induction false} NeverNamed(log: seq<Event>, id: Id)
    requires forall k :: 0 <= k < |log| ==> log[k].task != id
    ensures Replay(log, id) == None
  {
    if log != [] {
      NeverNamed(log[..|log| - 1], id);
    }
  }

  /** How a task can get anywhere after its creation: the event before this one left it where the call
      expects it. */
  lemma ArrivalsExactly(log: seq<Event>, id: Id, i: nat, j: nat)
    requires Legal(log, id)
    requires i < j < |log| && log[i].task == id && log[j].task == id
    requires forall k :: i < k < j ==> log[k].task != id
    ensures match log[j].to
      case Accepted => false
      case Queued => log[i].to in {Accepted, RetryWait, AwaitingReview}
      case Claimed => log[i].to == Queued
      case Running => log[i].to == Claimed
      case RetryWait => log[i].to in {Claimed, Running}
      case AwaitingReview => log[i].to == Running
      case Succeeded => log[i].to in {Running, AwaitingReview}
      case FailedTerminal => log[i].to in {Claimed, Running, AwaitingReview}
      case Cancelled => log[i].to in {Accepted, Queued, Claimed}
  {
    ConsecutiveEventsFollowTheTable(log, id, i, j);
  }

  lemma {:induction false} LatestEventDecides(log: seq<Event>, id: Id, i: nat)
    requires i < |log| && log[i].task == id
    requires forall k :: i < k < |log| ==> log[k].task != id
    ensures Replay(log, id) == Some(log[i].to)
  {
    if i < |log| - 1 {
      LatestEventDecides(log[..|log| - 1], id, i);
    }
  }

  /** Once replay reaches a terminal state, the task never has another event. */
  lemma {:induction false} TerminalIsAbsorbing(log: seq<Event>, id: Id, k: nat)
    requires Legal(log, id) && k <= |log|
    requires Replay(log[..k], id).Some? && Terminal(Replay(log[..k], id).value)
    ensures forall j :: k <= j < |log| ==> log[j].task != id
    ensures Replay(log, id) == Replay(log[..k], id)
  {
    if k == |log| {
      assert log[..k] == log;
    } else {
      var n := |log| - 1;
      assert log[..n][..k] == log[..k];
      TerminalIsAbsorbing(log[..n], id, k);
    }
  }
}
