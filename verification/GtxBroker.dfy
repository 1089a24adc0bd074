// The GTX broker: routing state per task, kept as one current state and a bounded history.
module GtxBroker {
  import opened Prelude
  import opened Classifications
  import opened EscalationPolicy

  type TaskId = string

  const HISTORY_LIMIT := 100

  datatype BrokerState = BrokerState(
    task: TaskId,
    selected: WorkerName,
    attempt: nat,
    gtxFailures: nat,
    p40Failures: nat)

  datatype Attempt = Attempt(classification: Classification, findings: Findings)

  // ---------- One task ----------

  /** The classifier picks one of two workers; the attempt count starts over. */
  function Routed(task: TaskId, needsCodex: bool): BrokerState {
    BrokerState(task, if needsCodex then CODEX else P40_WORKER, 1, 0, 0)
  }

  /** What a request says about an earlier attempt. */
  datatype Previous = Previous(attempt: Attempt, number: nat, gtxFailures: nat, p40Failures: nat)

  /** A request that reports an earlier attempt is routed by the escalation policy; one with attempt
      number zero, or none, is a first routing. */
  function RoutedAfter(task: TaskId, needsCodex: bool, previous: Option<Previous>, workflow: Workflow): BrokerState {
    if previous.None? || previous.value.number == 0 then Routed(task, needsCodex)
    else
      var p := previous.value;
      var result := Evaluate(p.attempt.classification, p.attempt.findings, p.number, p.gtxFailures, workflow);
      BrokerState(task, result.target, p.number + 1, p.gtxFailures, p.p40Failures)
  }

  function Recorded(s: BrokerState, a: Attempt, workflow: Workflow): BrokerState {
    var substantive := Substantive(a.classification);
    var gtx := s.gtxFailures + if substantive && StartsWith(s.selected, "gtx_") then 1 else 0;
    var onP40 := !StartsWith(s.selected, "gtx_") && s.selected == P40_WORKER;
    var p40 := s.p40Failures + if substantive && onP40 then 1 else 0;
    var result := Evaluate(a.classification, a.findings, s.attempt + 1, gtx, workflow);
    BrokerState(s.task, result.target, s.attempt + 1, gtx, p40)
  }

  /** What recording an attempt does to the state of its task: the attempt number goes up by one; a failure
      of the code counts against the worker that was selected, GTX or P40; the next worker is what the
      policy says of the attempt number reached and the failures counted by then. */
  lemma RecordedExactly(s: BrokerState, a: Attempt, workflow: Workflow)
    ensures var next := Recorded(s, a, workflow);
      var code := a.classification == PartialCode || a.classification == IncorrectCode ||
        a.classification == TestsFailed;
      var onGtx := |s.selected| >= 4 && s.selected[..4] == "gtx_";
      next.task == s.task && next.attempt == s.attempt + 1 &&
      next.gtxFailures == s.gtxFailures + (if code && onGtx then 1 else 0) &&
      next.p40Failures == s.p40Failures + (if code && s.selected == "p40_qwen35" then 1 else 0) &&
      next.selected == Evaluate(a.classification, a.findings, s.attempt + 1, next.gtxFailures, workflow).target
  {
    NeitherIsGtx();
  }

  /** The states of a task from its routing on, one per attempt. */
  function States(first: BrokerState, attempts: seq<Attempt>): (states: seq<BrokerState>)
    ensures |states| == |attempts| + 1
  {
    if attempts == [] then [first]
    else
      var before := States(first, attempts[..|attempts| - 1]);
      before + [Recorded(before[|before| - 1], attempts[|attempts| - 1], DirectEscalation)]
  }

  function P40Selections(states: seq<BrokerState>): nat {
    if states == [] then 0
    else P40Selections(states[..|states| - 1]) + if states[|states| - 1].selected == P40_WORKER then 1 else 0
  }

  lemma NeitherIsGtx()
    ensures !StartsWith(P40_WORKER, "gtx_") && !StartsWith(CODEX, "gtx_")
  {
    assert P40_WORKER[..4][0] == 'p' && CODEX[..4][0] == 'c' && "gtx_"[0] == 'g';
  }

  predicate Triggered(a: Attempt) {
    Substantive(a.classification) && SendsToP40(a.findings)
  }

  lemma RecordedCounts(s: BrokerState, a: Attempt)
    requires s.selected in {P40_WORKER, CODEX}
    ensures var s' := Recorded(s, a, DirectEscalation);
      s'.attempt == s.attempt + 1 && s'.gtxFailures == s.gtxFailures && s'.task == s.task &&
      s'.p40Failures == s.p40Failures + (if Substantive(a.classification) && s.selected == P40_WORKER then 1 else 0) &&
      s'.selected in {P40_WORKER, CODEX} &&
      (s.attempt >= MAX_P40_ATTEMPTS ==> (s'.selected == CODEX <==> !Triggered(a)))
  {
    NeitherIsGtx();
    assert CODEX[0] == 'c' && P40_WORKER[0] == 'p';
    P40ExactlyWithinLimit(a.classification, a.findings, s.attempt + 1, s.gtxFailures);
  }

  predicate CountedUp(states: seq<BrokerState>, task: TaskId) {
    forall i | 0 <= i < |states| ::
      states[i].attempt == i + 1 && states[i].gtxFailures == 0 && states[i].task == task &&
      states[i].p40Failures <= i && states[i].selected in {P40_WORKER, CODEX}
  }

  /** Attempt numbers count up by one and only P40 failures are ever counted. */
  lemma {:induction false} AttemptsCountUp(task: TaskId, needsCodex: bool, attempts: seq<Attempt>)
    ensures CountedUp(States(Routed(task, needsCodex), attempts), task)
  {
    if attempts != [] {
      var n := |attempts| - 1;
      AttemptsCountUp(task, needsCodex, attempts[..n]);
      var before := States(Routed(task, needsCodex), attempts[..n]);
      RecordedCounts(before[n], attempts[n]);
    }
  }

  predicate CodexBeyondLimit(states: seq<BrokerState>) {
    forall i | MAX_P40_ATTEMPTS <= i < |states| :: states[i].selected == CODEX
  }

  /** No result from the third on carries a trigger that sends it to the P40 whatever its number. */
  predicate LateUntriggered(attempts: seq<Attempt>) {
    forall i | MAX_P40_ATTEMPTS - 1 <= i < |attempts| :: !Triggered(attempts[i])
  }

  /** Every selection after the third attempt is codex exactly when no result from the third on has a
      repeated-error or solves-test trigger. */
  lemma {:induction false} CodexAfterThreeExactly(task: TaskId, needsCodex: bool, attempts: seq<Attempt>)
    ensures CodexBeyondLimit(States(Routed(task, needsCodex), attempts)) <==> LateUntriggered(attempts)
  {
    if attempts != [] {
      var n := |attempts| - 1;
      CodexAfterThreeExactly(task, needsCodex, attempts[..n]);
      var next := NextSelection(task, needsCodex, attempts);
      BeyondLimitAppended(States(Routed(task, needsCodex), attempts[..n]), next);
      LateStep(attempts);
    }
  }

  /** The state a run ends in, and when it selects codex beyond the limit. */
  lemma NextSelection(task: TaskId, needsCodex: bool, attempts: seq<Attempt>) returns (next: BrokerState)
    requires attempts != []
    ensures var before := attempts[..|attempts| - 1];
      States(Routed(task, needsCodex), attempts) == States(Routed(task, needsCodex), before) + [next]
    ensures |attempts| >= MAX_P40_ATTEMPTS ==> (next.selected == CODEX <==> !Triggered(attempts[|attempts| - 1]))
  {
    var n := |attempts| - 1;
    var last := States(Routed(task, needsCodex), attempts[..n])[n];
    AttemptsCountUp(task, needsCodex, attempts[..n]);
    next := Recorded(last, attempts[n], DirectEscalation);
    RecordedCounts(last, attempts[n]);
  }

  lemma BeyondLimitAppended(before: seq<BrokerState>, next: BrokerState)
    ensures CodexBeyondLimit(before + [next]) <==>
      CodexBeyondLimit(before) && (|before| >= MAX_P40_ATTEMPTS ==> next.selected == CODEX)
  {
    var all := before + [next];
    assert forall i | 0 <= i < |before| :: all[i] == before[i];
    assert all[|before|] == next;
  }

  lemma LateStep(attempts: seq<Attempt>)
    requires attempts != []
    ensures var n := |attempts| - 1;
      LateUntriggered(attempts) <==>
      LateUntriggered(attempts[..n]) && (n >= MAX_P40_ATTEMPTS - 1 ==> !Triggered(attempts[n]))
  {
  }

  lemma {:induction false} SelectionsWithin(states: seq<BrokerState>)
    requires CodexBeyondLimit(states)
    ensures P40Selections(states) <= if |states| <= MAX_P40_ATTEMPTS then |states| else MAX_P40_ATTEMPTS
  {
    if states != [] {
      SelectionsWithin(states[..|states| - 1]);
    }
  }

  /** Under that condition the P40 is selected for three attempts at most. */
  lemma P40ThreeAttemptsAtMost(task: TaskId, needsCodex: bool, attempts: seq<Attempt>)
    requires LateUntriggered(attempts)
    ensures var states := States(Routed(task, needsCodex), attempts);
      CountedUp(states, task) && CodexBeyondLimit(states) && P40Selections(states) <= MAX_P40_ATTEMPTS
  {
    AttemptsCountUp(task, needsCodex, attempts);
    CodexAfterThreeExactly(task, needsCodex, attempts);
    SelectionsWithin(States(Routed(task, needsCodex), attempts));
  }

  /** A failure that no trigger takes anywhere. */
  predicate Plain(a: Attempt) {
    !a.classification.Success? && (Substantive(a.classification) ==> Unremarkable(a.findings))
  }

  function TriggerCount(attempts: seq<Attempt>): nat {
    if attempts == [] then 0
    else TriggerCount(attempts[..|attempts| - 1]) + if Triggered(attempts[|attempts| - 1]) then 1 else 0
  }

  function PlainAt(attempts: seq<Attempt>, i: nat): nat {
    if i < |attempts| && Plain(attempts[i]) then 1 else 0
  }

  lemma NextIsP40Exactly(s: BrokerState, a: Attempt)
    requires s.selected in {P40_WORKER, CODEX}
    ensures Recorded(s, a, DirectEscalation).selected == P40_WORKER <==>
      Triggered(a) || (Plain(a) && s.attempt < MAX_P40_ATTEMPTS)
  {
    NeitherIsGtx();
    P40ExactlyWithinLimit(a.classification, a.findings, s.attempt + 1, s.gtxFailures);
  }

  lemma PlainStep(attempts: seq<Attempt>)
    requires attempts != []
    ensures var n := |attempts| - 1;
      PlainAt(attempts, 0) + PlainAt(attempts, 1) ==
      PlainAt(attempts[..n], 0) + PlainAt(attempts[..n], 1) + if n < 2 && Plain(attempts[n]) then 1 else 0
  {
  }

  /** How often the P40 is selected, for every task: by the first routing, after each of the first two
      results that is a plain failure, and after every triggered result whatever its number. */
  lemma {:induction false} P40SelectionsExactly(task: TaskId, needsCodex: bool, attempts: seq<Attempt>)
    ensures P40Selections(States(Routed(task, needsCodex), attempts)) ==
      (if needsCodex then 0 else 1) + PlainAt(attempts, 0) + PlainAt(attempts, 1) + TriggerCount(attempts)
  {
    var states := States(Routed(task, needsCodex), attempts);
    if attempts == [] {
      assert states[..0] == [] && CODEX[0] != P40_WORKER[0];
    } else {
      var n := |attempts| - 1;
      P40SelectionsExactly(task, needsCodex, attempts[..n]);
      AttemptsCountUp(task, needsCodex, attempts[..n]);
      var before := States(Routed(task, needsCodex), attempts[..n]);
      DropAppended(before, states[n + 1]);
      NextIsP40Exactly(before[n], attempts[n]);
      PlainStep(attempts);
    }
  }

  /** The bound is lost to the triggers alone: n reports of the same error select the P40 n + 1 times. */
  lemma {:induction false} RepeatedErrorsHaveNoLimit(task: TaskId, n: nat)
    ensures var again := Attempt(TestsFailed, Findings(false, false, true, false, false, false, false, 0));
      P40Selections(States(Routed(task, false), seq(n, _ => again))) == n + 1
  {
    var again := Attempt(TestsFailed, Findings(false, false, true, false, false, false, false, 0));
    var attempts := seq(n, _ => again);
    var states := States(Routed(task, false), attempts);
    if n == 0 {
      assert states[..0] == [];
    } else {
      RepeatedErrorsHaveNoLimit(task, n - 1);
      assert attempts[..n - 1] == seq(n - 1, _ => again);
      var before := States(Routed(task, false), attempts[..n - 1]);
      DropAppended(before, states[n]);
    }
  }

  // ---------- The bounded history ----------

  /** The newest state of a task in a history. */
  function Newest(history: seq<BrokerState>, task: TaskId): Option<BrokerState> {
    if history == [] then None
    else
      var last := history[|history| - 1];
      if last.task == task then Some(last) else Newest(history[..|history| - 1], task)
  }

  function LastOnes(full: seq<BrokerState>): seq<BrokerState> {
    if |full| <= HISTORY_LIMIT then full else full[|full| - HISTORY_LIMIT..]
  }

  /** Some entry of the task is among the last hundred. */
  predicate InWindow(full: seq<BrokerState>, task: TaskId) {
    exists i :: 0 <= i < |full| && |full| - HISTORY_LIMIT <= i && full[i].task == task
  }

  predicate NoneAfter(history: seq<BrokerState>, task: TaskId, i: int)
    requires 0 <= i
  {
    forall j | i < j < |history| :: history[j].task != task
  }

  lemma {:induction false} NewestIsThere(history: seq<BrokerState>, task: TaskId)
    ensures Newest(history, task).Some? <==> exists i :: 0 <= i < |history| && history[i].task == task
    ensures Newest(history, task).Some? ==> Newest(history, task).value.task == task
    ensures Newest(history, task).Some? ==>
      exists i :: 0 <= i < |history| && history[i] == Newest(history, task).value && NoneAfter(history, task, i)
  {
    if history != [] {
      NewestIsThere(history[..|history| - 1], task);
      if history[|history| - 1].task != task && Newest(history, task).Some? {
        var before := history[..|history| - 1];
        var i :| 0 <= i < |before| && before[i] == Newest(history, task).value && NoneAfter(before, task, i);
        assert history[i] == before[i] && NoneAfter(history, task, i);
      }
      if i :| 0 <= i < |history| && history[i].task == task && i < |history| - 1 {
        assert history[..|history| - 1][i].task == task;
      }
    }
  }

  lemma {:induction false} NewestOfSuffix(full: seq<BrokerState>, k: nat, task: TaskId)
    requires k <= |full|
    ensures Newest(full, task) ==
      if Newest(full[k..], task).Some? then Newest(full[k..], task) else Newest(full[..k], task)
  {
    if k == |full| {
      assert full[..k] == full;
    } else {
      var n := |full| - 1;
      assert full[..n][k..] == full[k..][..n - k];
      assert full[..n][..k] == full[..k];
      NewestOfSuffix(full[..n], k, task);
    }
  }

  /** Looking a task up in the bounded history agrees with looking it up in everything ever
      recorded exactly when the task is unknown or was recorded within the last hundred entries. */
  lemma LookupAgreesExactly(full: seq<BrokerState>, task: TaskId)
    ensures Newest(LastOnes(full), task) == Newest(full, task) <==>
      (InWindow(full, task) || Newest(full, task).None?)
  {
    var k := if |full| <= HISTORY_LIMIT then 0 else |full| - HISTORY_LIMIT;
    assert LastOnes(full) == full[k..];
    NewestOfSuffix(full, k, task);
    NewestIsThere(full[k..], task);
    if InWindow(full, task) {
      var i :| 0 <= i < |full| && |full| - HISTORY_LIMIT <= i && full[i].task == task;
      assert full[k..][i - k].task == task;
    }
    if i :| 0 <= i < |full[k..]| && full[k..][i].task == task {
      assert full[k + i].task == task;
      assert InWindow(full, task);
    }
  }

  /** The program keeps the last hundred states. */
  lemma WindowIsHundred(full: seq<BrokerState>)
    ensures |LastOnes(full)| == if |full| < 100 then |full| else 100
    ensures LastOnes(full) == full[|full| - |LastOnes(full)|..]
  {
  }

  lemma WindowSlides(full: seq<BrokerState>, s: BrokerState)
    ensures LastOnes(full + [s]) == LastOnes(LastOnes(full) + [s])
  {
  }

  // ---------- The director ----------

  /** `full` is everything ever recorded; the program keeps the last hundred entries of it. */
  class GtxBrokerDirector {
    var current: Option<BrokerState>
    var history: seq<BrokerState>
    ghost var full: seq<BrokerState>

    ghost predicate Valid()
      reads this
    {
      history == LastOnes(full) &&
      current == if full == [] then None else Some(full[|full| - 1])
    }

    constructor ()
      ensures Valid() && full == []
    {
      current, history, full := None, [], [];
    }

    method GetTaskState(task: TaskId) returns (state: Option<BrokerState>)
      requires Valid()
      ensures state == Newest(LastOnes(full), task)
      ensures InWindow(full, task) ==> state == Newest(full, task) && state.Some?
    {
      LookupAgreesExactly(full, task);
      NewestIsThere(LastOnes(full), task);
      if InWindow(full, task) {
        NewestIsThere(full, task);
      }
      if current.Some? && current.value.task == task {
        return current;
      }
      assert history[..|history|] == history;
      var i := |history|;
      while i > 0
        invariant 0 <= i <= |history| && Newest(history, task) == Newest(history[..i], task)
      {
        i := i - 1;
        assert history[..i + 1][..i] == history[..i];
        if history[i].task == task {
          return Some(history[i]);
        }
      }
      return None;
    }

    method Persist(state: BrokerState)
      requires Valid()
      modifies this
      ensures Valid() && full == old(full) + [state]
    {
      WindowSlides(full, state);
      current := Some(state);
      history := history + [state];
      if |history| > HISTORY_LIMIT {
        history := history[|history| - HISTORY_LIMIT..];
      }
      full := full + [state];
    }

    /** Routing of a request; `needsCodex` is the classifier's verdict. */
    method RouteRequest(task: TaskId, needsCodex: bool, previous: Option<Previous>, workflow: Workflow)
      returns (target: WorkerName)
      requires Valid()
      modifies this
      ensures Valid() && full == old(full) + [RoutedAfter(task, needsCodex, previous, workflow)]
      ensures target == RoutedAfter(task, needsCodex, previous, workflow).selected
      ensures var state := full[|full| - 1];
        state.task == task &&
        if previous.Some? && previous.value.number > 0 then
          var p := previous.value;
          state.attempt == p.number + 1 && state.gtxFailures == p.gtxFailures && state.p40Failures == p.p40Failures &&
          state.selected ==
            Evaluate(p.attempt.classification, p.attempt.findings, p.number, p.gtxFailures, workflow).target
        else
          state.attempt == 1 && state.gtxFailures == 0 && state.p40Failures == 0 &&
          state.selected == if needsCodex then "codex" else "p40_qwen35"
    {
      var state := Routed(task, needsCodex);
      if previous.Some? && previous.value.number > 0 {
        var p := previous.value;
        var result := Evaluate(p.attempt.classification, p.attempt.findings, p.number, p.gtxFailures, workflow);
        state := state.(selected := result.target, gtxFailures := p.gtxFailures, p40Failures := p.p40Failures,
                        attempt := p.number + 1);
      }
      Persist(state);
      target := state.selected;
    }

    /** None when the broker has no state of the task left: it raises. */
    method RecordAttemptResult(task: TaskId, a: Attempt, workflow: Workflow) returns (next: Option<BrokerState>)
      requires Valid()
      modifies this
      ensures Valid()
      ensures next.Some? <==> old(InWindow(full, task))
      ensures next.None? ==> full == old(full)
      ensures next.Some? ==>
        Newest(old(full), task).Some? &&
        next.value == Recorded(Newest(old(full), task).value, a, workflow) && full == old(full) + [next.value]
    {
      LookupAgreesExactly(full, task);
      WindowIsTail(full, task);
      NewestIsThere(LastOnes(full), task);
      var state := GetTaskState(task);
      if state.None? {
        return None;
      }
      var recorded := Recorded(state.value, a, workflow);
      Persist(recorded);
      next := Some(recorded);
    }
  }

  lemma WindowIsTail(full: seq<BrokerState>, task: TaskId)
    ensures InWindow(full, task) <==> exists i :: 0 <= i < |LastOnes(full)| && LastOnes(full)[i].task == task
  {
    var k := if |full| <= HISTORY_LIMIT then 0 else |full| - HISTORY_LIMIT;
    if InWindow(full, task) {
      var i :| 0 <= i < |full| && |full| - HISTORY_LIMIT <= i && full[i].task == task;
      assert LastOnes(full)[i - k].task == task;
    }
    if i :| 0 <= i < |LastOnes(full)| && LastOnes(full)[i].task == task {
      assert full[k + i].task == task;
    }
  }
}
