// What the broker state, the failure counters and the attempt ledger say about each other
// in every run of routings and recorded attempts.
module ThreeBooks {
  import opened Prelude
  import opened Classifications
  import opened EscalationPolicy
  import opened GtxBroker
  import opened CodingDispatcher

  // ---------- Reading the ledger ----------

  predicate P40Failure(e: Entry) {
    e.AttemptEntry? && e.model in {"p40", "p40_qwen35"} && e.classification in {PartialCode, IncorrectCode, TestsFailed}
  }

  /** Substantive P40 failures in the ledger, by goal and class. */
  function P40Failures(ledger: seq<Entry>, goal: GoalId, goalClass: GoalClass): nat {
    if ledger == [] then 0
    else
      var last := ledger[|ledger| - 1];
      P40Failures(ledger[..|ledger| - 1], goal, goalClass) +
      if P40Failure(last) && last.goal == goal && last.goalClass == goalClass then 1 else 0
  }

  /** ... and by counter key. */
  function P40Under(ledger: seq<Entry>, key: string): nat {
    if ledger == [] then 0
    else
      var last := ledger[|ledger| - 1];
      P40Under(ledger[..|ledger| - 1], key) +
      if P40Failure(last) && Key(last.goal, last.goalClass) == key then 1 else 0
  }

  /** The attempt numbers of a goal and class, oldest first. */
  function Numbers(ledger: seq<Entry>, goal: GoalId, goalClass: GoalClass): seq<nat> {
    if ledger == [] then []
    else
      var last := ledger[|ledger| - 1];
      Numbers(ledger[..|ledger| - 1], goal, goalClass) +
      if last.AttemptEntry? && last.goal == goal && last.goalClass == goalClass then [last.number] else []
  }

  predicate CodexVerified(e: Entry) {
    e.AttemptEntry? && e.decision == Accepted ==>
      e.model == "codex" && e.final && e.role.FinalVerification? && e.reviewer == Some("codex")
  }

  /** No gaps and no repeats in the attempt numbers, counters equal to what the ledger counts, and
      nothing accepted but a final verification by Codex that Codex reviewed. */
  ghost predicate BooksHold(b: Books) {
    (forall goal, goalClass :: OneToN(Numbers(b.ledger, goal, goalClass)) &&
                            |Numbers(b.ledger, goal, goalClass)| == AttemptCount(b.ledger, goal, goalClass)) &&
    (forall key :: CounterAt(b.counters, key) == P40Under(b.ledger, key)) &&
    (forall i | 0 <= i < |b.ledger| :: CodexVerified(b.ledger[i])) &&
    (forall i | 0 <= i < |b.full| :: b.full[i].selected in {P40_WORKER, CODEX})
  }

  predicate OneToN(numbers: seq<nat>) {
    forall k | 0 <= k < |numbers| :: numbers[k] == k + 1
  }

  /** One routing, or one attempt recorded. */
  ghost predicate RecordStep(b: Books, q: Request, b': Books) {
    Recordable(b, q) && b' == AfterRecord(b, q)
  }

  ghost predicate RouteStep(b: Books, full: seq<BrokerState>, b': Books) {
    (full == b.full || exists goal, needsCodex :: full == b.full + [Routed(goal, needsCodex)]) &&
    CountsKept(b.(full := full), b')
  }

  /** A transaction that failed behind a broker that had already recorded. */
  ghost predicate FailedStep(b: Books, q: Request, b': Books) {
    Recordable(b, q) && b' == AfterBrokerOnly(b, q)
  }

  ghost predicate NextBooks(b: Books, b': Books) {
    (exists q :: RecordStep(b, q, b')) || (exists q :: FailedStep(b, q, b')) || (exists full :: RouteStep(b, full, b'))
  }

  lemma {:induction false} NotesCountNothing(ledger: seq<Entry>, ledger': seq<Entry>, goal: GoalId,
                                             goalClass: GoalClass, key: string)
    requires AppendsNoAttempt(ledger, ledger')
    ensures AttemptCount(ledger', goal, goalClass) == AttemptCount(ledger, goal, goalClass)
    ensures Numbers(ledger', goal, goalClass) == Numbers(ledger, goal, goalClass)
    ensures P40Failures(ledger', goal, goalClass) == P40Failures(ledger, goal, goalClass)
    ensures P40Under(ledger', key) == P40Under(ledger, key)
  {
    if |ledger'| == |ledger| {
      assert ledger' == ledger;
    } else {
      var n := |ledger'| - 1;
      assert ledger'[..n][..|ledger|] == ledger;
      NotesCountNothing(ledger, ledger'[..n], goal, goalClass, key);
    }
  }

  lemma RoutingKeepsBooks(b: Books, full: seq<BrokerState>, b': Books)
    requires BooksHold(b) && RouteStep(b, full, b')
    ensures BooksHold(b')
  {
    forall goal, goalClass
      ensures OneToN(Numbers(b'.ledger, goal, goalClass))
      ensures |Numbers(b'.ledger, goal, goalClass)| == AttemptCount(b'.ledger, goal, goalClass)
    {
      NotesCountNothing(b.ledger, b'.ledger, goal, goalClass, "");
    }
    forall key ensures CounterAt(b'.counters, key) == P40Under(b'.ledger, key) {
      NotesCountNothing(b.ledger, b'.ledger, "", "", key);
    }
    forall i | 0 <= i < |b'.ledger| ensures CodexVerified(b'.ledger[i]) {
      assert i < |b.ledger| ==> b'.ledger[..|b.ledger|][i] == b.ledger[i];
    }
  }

  lemma BrokerRecordSelects(full: seq<BrokerState>, q: Request)
    requires forall i | 0 <= i < |full| :: full[i].selected in {P40_WORKER, CODEX}
    ensures var full' := BrokerRecord(full, q);
      forall i | 0 <= i < |full'| :: full'[i].selected in {P40_WORKER, CODEX}
  {
  }

  lemma {:induction false} NewestIsMember(full: seq<BrokerState>, task: TaskId)
    requires Newest(full, task).Some?
    ensures Newest(full, task).value in full
  {
    if full[|full| - 1].task != task {
      NewestIsMember(full[..|full| - 1], task);
    }
  }

  lemma RecordingKeepsBooks(b: Books, q: Request)
    requires BooksHold(b) && Recordable(b, q)
    ensures BooksHold(AfterRecord(b, q))
  {
    var b' := AfterRecord(b, q);
    var entry := EntryFor(b.ledger, q);
    DropAppended(b.ledger, entry);
    BrokerRecordSelects(b.full, q);
    forall goal, goalClass
      ensures OneToN(Numbers(b'.ledger, goal, goalClass))
      ensures |Numbers(b'.ledger, goal, goalClass)| == AttemptCount(b'.ledger, goal, goalClass)
    {
      assert OneToN(Numbers(b.ledger, goal, goalClass));
    }
    forall key ensures CounterAt(b'.counters, key) == P40Under(b'.ledger, key) {
      assert CounterAt(b.counters, key) == P40Under(b.ledger, key);
    }
    assert CodexVerified(entry);
  }

  ghost predicate Run(books: seq<Books>) {
    books != [] && forall i | 0 <= i < |books| - 1 :: NextBooks(books[i], books[i + 1])
  }

  /** Over every run from empty books. */
  lemma {:induction false} BooksAlwaysHold(books: seq<Books>)
    requires Run(books)
    requires books[0].full == [] && books[0].counters == map[] && books[0].ledger == []
    ensures BooksHold(books[|books| - 1])
  {
    var n := |books| - 1;
    if n > 0 {
      BooksAlwaysHold(books[..n]);
      var b, b' := books[n - 1], books[n];
      assert NextBooks(b, b');
      if q :| RecordStep(b, q, b') {
        RecordingKeepsBooks(b, q);
      } else if q :| FailedStep(b, q, b') {
        BrokerRecordSelects(b.full, q);
      } else {
        var full :| RouteStep(b, full, b');
        RoutingKeepsBooks(b, full, b');
      }
    }
  }

  // ---------- The counter key ----------

  predicate NoColon(text: string) {
    ':' !in text
  }

  /** A class without a colon can be read back from the key. */
  lemma KeyIsInjective(goal: GoalId, goalClass: GoalClass, goal2: GoalId, goalClass2: GoalClass)
    requires NoColon(goalClass) && NoColon(goalClass2) && Key(goal, goalClass) == Key(goal2, goalClass2)
    ensures goal == goal2 && goalClass == goalClass2
  {
    if |goal| < |goal2| {
      LongerGoalNeedsColon(goal, goalClass, goal2, goalClass2);
    } else if |goal2| < |goal| {
      LongerGoalNeedsColon(goal2, goalClass2, goal, goalClass);
    }
    var k := Key(goal, goalClass);
    assert goal == k[..|goal|] && goal2 == k[..|goal2|];
    assert goalClass == k[|goal| + 1..] && goalClass2 == k[|goal2| + 1..];
  }

  lemma LongerGoalNeedsColon(goal: GoalId, goalClass: GoalClass, goal2: GoalId, goalClass2: GoalClass)
    requires Key(goal, goalClass) == Key(goal2, goalClass2) && |goal| < |goal2|
    ensures !NoColon(goalClass)
  {
    assert goalClass[|goal2| - |goal| - 1] == Key(goal2, goalClass2)[|goal2|];
  }

  /** A goal and class share their counter with some other pair exactly when one of them has a colon. */
  lemma SharedCounterExactly(goal: GoalId, goalClass: GoalClass)
    ensures (exists g, c :: (g, c) != (goal, goalClass) && Key(g, c) == Key(goal, goalClass)) <==>
            !(NoColon(goal) && NoColon(goalClass))
  {
    if !NoColon(goalClass) {
      var k := ColonIn(goalClass);
      SplitAgain(goal, goalClass, goal + ":" + goalClass[..k], goalClass[k + 1..]);
    } else if !NoColon(goal) {
      var k := ColonIn(goal);
      SplitAgain(goal, goalClass, goal[..k], goal[k + 1..] + ":" + goalClass);
    } else {
      forall goal2, goalClass2 | Key(goal2, goalClass2) == Key(goal, goalClass)
        ensures (goal2, goalClass2) == (goal, goalClass)
      {
        NothingElseShares(goal, goalClass, goal2, goalClass2);
      }
    }
  }

  lemma NothingElseShares(goal: GoalId, goalClass: GoalClass, goal2: GoalId, goalClass2: GoalClass)
    requires NoColon(goal) && NoColon(goalClass) && Key(goal2, goalClass2) == Key(goal, goalClass)
    ensures goal2 == goal && goalClass2 == goalClass
  {
    var k := Key(goal, goalClass);
    if |goal| < |goal2| {
      LongerGoalNeedsColon(goal, goalClass, goal2, goalClass2);
    } else if |goal2| < |goal| {
      ColonInGoal(goal, goalClass, goal2, goalClass2);
    }
    assert goal == k[..|goal|] && goal2 == k[..|goal2|];
    assert goalClass == k[|goal| + 1..] && goalClass2 == k[|goal2| + 1..];
  }

  lemma ColonInGoal(goal: GoalId, goalClass: GoalClass, goal2: GoalId, goalClass2: GoalClass)
    requires Key(goal2, goalClass2) == Key(goal, goalClass) && |goal2| < |goal|
    ensures !NoColon(goal)
  {
    assert goal[|goal2|] == Key(goal2, goalClass2)[|goal2|];
  }

  lemma SplitAgain(goal: GoalId, goalClass: GoalClass, goal2: GoalId, goalClass2: GoalClass)
    requires Key(goal2, goalClass2) == Key(goal, goalClass) && goal2 != goal
    ensures exists g, c :: (g, c) != (goal, goalClass) && Key(g, c) == Key(goal, goalClass)
  {
  }

  lemma ColonIn(text: string) returns (k: nat)
    requires !NoColon(text)
    ensures k < |text| && text[k] == ':'
  {
    k :| k < |text| && text[k] == ':';
  }

  lemma {:induction false} KeyCountsGoal(ledger: seq<Entry>, goal: GoalId, goalClass: GoalClass)
    requires NoColon(goalClass)
    requires forall i | 0 <= i < |ledger| :: ledger[i].AttemptEntry? ==> NoColon(ledger[i].goalClass)
    ensures P40Under(ledger, Key(goal, goalClass)) == P40Failures(ledger, goal, goalClass)
  {
    if ledger != [] {
      var last := ledger[|ledger| - 1];
      KeyCountsGoal(ledger[..|ledger| - 1], goal, goalClass);
      if last.AttemptEntry? && Key(last.goal, last.goalClass) == Key(goal, goalClass) {
        KeyIsInjective(last.goal, last.goalClass, goal, goalClass);
      }
    }
  }

  /** Layered routing answers with the P40 exactly while the ledger has fewer than three substantive
      P40 failures of the goal; from the third on with a least-failed usable member, if there is one. */
  lemma LayeredLeavesP40AtThird(b: Books, goal: GoalId, goalClass: GoalClass, target: Option<ModelId>)
    requires BooksHold(b) && NoColon(goalClass)
    requires forall i | 0 <= i < |b.ledger| :: b.ledger[i].AttemptEntry? ==> NoColon(b.ledger[i].goalClass)
    requires GoodTarget(b, goal, goalClass, Layered, false, target)
    ensures target == Some("p40") <==> P40Failures(b.ledger, goal, goalClass) < FAILURE_THRESHOLD
    ensures P40Failures(b.ledger, goal, goalClass) >= FAILURE_THRESHOLD ==>
      if Secondaries(b.models) == {} then target == None
      else
        target.Some? && target.value !in {"p40", "copilot", "codex"} &&
        LeastFailed(b.models, goalClass, target.value)
  {
    KeyCountsGoal(b.ledger, goal, goalClass);
    assert CounterAt(b.counters, Key(goal, goalClass)) == P40Under(b.ledger, Key(goal, goalClass));
  }

  // ---------- Routing and recording in turn ----------

  /** One turn of a run outside the broker flow: a goal is routed, leaving the books `routed`, and its attempt
      is recorded under the model routing answered; or something happens to another counter key. */
  datatype Turn = Own(target: ModelId, routed: Books, q: Request) | Elsewhere

  ghost predicate TurnStep(b: Books, turn: Turn, b': Books, goal: GoalId, goalClass: GoalClass) {
    match turn
    case Own(target, routed, q) =>
      CountsKept(b, routed) && !q.flow.GtxDirect? && GoodTarget(routed, goal, goalClass, q.flow, false, Some(target)) &&
      q.goal == goal && q.goalClass == goalClass && q.model == target && RecordStep(routed, q, b')
    case Elsewhere =>
      || (exists q :: RecordStep(b, q, b') && Key(q.goal, q.goalClass) != Key(goal, goalClass))
      || (exists q :: FailedStep(b, q, b'))
      || (exists full :: RouteStep(b, full, b'))
  }

  ghost predicate Turns(books: seq<Books>, turns: seq<Turn>, goal: GoalId, goalClass: GoalClass) {
    |books| == |turns| + 1 &&
    forall i :: 0 <= i < |turns| ==> TurnStep(books[i], turns[i], books[i + 1], goal, goalClass)
  }

  /** Failures of the code in the goal's own attempts, whoever made them. */
  function CodeFailures(turns: seq<Turn>): nat {
    if turns == [] then 0
    else
      var last := turns[|turns| - 1];
      CodeFailures(turns[..|turns| - 1]) +
      if last.Own? && last.q.classification in {PartialCode, IncorrectCode, TestsFailed} then 1 else 0
  }

  lemma TurnCounts(b: Books, turn: Turn, b': Books, goal: GoalId, goalClass: GoalClass)
    requires TurnStep(b, turn, b', goal, goalClass)
    ensures var key := Key(goal, goalClass);
      var before, after := CounterAt(b.counters, key), CounterAt(b'.counters, key);
      before <= after && (turn.Own? ==> (turn.target == "p40" <==> before < 3)) &&
      (before < 3 ==>
        after == before +
          if turn.Own? && turn.q.classification in {PartialCode, IncorrectCode, TestsFailed} then 1 else 0)
  {
  }

  lemma {:induction false} CounterFollowsFailures(books: seq<Books>, turns: seq<Turn>, goal: GoalId,
                                                  goalClass: GoalClass)
    requires Turns(books, turns, goal, goalClass) && CounterAt(books[0].counters, Key(goal, goalClass)) == 0
    ensures var count := CounterAt(books[|turns|].counters, Key(goal, goalClass));
      if CodeFailures(turns) < 3 then count == CodeFailures(turns) else count >= 3
  {
    if turns != [] {
      var n := |turns| - 1;
      CounterFollowsFailures(books[..n + 1], turns[..n], goal, goalClass);
      TurnCounts(books[n], turns[n], books[n + 1], goal, goalClass);
    }
  }

  /** Over any run in which a goal is worked on by the model routing answers: routing answers with the P40 until
      the goal has failed three times, whatever happens to other goals, and never after. */
  lemma P40UntilThirdFailure(books: seq<Books>, turns: seq<Turn>, goal: GoalId, goalClass: GoalClass, i: nat)
    requires Turns(books, turns, goal, goalClass) && CounterAt(books[0].counters, Key(goal, goalClass)) == 0
    requires i < |turns| && turns[i].Own?
    ensures turns[i].target == "p40" <==> CodeFailures(turns[..i]) < 3
  {
    CounterFollowsFailures(books[..i + 1], turns[..i], goal, goalClass);
    TurnCounts(books[i], turns[i], books[i + 1], goal, goalClass);
  }

  // ---------- Broker and ledger ----------

  /** The broker stands one attempt beyond the ledger and counts the same P40 failures. */
  predicate Agree(b: Books, goal: GoalId, goalClass: GoalClass) {
    Newest(b.full, goal).Some? &&
    Newest(b.full, goal).value.attempt == AttemptCount(b.ledger, goal, goalClass) + 1 &&
    Newest(b.full, goal).value.p40Failures == P40Failures(b.ledger, goal, goalClass)
  }

  lemma {:induction false} FailuresWithinAttempts(ledger: seq<Entry>, goal: GoalId, goalClass: GoalClass)
    ensures P40Failures(ledger, goal, goalClass) <= AttemptCount(ledger, goal, goalClass)
  {
    if ledger != [] {
      FailuresWithinAttempts(ledger[..|ledger| - 1], goal, goalClass);
    }
  }

  /** A fresh routing of a goal leaves the books on the same page exactly when the goal has no attempt yet. */
  lemma FirstRoutingAgrees(b: Books, full: seq<BrokerState>, goal: GoalId, needsCodex: bool, goalClass: GoalClass,
                           b': Books)
    requires full == b.full + [Routed(goal, needsCodex)] && CountsKept(b.(full := full), b')
    ensures Agree(b', goal, goalClass) <==> AttemptCount(b.ledger, goal, goalClass) == 0
  {
    DropAppended(b.full, Routed(goal, needsCodex));
    NotesCountNothing(b.ledger, b'.ledger, goal, goalClass, "");
    FailuresWithinAttempts(b.ledger, goal, goalClass);
  }

  /** Routing a goal again after another task became the broker's current one starts the broker over,
      and leaves the books apart as soon as one attempt has been recorded. */
  lemma ReroutingDisagrees(b: Books, full: seq<BrokerState>, goal: GoalId, needsCodex: bool, goalClass: GoalClass,
                           b': Books)
    requires full == b.full + [Routed(goal, needsCodex)] && CountsKept(b.(full := full), b')
    requires AttemptCount(b.ledger, goal, goalClass) > 0
    ensures !Agree(b', goal, goalClass)
  {
    FirstRoutingAgrees(b, full, goal, needsCodex, goalClass, b');
  }

  /** An attempt leaves the books in agreement exactly when its failure, if it is one, is reported
      for the P40 just when the broker had selected the P40. */
  lemma RecordAgreesExactly(b: Books, q: Request)
    requires BooksHold(b) && Agree(b, q.goal, q.goalClass) && Recordable(b, q) && q.flow.GtxDirect?
    ensures Agree(AfterRecord(b, q), q.goal, q.goalClass) <==>
      (q.classification in {PartialCode, IncorrectCode, TestsFailed} ==>
        (q.model in {"p40", "p40_qwen35"} <==> Newest(b.full, q.goal).value.selected == "p40_qwen35"))
  {
    var s := Newest(b.full, q.goal).value;
    NewestIsMember(b.full, q.goal);
    NewestIsThere(b.full, q.goal);
    RecordedCounts(s, AttemptOf(q));
    var next := Recorded(s, AttemptOf(q), DirectEscalation);
    var b' := AfterRecord(b, q);
    DropAppended(b.full, next);
    EntryCounts(b.ledger, q);
    NextPage(b, b', q.goal, q.goalClass, next,
             if Substantive(q.classification) && s.selected == P40_WORKER then 1 else 0,
             if IsP40(q.model) && Substantive(q.classification) then 1 else 0);
  }

  /** One attempt more in both books: they agree exactly when they count the same failure. */
  lemma NextPage(b: Books, b': Books, goal: GoalId, goalClass: GoalClass, next: BrokerState,
                 inBroker: nat, inLedger: nat)
    requires Agree(b, goal, goalClass) && Newest(b'.full, goal) == Some(next)
    requires next.attempt == Newest(b.full, goal).value.attempt + 1
    requires next.p40Failures == Newest(b.full, goal).value.p40Failures + inBroker
    requires AttemptCount(b'.ledger, goal, goalClass) == AttemptCount(b.ledger, goal, goalClass) + 1
    requires P40Failures(b'.ledger, goal, goalClass) == P40Failures(b.ledger, goal, goalClass) + inLedger
    ensures Agree(b', goal, goalClass) <==> inBroker == inLedger
  {
  }

  /** What a recorded attempt adds to the counts of its goal and class. */
  lemma EntryCounts(ledger: seq<Entry>, q: Request)
    ensures var ledger' := ledger + [EntryFor(ledger, q)];
      AttemptCount(ledger', q.goal, q.goalClass) == AttemptCount(ledger, q.goal, q.goalClass) + 1 &&
      P40Failures(ledger', q.goal, q.goalClass) ==
        P40Failures(ledger, q.goal, q.goalClass) +
        if IsP40(q.model) && Substantive(q.classification) then 1 else 0
  {
    DropAppended(ledger, EntryFor(ledger, q));
  }

  /** A failed transaction leaves the broker one attempt ahead of a ledger it agreed with. */
  lemma FailedTransactionDisagrees(b: Books, q: Request)
    requires BooksHold(b) && Agree(b, q.goal, q.goalClass) && Recordable(b, q) && q.flow.GtxDirect?
    ensures !Agree(AfterBrokerOnly(b, q), q.goal, q.goalClass)
  {
    var s := Newest(b.full, q.goal).value;
    NewestIsMember(b.full, q.goal);
    NewestIsThere(b.full, q.goal);
    RecordedCounts(s, AttemptOf(q));
    DropAppended(b.full, Recorded(s, AttemptOf(q), DirectEscalation));
  }

  /** One step of a run in which the goal is not routed again and its attempts are recorded in the
      broker flow, under the class it was routed with and the model selected. */
  ghost predicate FaithfulStep(b: Books, b': Books, goal: GoalId, goalClass: GoalClass) {
    (exists q :: RecordStep(b, q, b') &&
       (q.goal == goal ==>
          q.goalClass == goalClass && q.flow.GtxDirect? && Newest(b.full, goal).Some? &&
          q.model == Newest(b.full, goal).value.selected)) ||
    (exists full: seq<BrokerState> :: RouteStep(b, full, b') && (full == b.full || full[|full| - 1].task != goal))
  }

  lemma FaithfulRecordAgrees(b: Books, q: Request, goal: GoalId, goalClass: GoalClass)
    requires BooksHold(b) && Agree(b, goal, goalClass) && Recordable(b, q)
    requires q.goal == goal ==>
      q.goalClass == goalClass && q.flow.GtxDirect? && q.model == Newest(b.full, goal).value.selected
    ensures BooksHold(AfterRecord(b, q)) && Agree(AfterRecord(b, q), goal, goalClass)
  {
    RecordingKeepsBooks(b, q);
    if q.goal == goal {
      NewestIsMember(b.full, goal);
      assert CODEX != P40_WORKER && CODEX != "p40" by {
        assert CODEX[0] == 'c';
      }
      RecordAgreesExactly(b, q);
    } else {
      DropAppended(b.ledger, EntryFor(b.ledger, q));
      OtherGoalsKeepState(b.full, q, goal);
    }
  }

  lemma FaithfulStepAgrees(b: Books, b': Books, goal: GoalId, goalClass: GoalClass)
    requires BooksHold(b) && Agree(b, goal, goalClass) && FaithfulStep(b, b', goal, goalClass)
    ensures BooksHold(b') && Agree(b', goal, goalClass)
  {
    if q :| RecordStep(b, q, b') &&
            (q.goal == goal ==>
               q.goalClass == goalClass && q.flow.GtxDirect? && Newest(b.full, goal).Some? &&
               q.model == Newest(b.full, goal).value.selected)
    {
      FaithfulRecordAgrees(b, q, goal, goalClass);
    } else {
      var full: seq<BrokerState> :| RouteStep(b, full, b') && (full == b.full || full[|full| - 1].task != goal);
      RoutingKeepsBooks(b, full, b');
      NotesCountNothing(b.ledger, b'.ledger, goal, goalClass, "");
      if full != b.full {
        var g, needsCodex :| full == b.full + [Routed(g, needsCodex)];
        DropAppended(b.full, Routed(g, needsCodex));
      }
    }
  }

  lemma OtherGoalsKeepState(full: seq<BrokerState>, q: Request, goal: GoalId)
    requires q.goal != goal
    ensures Newest(BrokerRecord(full, q), goal) == Newest(full, goal)
  {
    if Newest(full, q.goal).Some? {
      NewestIsThere(full, q.goal);
      DropAppended(full, Recorded(Newest(full, q.goal).value, AttemptOf(q), DirectEscalation));
    }
  }

  /** From the first routing of a goal, over every such run, the three books agree: broker attempt
      number, ledger entries plus one; broker P40 failures, counter, substantive P40 entries. */
  lemma {:induction false} ThreeBooksAgree(books: seq<Books>, goal: GoalId, goalClass: GoalClass)
    requires books != [] && BooksHold(books[0]) && Agree(books[0], goal, goalClass)
    requires forall i | 0 <= i < |books| - 1 :: FaithfulStep(books[i], books[i + 1], goal, goalClass)
    requires var ledger := books[|books| - 1].ledger;
      NoColon(goalClass) && forall i | 0 <= i < |ledger| :: ledger[i].AttemptEntry? ==> NoColon(ledger[i].goalClass)
    ensures var b := books[|books| - 1];
      BooksHold(b) && Agree(b, goal, goalClass) &&
      CounterAt(b.counters, Key(goal, goalClass)) == Newest(b.full, goal).value.p40Failures
  {
    AgreementHolds(books, goal, goalClass);
    var b := books[|books| - 1];
    KeyCountsGoal(b.ledger, goal, goalClass);
    assert CounterAt(b.counters, Key(goal, goalClass)) == P40Under(b.ledger, Key(goal, goalClass));
  }

  lemma {:induction false} AgreementHolds(books: seq<Books>, goal: GoalId, goalClass: GoalClass)
    requires books != [] && BooksHold(books[0]) && Agree(books[0], goal, goalClass)
    requires forall i | 0 <= i < |books| - 1 :: FaithfulStep(books[i], books[i + 1], goal, goalClass)
    ensures BooksHold(books[|books| - 1]) && Agree(books[|books| - 1], goal, goalClass)
  {
    var n := |books| - 1;
    if n > 0 {
      AgreementHolds(books[..n], goal, goalClass);
      FaithfulStepAgrees(books[n - 1], books[n], goal, goalClass);
    }
  }
}
