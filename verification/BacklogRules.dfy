// One backlog item as the durable state, the oracles' answers and the ledger show it, and
// the rules that make its gates resumable and its completion trustworthy.
module BacklogRules {
  import opened Prelude
  import opened Classifications
  import opened EscalationPolicy
  import opened CodingDispatcher

  type IssueId = GoalId

  datatype Status = Queued | InProgress | Completed | Blocked | Escalated

  datatype Phase =
    | NoPhase | Executing | WorkerComplete | TestsComplete | SelfReviewComplete | ReviewComplete
    | FinalVerificationComplete | ReviewPending | FinalPending
    | CompletedPhase | QueuedPhase | BlockedPhase | ExecutorMissing | RecoveryRequired | ExceptionPhase

  /** The checkpoint record: its phase and the gate results stored with it. */
  datatype Record = Record(phase: Phase, worker: bool, tests: bool, review: bool)

  const NO_RECORD := Record(NoPhase, false, false, false)

  datatype Verdict = Passed | RejectedCode | Unavailable | OtherKind(kind: Classification)

  /** What a worker reports: success or not, whether files changed, and its own classification. */
  datatype WorkerAnswer = WorkerAnswer(success: bool, changed: bool, kind: Classification)

  // ---------- What the oracles have said ----------

  /** One answer of a worker, test run, reviewer or verifier. `ok` for a worker is success with
      changed files; `Tampered` is a self-review that changed the tested worktree. */
  datatype Observation =
    | WorkerRan(id: IssueId, ok: bool)
    | TestsRan(id: IssueId, ok: bool)
    | Tampered(id: IssueId)
    | Reviewed(id: IssueId, ok: bool)
    | FinallyVerified(id: IssueId, ok: bool)

  datatype Gates = Gates(worker: bool, tests: bool, review: bool, final: bool)

  const NO_GATES := Gates(false, false, false, false)

  /** The gates the current artifact has passed: a new worker run starts over, and every answer
      voids the gates after it. */
  function NextGates(g: Gates, o: Observation): Gates {
    match o
    case WorkerRan(_, ok) => Gates(ok, false, false, false)
    case TestsRan(_, ok) => Gates(g.worker, ok, false, false)
    case Tampered(_) => NO_GATES
    case Reviewed(_, ok) => Gates(g.worker, g.tests, ok, false)
    case FinallyVerified(_, ok) => g.(final := ok)
  }

  function GatesOf(log: seq<Observation>, id: IssueId): Gates {
    if log == [] then NO_GATES
    else
      var last := log[|log| - 1];
      var before := GatesOf(log[..|log| - 1], id);
      if last.id == id then NextGates(before, last) else before
  }

  const ALL_PASSED := Gates(true, true, true, true)

  /** The last answers about the item's artifact, in so many words: a worker run, after it a test run, after
      that a review and after that a final verification have said yes, and none of them has been asked
      again since, nor has the worktree been tampered with. */
  predicate AllPassed(log: seq<Observation>, id: IssueId) {
    exists w, t, r, f :: 0 <= w < t < r < f < |log| && InARow(log, id, w, t, r, f)
  }

  predicate InARow(log: seq<Observation>, id: IssueId, w: nat, t: nat, r: nat, f: nat)
    requires w < t < r < f < |log|
  {
    log[w] == WorkerRan(id, true) && log[t] == TestsRan(id, true) && log[r] == Reviewed(id, true) &&
    log[f] == FinallyVerified(id, true) &&
    (forall k | w < k < |log| && log[k].id == id :: !log[k].WorkerRan? && !log[k].Tampered?) &&
    (forall k | t < k < |log| && log[k].id == id :: !log[k].TestsRan?) &&
    (forall k | r < k < |log| && log[k].id == id :: !log[k].Reviewed?) &&
    (forall k | f < k < |log| && log[k].id == id :: !log[k].FinallyVerified?)
  }

  /** The gates in their order, and where an answer stands among them. */
  function GateAt(g: Gates, k: nat): bool {
    if k == 0 then g.worker else if k == 1 then g.tests else if k == 2 then g.review else g.final
  }

  function Rank(o: Observation): nat {
    match o
    case WorkerRan(_, _) => 0
    case Tampered(_) => 0
    case TestsRan(_, _) => 1
    case Reviewed(_, _) => 2
    case FinallyVerified(_, _) => 3
  }

  predicate Grants(log: seq<Observation>, id: IssueId, k: nat, i: nat) {
    i < |log| && log[i].id == id && !log[i].Tampered? && log[i].ok && Rank(log[i]) == k &&
    forall j | i < j < |log| && log[j].id == id :: Rank(log[j]) > k
  }

  /** A gate stands exactly while the last answer at or before it was its own and good. */
  lemma {:induction false} GateExactly(log: seq<Observation>, id: IssueId, k: nat)
    requires k <= 3
    ensures GateAt(GatesOf(log, id), k) <==> exists i: nat :: Grants(log, id, k, i)
  {
    if log != [] {
      var n := |log| - 1;
      GateExactly(log[..n], id, k);
      if i: nat :| Grants(log[..n], id, k, i) && (log[n].id == id ==> Rank(log[n]) > k) {
        assert Grants(log, id, k, i);
      }
      if i: nat :| Grants(log, id, k, i) && i < n {
        assert Grants(log[..n], id, k, i);
      }
      if log[n].id == id && !log[n].Tampered? && log[n].ok && Rank(log[n]) == k {
        assert Grants(log, id, k, n);
      }
    }
  }

  lemma AllPassedExactly(log: seq<Observation>, id: IssueId)
    ensures GatesOf(log, id) == ALL_PASSED <==> AllPassed(log, id)
  {
    GateExactly(log, id, 0);
    GateExactly(log, id, 1);
    GateExactly(log, id, 2);
    GateExactly(log, id, 3);
    if GatesOf(log, id) == ALL_PASSED {
      var w: nat :| Grants(log, id, 0, w);
      var t: nat :| Grants(log, id, 1, t);
      var r: nat :| Grants(log, id, 2, r);
      var f: nat :| Grants(log, id, 3, f);
      GrantsInOrder(log, id, 0, w, 1, t);
      GrantsInOrder(log, id, 1, t, 2, r);
      GrantsInOrder(log, id, 2, r, 3, f);
      GrantedInARow(log, id, w, t, r, f);
    }
    if AllPassed(log, id) {
      var w, t, r, f :| 0 <= w < t < r < f < |log| && InARow(log, id, w, t, r, f);
      GrantedInARow(log, id, w, t, r, f);
    }
  }

  lemma GrantsInOrder(log: seq<Observation>, id: IssueId, k: nat, i: nat, k2: nat, i2: nat)
    requires Grants(log, id, k, i) && Grants(log, id, k2, i2) && k < k2
    ensures i < i2
  {
  }

  lemma GrantedInARow(log: seq<Observation>, id: IssueId, w: nat, t: nat, r: nat, f: nat)
    requires w < t < r < f < |log|
    ensures InARow(log, id, w, t, r, f) <==>
      Grants(log, id, 0, w) && Grants(log, id, 1, t) && Grants(log, id, 2, r) && Grants(log, id, 3, f)
  {
  }

  /** At some moment one artifact of the item had passed every gate. */
  predicate PassedOnce(log: seq<Observation>, id: IssueId) {
    log != [] && (GatesOf(log, id) == ALL_PASSED || PassedOnce(log[..|log| - 1], id))
  }

  lemma {:induction false} PassedOnceMeans(log: seq<Observation>, id: IssueId)
    ensures PassedOnce(log, id) <==> exists n :: 0 <= n <= |log| && GatesOf(log[..n], id) == ALL_PASSED
  {
    if log != [] {
      var before := log[..|log| - 1];
      PassedOnceMeans(before, id);
      assert log[..|log|] == log;
      if n :| 0 <= n <= |before| && GatesOf(before[..n], id) == ALL_PASSED {
        assert log[..n] == before[..n];
      }
      if n :| 0 <= n < |log| && GatesOf(log[..n], id) == ALL_PASSED {
        assert before[..n] == log[..n];
      }
    }
  }

  // ---------- What the ledger holds ----------

  /** A success attempt that waits for its final verification. */
  predicate SuccessEntry(e: Entry, id: IssueId) {
    e.AttemptEntry? && e.goal == id && e.classification == Success && !e.final &&
    e.decision == NeedsFreshCodexVerification
  }

  predicate AcceptedEntry(e: Entry, id: IssueId) {
    e.AttemptEntry? && e.goal == id && e.decision == Accepted &&
    e.model == "codex" && e.final && e.role.FinalVerification? && e.reviewer == Some("codex")
  }

  /** What the gates said when an entry was written: a success attempt had passed worker, tests and review,
      an accepted final verification all four. `at` is the number of answers heard by then. */
  predicate EarnedAt(e: Entry, log: seq<Observation>, at: nat) {
    at <= |log| &&
    (SuccessEntry(e, e.goal) ==>
      GatesOf(log[..at], e.goal).worker && GatesOf(log[..at], e.goal).tests && GatesOf(log[..at], e.goal).review) &&
    (AcceptedEntry(e, e.goal) ==> GatesOf(log[..at], e.goal) == ALL_PASSED)
  }

  predicate HasSuccess(ledger: seq<Entry>, id: IssueId) {
    ledger != [] && (SuccessEntry(ledger[|ledger| - 1], id) || HasSuccess(ledger[..|ledger| - 1], id))
  }

  /** A success attempt followed by an accepted final verification by Codex. */
  predicate Proven(ledger: seq<Entry>, id: IssueId) {
    ledger != [] &&
    var before := ledger[..|ledger| - 1];
    Proven(before, id) || (HasSuccess(before, id) && AcceptedEntry(ledger[|ledger| - 1], id))
  }

  lemma {:induction false} HasSuccessMeans(ledger: seq<Entry>, id: IssueId)
    ensures HasSuccess(ledger, id) <==> exists i :: 0 <= i < |ledger| && SuccessEntry(ledger[i], id)
  {
    if ledger != [] {
      HasSuccessMeans(ledger[..|ledger| - 1], id);
    }
  }

  lemma {:induction false} ProvenMeans(ledger: seq<Entry>, id: IssueId)
    ensures Proven(ledger, id) <==>
      exists i, j :: 0 <= i < j < |ledger| && SuccessEntry(ledger[i], id) && AcceptedEntry(ledger[j], id)
  {
    if ledger != [] {
      var n := |ledger| - 1;
      ProvenMeans(ledger[..n], id);
      HasSuccessMeans(ledger[..n], id);
      if i :| 0 <= i < n && SuccessEntry(ledger[..n][i], id) && AcceptedEntry(ledger[n], id) {
        assert SuccessEntry(ledger[i], id);
      }
      if i, j :| 0 <= i < j <= n && SuccessEntry(ledger[i], id) && AcceptedEntry(ledger[j], id) {
        assert SuccessEntry(ledger[..n][i], id);
        assert j < n ==> AcceptedEntry(ledger[..n][j], id);
      }
    }
  }

  lemma LedgerGrows(ledger: seq<Entry>, e: Entry, id: IssueId)
    ensures HasSuccess(ledger + [e], id) == (HasSuccess(ledger, id) || SuccessEntry(e, id))
    ensures Proven(ledger + [e], id) == (Proven(ledger, id) || (HasSuccess(ledger, id) && AcceptedEntry(e, id)))
  {
    DropAppended(ledger, e);
  }

  lemma LogGrows(log: seq<Observation>, o: Observation, id: IssueId)
    ensures GatesOf(log + [o], id) == if o.id == id then NextGates(GatesOf(log, id), o) else GatesOf(log, id)
    ensures PassedOnce(log + [o], id) == (PassedOnce(log, id) || (o.id == id && GatesOf(log + [o], id) == ALL_PASSED))
  {
    DropAppended(log, o);
  }

  // ---------- One item ----------

  datatype View = View(
    status: Status,
    record: Record,
    gates: Gates,
    succeeded: bool,
    proven: bool,
    passedOnce: bool,
    claimed: bool)

  /** The durable state of queue, checkpoints and ledger, with the oracles' answers and the claims made. */
  datatype State = State(
    status: map<IssueId, Status>,
    records: map<IssueId, Record>,
    ledger: seq<Entry>,
    log: seq<Observation>,
    claims: seq<IssueId>)

  function RecordAt(records: map<IssueId, Record>, id: IssueId): Record {
    if id in records then records[id] else NO_RECORD
  }

  function Shown(s: State, id: IssueId): View {
    View(StatusAt(s.status, id), RecordAt(s.records, id), GatesOf(s.log, id), HasSuccess(s.ledger, id),
         Proven(s.ledger, id), PassedOnce(s.log, id), id in s.claims)
  }

  predicate Pending(phase: Phase) {
    phase in {ReviewPending, FinalPending}
  }

  /** What a crash may leave behind: a pending gate's earlier gates are stored and were really passed,
      and nothing claimed is completed without having passed all gates and being proven. */
  predicate SoundView(v: View) {
    (Pending(v.record.phase) ==>
      v.claimed && v.record.worker && v.record.tests && v.gates.worker && v.gates.tests) &&
    (v.record.phase == FinalPending ==> v.record.review && v.gates.review && v.succeeded) &&
    (v.status == InProgress ==> v.claimed) &&
    (v.claimed && v.status == Completed ==> v.passedOnce && v.proven && v.record.phase != ReviewPending)
  }

  /** Completed with no gate pending: over for good. */
  predicate Closed(v: View) {
    v.status == Completed && !Pending(v.record.phase)
  }

  /** Claimed, and neither completed nor blocked for good. */
  predicate Hot(v: View) {
    v.claimed && (v.status in {InProgress, Queued} || Pending(v.record.phase))
  }

  function Heard(v: View, o: Observation): View {
    v.(gates := NextGates(v.gates, o), passedOnce := v.passedOnce || NextGates(v.gates, o) == ALL_PASSED)
  }

  function Entered(v: View, e: Entry, id: IssueId): View {
    v.(succeeded := v.succeeded || SuccessEntry(e, id),
       proven := v.proven || (v.succeeded && AcceptedEntry(e, id)))
  }

  lemma ClosingIsSound(v: View, s: Status, phase: Phase)
    requires SoundView(v) && v.claimed && !Pending(phase)
    requires s == Completed ==> v.passedOnce && v.proven && v.record.phase != ReviewPending
    ensures SoundView(v.(status := s)) && SoundView(v.(status := s, record := v.record.(phase := phase)))
  {
  }

  /** Away from a pending gate nothing an oracle says and no such records unsettle an item. */
  lemma WorkingIsSound(v: View, r: Record, o: Observation, r2: Record)
    requires SoundView(v) && !Pending(v.record.phase) && !Pending(r.phase) && !Pending(r2.phase)
    ensures SoundView(v.(record := r)) && SoundView(Heard(v.(record := r), o))
    ensures SoundView(Heard(v.(record := r), o).(record := r2))
  {
  }

  /** A settlement cut short between the queue's status and the phase: the item shows completed, but its
      gate is still pending, and a verifier that now rejects may send it back to the queue. */
  lemma CutSettlementReopens(v: View, id: IssueId)
    requires SoundView(v) && v.record.phase == FinalPending && v.passedOnce && v.proven
    ensures var cut := v.(status := Completed);
      SoundView(cut) && Hot(cut) && !Closed(cut) &&
      var rejected := Heard(cut, FinallyVerified(id, false));
      SoundView(rejected) && SoundView(rejected.(status := Queued)) &&
      SoundView(rejected.(status := Queued, record := v.record.(phase := QueuedPhase)))
  {
  }

  lemma StatusShown(s: State, id: IssueId, status: Status)
    ensures forall other ::
      Shown(s.(status := s.status[id := status]), other) ==
        (if other == id then Shown(s, id).(status := status) else Shown(s, other))
  {
  }

  lemma RecordShown(s: State, id: IssueId, record: Record)
    ensures forall other ::
      Shown(s.(records := s.records[id := record]), other) ==
        (if other == id then Shown(s, id).(record := record) else Shown(s, other))
  {
  }

  lemma ClaimShown(s: State, id: IssueId, status: Status)
    ensures forall other ::
      Shown(s.(status := s.status[id := status], claims := s.claims + [id]), other) ==
        (if other == id then Shown(s, id).(status := status, claimed := true) else Shown(s, other))
  {
  }

  lemma AnswerShown(s: State, o: Observation)
    ensures forall id ::
      Shown(s.(log := s.log + [o]), id) == (if id == o.id then Heard(Shown(s, id), o) else Shown(s, id))
  {
    forall id
      ensures Shown(s.(log := s.log + [o]), id) == (if id == o.id then Heard(Shown(s, id), o) else Shown(s, id))
    {
      LogGrows(s.log, o, id);
    }
  }

  lemma EntryShown(s: State, e: Entry)
    ensures forall id ::
      Shown(s.(ledger := s.ledger + [e]), id) == (if id == e.goal then Entered(Shown(s, id), e, id) else Shown(s, id))
  {
    forall id
      ensures Shown(s.(ledger := s.ledger + [e]), id) ==
              (if id == e.goal then Entered(Shown(s, id), e, id) else Shown(s, id))
    {
      LedgerGrows(s.ledger, e, id);
    }
  }

  // ---------- The queue ----------

  predicate Distinct(order: seq<IssueId>) {
    forall i, j | 0 <= i < j < |order| :: order[i] != order[j]
  }

  function StatusAt(status: map<IssueId, Status>, id: IssueId): Status {
    if id in status then status[id] else Status.Escalated
  }

  predicate NoneQueuedBefore(order: seq<IssueId>, status: map<IssueId, Status>, id: IssueId) {
    forall i, j | 0 <= i < j < |order| && order[j] == id :: StatusAt(status, order[i]) != Queued
  }

  /** select_next_item: nothing while one is in progress, else the first queued item. */
  predicate IsNext(order: seq<IssueId>, status: map<IssueId, Status>, id: IssueId) {
    (forall other | other in order :: StatusAt(status, other) != InProgress) &&
    id in order && StatusAt(status, id) == Queued && NoneQueuedBefore(order, status, id)
  }

  predicate Claimable(order: seq<IssueId>, status: map<IssueId, Status>) {
    (forall id | id in order :: StatusAt(status, id) != InProgress) &&
    exists id :: id in order && StatusAt(status, id) == Queued
  }

  // ---------- How an attempt ends ----------

  function PhaseFor(s: Status): Phase {
    match s
    case Completed => CompletedPhase
    case Queued => QueuedPhase
    case _ => BlockedPhase
  }

  predicate SettledAs(v: View, s: Status) {
    v.status == s && v.record.phase ==
      if s == Completed then CompletedPhase else if s == Queued then QueuedPhase else BlockedPhase
  }

  /** The verdicts that end a final verification; any other leaves it pending. */
  predicate Decisive(verdict: Verdict) {
    verdict.Passed? || verdict.RejectedCode?
  }

  predicate VerifiedAs(v: View, passed: bool) {
    if passed then SettledAs(v, Completed) else SettledAs(v, Queued) || SettledAs(v, Blocked)
  }

  /** A resumed review: unavailable, it stays pending; rejected, it is settled; passed, the final
      verification decides, or is pending in its turn. */
  predicate ReviewedAs(was: View, review: Verdict, final: Verdict, now: View) {
    if review.Unavailable? then now.status == was.status && now.record.phase == ReviewPending
    else if !review.Passed? then SettledAs(now, Queued) || SettledAs(now, Blocked)
    else if Decisive(final) then VerifiedAs(now, final.Passed?)
    else now.status == was.status && now.record.phase == FinalPending
  }

  /** A fresh attempt, by whether worker and tests were good, and the two verdicts. */
  predicate ExecutedAs(ready: bool, review: Verdict, final: Verdict, now: View) {
    if ready && review.Unavailable? then now.status == Blocked && now.record.phase == ReviewPending
    else if !(ready && review.Passed?) then SettledAs(now, Queued) || SettledAs(now, Blocked)
    else if Decisive(final) then VerifiedAs(now, final.Passed?)
    else now.status == Blocked && now.record.phase == FinalPending
  }

  // ---------- The dispatcher requests of the adapter ----------

  function CandidateRequest(id: IssueId, model: ModelId, c: Classification, f: Findings, reviewer: string,
                            good: bool, flow: Flow): Request {
    Request(id, "coding", model, c, f, Some(reviewer), if good then NeedsFreshCodexVerification else Rejected, false,
            if model == "codex" then Repair else Candidate, flow)
  }

  function FinalRequest(id: IssueId, passed: bool, f: Findings, flow: Flow): Request {
    Request(id, "coding", "codex", if passed then Success else Other("rejected_code"), f, Some("codex"),
            if passed then Accepted else Rejected, true, FinalVerification, flow)
  }

  /** The entry a fresh attempt has to leave, by what the worker answered, whether the self-review changed the
      tested worktree, and how tests and review went. */
  predicate CandidateAs(e: Entry, id: IssueId, model: ModelId, answer: WorkerAnswer, tampered: bool, testsOk: bool,
                        review: Verdict)
  {
    e.AttemptEntry? && e.goal == id && e.goalClass == "coding" && !e.final && e.model == model &&
    e.role == (if model == "codex" then Repair else Candidate) &&
    if !answer.success then e.classification == answer.kind && e.decision == Rejected
    else if !answer.changed then e.classification == NoCode && e.decision == Rejected
    else if !testsOk || tampered then e.classification == TestsFailed && e.decision == Rejected
    else
      match review
      case Passed => e.classification == Success && e.decision == NeedsFreshCodexVerification
      case RejectedCode => e.classification == IncorrectCode && e.decision == Rejected
      case Unavailable => false
      case OtherKind(kind) => e.classification == kind && e.decision == Rejected
  }

  /** ... and the entry of a final verification. */
  predicate FinalAs(e: Entry, id: IssueId, passed: bool) {
    e.AttemptEntry? && e.goal == id && e.goalClass == "coding" && e.model == "codex" && e.final &&
    e.role == FinalVerification && e.reviewer == Some("codex") &&
    e.classification == (if passed then Success else Other("rejected_code")) &&
    e.decision == (if passed then Accepted else Rejected)
  }

  /** Who is asked in a fresh attempt, and in which order: tests only after a worker that succeeded with
      changed files; no review of a tampered worktree, nor of a failure that says nothing about the code
      unless Codex made it; the final verifier only when all else has passed. */
  function AskedFor(id: IssueId, model: ModelId, answer: WorkerAnswer, tampered: bool, testsOk: bool,
                    review: Verdict, final: Verdict): seq<Observation>
  {
    AskedFirst(id, model, answer, tampered, testsOk, review) +
    if answer.success && answer.changed && !tampered && testsOk && review == Passed
    then [FinallyVerified(id, final == Passed)] else []
  }

  function AskedFirst(id: IssueId, model: ModelId, answer: WorkerAnswer, tampered: bool, testsOk: bool,
                      review: Verdict): seq<Observation>
  {
    var reviewed := !tampered &&
      ((answer.success && answer.changed) || model == "codex" ||
       (!answer.success && answer.kind in {PartialCode, IncorrectCode, TestsFailed}));
    AskedToProduce(id, answer, tampered, testsOk) + if reviewed then [Reviewed(id, review == Passed)] else []
  }

  function AskedToProduce(id: IssueId, answer: WorkerAnswer, tampered: bool, testsOk: bool): seq<Observation> {
    var ok := answer.success && answer.changed;
    [WorkerRan(id, ok)] + (if ok then [TestsRan(id, testsOk)] else []) + (if tampered then [Tampered(id)] else [])
  }

  predicate Ready(answer: WorkerAnswer, tampered: bool, testsOk: bool) {
    answer.success && answer.changed && !tampered && testsOk
  }

  /** What an attempt leaves in the ledger: nothing while its review is pending, else its candidate entry,
      followed by the final verification if there was a decisive one. */
  predicate BookedAs(was: seq<Entry>, now: seq<Entry>, id: IssueId, model: ModelId, answer: WorkerAnswer,
                     tampered: bool, testsOk: bool, review: Verdict, final: Verdict)
  {
    var ready := Ready(answer, tampered, testsOk);
    if ready && review == Unavailable then now == was
    else
      var verified := ready && review == Passed && (final == Passed || final == RejectedCode);
      |now| == |was| + (if verified then 2 else 1) && now[..|was|] == was &&
      CandidateAs(now[|was|], id, model, answer, tampered, testsOk, review) &&
      (verified ==> FinalAs(now[|was| + 1], id, final == Passed))
  }

  /** What a final verification leaves in the ledger: its entry if it was decisive. */
  predicate VerificationBooked(was: seq<Entry>, now: seq<Entry>, id: IssueId, final: Verdict) {
    if final == Passed || final == RejectedCode then
      |now| == |was| + 1 && now[..|was|] == was && FinalAs(now[|was|], id, final == Passed)
    else now == was
  }

  /** A worker's result that reached its review. */
  const GOOD_ANSWER := WorkerAnswer(true, true, Success)

  lemma CandidateBooked(was: seq<Entry>, mid: seq<Entry>, now: seq<Entry>, id: IssueId, model: ModelId,
                        answer: WorkerAnswer, tampered: bool, testsOk: bool, review: Verdict, final: Verdict)
    requires |mid| == |was| + 1 && mid[..|was|] == was
    requires CandidateAs(mid[|was|], id, model, answer, tampered, testsOk, review)
    requires if Ready(answer, tampered, testsOk) && review == Passed then VerificationBooked(mid, now, id, final)
             else now == mid
    ensures BookedAs(was, now, id, model, answer, tampered, testsOk, review, final)
  {
    if now != mid {
      assert now[..|was|] == now[..|mid|][..|was|];
      assert now[|was|] == now[..|mid|][|was|];
    }
  }

  /** A candidate waits for its final verification exactly when it passed worker, tests and review. It is
      recorded as a success also when a worker or a reviewer reports a failure of that name, but then as
      a rejected one. */
  lemma SuccessIsEarnedExactly(e: Entry, id: IssueId, model: ModelId, answer: WorkerAnswer, tampered: bool,
                               testsOk: bool, review: Verdict)
    requires CandidateAs(e, id, model, answer, tampered, testsOk, review)
    ensures SuccessEntry(e, id) <==> Ready(answer, tampered, testsOk) && review == Passed
    ensures e.classification == Success <==>
      || (Ready(answer, tampered, testsOk) && (review == Passed || review == OtherKind(Success)))
      || (!answer.success && answer.kind == Success)
    ensures e.classification == Success && !SuccessEntry(e, id) ==> e.decision == Rejected
  {
  }

  predicate CandidateEntry(e: Entry, id: IssueId, model: ModelId, c: Classification, good: bool) {
    e.AttemptEntry? && e.goal == id && e.goalClass == "coding" && !e.final && e.classification == c &&
    e.model == model && e.role == (if model == "codex" then Repair else Candidate) &&
    e.decision == (if good then NeedsFreshCodexVerification else Rejected)
  }

  /** A candidate's success is a success entry and never an acceptance; a passed final
      verification is an acceptance, whatever the ledger says so far. */
  lemma RequestsEnterAsMeant(ledger: seq<Entry>, id: IssueId, model: ModelId, c: Classification, f: Findings,
                             reviewer: string, passed: bool, flow: Flow)
    ensures var candidate := EntryFor(ledger, CandidateRequest(id, model, c, f, reviewer, passed, flow));
      (SuccessEntry(candidate, id) <==> c.Success? && passed) && !AcceptedEntry(candidate, id) &&
      CandidateEntry(candidate, id, model, c, passed)
    ensures !Inadmissible(FinalRequest(id, passed, f, flow))
    ensures var final := EntryFor(ledger, FinalRequest(id, passed, f, flow));
      (AcceptedEntry(final, id) <==> passed) && !SuccessEntry(final, id) && FinalAs(final, id, passed)
  {
  }
}
