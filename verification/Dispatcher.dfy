// The coding dispatcher: where an attempt is routed and how its result is recorded, and
// the three books that count attempts and failures: broker state, counters and ledger.
module CodingDispatcher {
  import opened Prelude
  import opened Classifications
  import opened EscalationPolicy
  import opened GtxBroker
  import FL = FailureLedgerService
  import PoolRecoveryService

  type GoalId = string
  type GoalClass = FL.GoalClass
  type ModelId = FL.ModelId

  const FAILURE_THRESHOLD := 3

  datatype Flow = Layered | Direct | GtxDirect
  datatype Role = Candidate | Repair | FinalVerification | UnknownRole

  datatype FinalDecision =
    | Undecided | Accepted | Rejected | Escalated | NeedsCodexVerification | NeedsFreshCodexVerification

  datatype Request = Request(
    goal: GoalId,
    goalClass: GoalClass,
    model: ModelId,
    classification: Classification,
    findings: Findings,
    reviewer: Option<string>,
    decision: FinalDecision,
    final: bool,
    role: Role,
    flow: Flow)

  datatype Entry =
    | AttemptEntry(goal: GoalId, goalClass: GoalClass, model: ModelId, classification: Classification, number: nat,
                   reviewer: Option<string>, decision: FinalDecision, final: bool, role: Role)
    | TransitionEntry(goal: GoalId, quotaExhausted: bool)
    | BrokerEntry(goal: GoalId, target: WorkerName)

  datatype RecordReply = AllRecorded | NotRecorded | TransactionFailed

  /** Everything the dispatcher decides by. `full` is all the broker ever recorded. */
  datatype Books = Books(
    full: seq<BrokerState>,
    counters: map<string, nat>,
    ledger: seq<Entry>,
    models: seq<FL.Model>)

  /** The string the failure counters are kept under. */
  function Key(goal: GoalId, goalClass: GoalClass): string {
    goal + ":" + goalClass
  }

  predicate IsP40(model: ModelId) {
    model == "p40" || model == P40_WORKER
  }

  function CounterAt(counters: map<string, nat>, key: string): nat {
    if key in counters then counters[key] else 0
  }

  // ---------- Recording ----------

  predicate RoutineReview(reviewer: Option<string>) {
    reviewer == Some("codex") || reviewer == Some("air-review")
  }

  /** The requests that raise before anything is written. */
  predicate Inadmissible(q: Request) {
    || q.role.UnknownRole?
    || (q.role.FinalVerification? && !q.final)
    || (if q.model == "codex" then
          if q.role.FinalVerification? then q.reviewer != Some("codex")
          else
            !q.role.Repair? || q.final ||
            !(q.reviewer == None || q.reviewer == Some("") || RoutineReview(q.reviewer))
        else
          q.final || ((q.classification.Success? || Substantive(q.classification)) && !RoutineReview(q.reviewer)))
  }

  function Decided(q: Request): FinalDecision {
    if q.decision != Accepted then q.decision
    else if q.model != "codex" then NeedsCodexVerification
    else if q.role.Repair? then NeedsFreshCodexVerification
    else Accepted
  }

  function AttemptCount(ledger: seq<Entry>, goal: GoalId, goalClass: GoalClass): nat {
    if ledger == [] then 0
    else
      var last := ledger[|ledger| - 1];
      AttemptCount(ledger[..|ledger| - 1], goal, goalClass) +
      if last.AttemptEntry? && last.goal == goal && last.goalClass == goalClass then 1 else 0
  }

  function EntryFor(ledger: seq<Entry>, q: Request): Entry {
    AttemptEntry(q.goal, q.goalClass, q.model, q.classification, 1 + AttemptCount(ledger, q.goal, q.goalClass),
                 q.reviewer, Decided(q), q.final, q.role)
  }

  function CountedFailure(counters: map<string, nat>, q: Request): map<string, nat> {
    var key := Key(q.goal, q.goalClass);
    if IsP40(q.model) && Substantive(q.classification) then counters[key := CounterAt(counters, key) + 1] else counters
  }

  /** What a Copilot attempt says about Copilot itself: its credit, or its availability. */
  function CopilotSeen(models: seq<FL.Model>, q: Request): seq<FL.Model> {
    var k := FL.First(models, "copilot");
    if q.model != "copilot" || k == |models| then models
    else if q.classification.CreditExhausted? then models[k := models[k].(exhausted := true)]
    else if q.classification in {EndpointUnavailable, Authentication} then
      models[k := models[k].(status := FL.Unusable)]
    else models
  }

  function AttemptOf(q: Request): GtxBroker.Attempt {
    GtxBroker.Attempt(q.classification, q.findings)
  }

  predicate Recordable(b: Books, q: Request) {
    !Inadmissible(q) && (q.flow.GtxDirect? ==> InWindow(b.full, q.goal))
  }

  function BrokerRecord(full: seq<BrokerState>, q: Request): seq<BrokerState> {
    if q.flow.GtxDirect? && Newest(full, q.goal).Some?
    then full + [Recorded(Newest(full, q.goal).value, AttemptOf(q), DirectEscalation)] else full
  }

  function AfterRecord(b: Books, q: Request): Books
    requires Recordable(b, q)
  {
    Books(BrokerRecord(b.full, q), CountedFailure(b.counters, q), b.ledger + [EntryFor(b.ledger, q)],
          CopilotSeen(b.models, q))
  }

  /** The broker has recorded the attempt, and the dispatcher's own transaction has failed. */
  function AfterBrokerOnly(b: Books, q: Request): Books
    requires Recordable(b, q)
  {
    b.(full := BrokerRecord(b.full, q))
  }

  // ---------- Routing ----------

  predicate CopilotAvailable(models: seq<FL.Model>) {
    var k := FL.First(models, "copilot");
    k < |models| && models[k].status.Active? && !models[k].exhausted
  }

  /** The healthy second-shift members an exhausted P40 may hand over to. */
  function Secondaries(models: seq<FL.Model>): set<ModelId> {
    PoolRecoveryService.UsableIds(models) - {"p40", "copilot", "codex"}
  }

  function FailuresOf(models: seq<FL.Model>, model: ModelId, goalClass: GoalClass): nat {
    FL.Streak(FL.Registry(models), model, goalClass)
  }

  /** A usable member none of the others has fewer failures than. */
  predicate LeastFailed(models: seq<FL.Model>, goalClass: GoalClass, model: ModelId) {
    model in Secondaries(models) &&
    forall other | other in Secondaries(models) ::
      FailuresOf(models, model, goalClass) <= FailuresOf(models, other, goalClass)
  }

  /** What routing may answer outside the broker flow; None when it raises. */
  predicate GoodTarget(b: Books, goal: GoalId, goalClass: GoalClass, flow: Flow, repair: bool,
                       target: Option<ModelId>)
  {
    if repair then target == Some(if CopilotAvailable(b.models) then "copilot" else "codex")
    else if CounterAt(b.counters, Key(goal, goalClass)) < FAILURE_THRESHOLD then target == Some("p40")
    else if flow.Direct? then target == Some(if CopilotAvailable(b.models) then "copilot" else "codex")
    else if Secondaries(b.models) == {} then target == None
    else target.Some? && LeastFailed(b.models, goalClass, target.value)
  }

  // ---------- The rules, in so many words ----------

  /** The attempts that are recorded: Codex's own final verification; a Codex repair that neither claims to be
      final nor names a foreign reviewer; and any other worker's candidate or repair, not final, and
      reviewed by Codex or Air Review if it is a success or a failure of the code. */
  lemma AdmissibleExactly(q: Request)
    ensures !Inadmissible(q) <==>
      || (q.model == "codex" && q.role == FinalVerification && q.final && q.reviewer == Some("codex"))
      || (q.model == "codex" && q.role == Repair && !q.final &&
          q.reviewer in {None, Some(""), Some("codex"), Some("air-review")})
      || (q.model != "codex" && q.role in {Candidate, Repair} && !q.final &&
          (q.classification in {Success, PartialCode, IncorrectCode, TestsFailed} ==>
            q.reviewer in {Some("codex"), Some("air-review")}))
  {
  }

  /** Only Codex's final verification may accept; what others call accepted still needs one. */
  lemma DecidedExactly(q: Request)
    requires !Inadmissible(q)
    ensures Decided(q) == Accepted <==> q.decision == Accepted && q.model == "codex" && q.role == FinalVerification
    ensures q.decision != Accepted ==> Decided(q) == q.decision
    ensures q.decision == Accepted && q.model != "codex" ==> Decided(q) == NeedsCodexVerification
    ensures q.decision == Accepted && q.model == "codex" && q.role == Repair ==>
      Decided(q) == NeedsFreshCodexVerification
  {
  }

  /** The ledger entry of an attempt says what the request said. */
  lemma EntrySaysWhatWasAsked(ledger: seq<Entry>, q: Request)
    ensures var e := EntryFor(ledger, q);
      e.AttemptEntry? && e.goal == q.goal && e.goalClass == q.goalClass && e.model == q.model &&
      e.classification == q.classification && e.reviewer == q.reviewer && e.final == q.final && e.role == q.role
  {
  }

  /** Copilot can be routed to exactly when the registry's first Copilot is active with credit left. */
  lemma CopilotAvailableExactly(models: seq<FL.Model>)
    ensures CopilotAvailable(models) <==>
      exists k :: 0 <= k < |models| && models[k].id == "copilot" && models[k].status == FL.Active &&
        !models[k].exhausted && forall i :: 0 <= i < k ==> models[i].id != "copilot"
  {
  }

  /** An attempt takes Copilot out exactly when it is Copilot's own and reports exhausted credit, an endpoint
      that is not there or a failed authentication; no attempt brings it back or touches another model. */
  lemma CopilotAfterExactly(models: seq<FL.Model>, q: Request)
    ensures CopilotAvailable(CopilotSeen(models, q)) <==>
      CopilotAvailable(models) &&
      !(q.model == "copilot" && q.classification in {CreditExhausted, EndpointUnavailable, Authentication})
    ensures |CopilotSeen(models, q)| == |models|
    ensures forall i :: 0 <= i < |models| && models[i].id != "copilot" ==> CopilotSeen(models, q)[i] == models[i]
  {
    FL.FirstDependsOnIds(models, CopilotSeen(models, q), "copilot");
  }

  /** Who may take over from the P40: a usable model that is neither the P40, Copilot nor Codex. */
  lemma SecondaryExactly(models: seq<FL.Model>, model: ModelId)
    ensures model in Secondaries(models) <==>
      model != "p40" && model != "copilot" && model != "codex" &&
      exists i :: 0 <= i < |models| && models[i].id == model && models[i].status == FL.Active && !models[i].exhausted
  {
  }

  /** ... and whom routing picks of them: nobody usable has failed less often on the goal class. */
  lemma PickedFailsLeast(models: seq<FL.Model>, goalClass: GoalClass, model: ModelId, i: nat)
    requires LeastFailed(models, goalClass, model)
    requires IsFirst(models, i) && models[i].id in Secondaries(models)
    ensures exists k :: IsFirst(models, k) && models[k].id == model && NoWorse(models[k], models[i], goalClass)
  {
    var k := FL.First(models, model);
    assert FL.First(models, models[i].id) == i;
    assert FailuresOf(models, model, goalClass) <= FailuresOf(models, models[i].id, goalClass);
    assert IsFirst(models, k) && NoWorse(models[k], models[i], goalClass);
  }

  predicate IsFirst(models: seq<FL.Model>, i: int) {
    0 <= i < |models| && forall j | 0 <= j < i :: models[j].id != models[i].id
  }

  predicate NoWorse(m: FL.Model, other: FL.Model, goalClass: GoalClass) {
    goalClass in m.counts && m.counts[goalClass] > 0 ==>
      goalClass in other.counts && m.counts[goalClass] <= other.counts[goalClass]
  }

  class Dispatcher {
    const broker: GtxBrokerDirector
    var counters: map<string, nat>
    var ledger: seq<Entry>
    var models: seq<FL.Model>
    var selected: Option<ModelId>

    ghost predicate Valid()
      reads this, broker
    {
      broker.Valid()
    }

    ghost function Content(): Books
      reads this, broker
    {
      Books(broker.full, counters, ledger, models)
    }

    constructor (broker: GtxBrokerDirector, models: seq<FL.Model>)
      requires broker.Valid()
      ensures Valid() && this.broker == broker && Content() == Books(broker.full, map[], [], models)
    {
      this.broker := broker;
      counters, ledger, this.models, selected := map[], [], models, None;
    }

    /** One attempt in all three books, or in none; if the transaction fails the broker is ahead. */
    method RecordAttemptResult(q: Request) returns (reply: RecordReply)
      requires Valid()
      modifies this, broker
      ensures Valid()
      ensures reply == NotRecorded <==> !Recordable(old(Content()), q)
      ensures Content() == match reply
        case AllRecorded => AfterRecord(old(Content()), q)
        case NotRecorded => old(Content())
        case TransactionFailed => AfterBrokerOnly(old(Content()), q)
    {
      var valid, decision := Validate(q);
      if !valid {
        return NotRecorded;
      }
      var next: Option<BrokerState> := None;
      if q.flow.GtxDirect? {
        next := broker.RecordAttemptResult(q.goal, AttemptOf(q), DirectEscalation);
        if next.None? {
          return NotRecorded;
        }
      }
      var failed: bool := *;
      if failed {
        return TransactionFailed;
      }
      PersistAttempt(q, decision);
      selected := Some(if next.Some? then next.value.selected else q.model);
      return AllRecorded;
    }

    /** The checks that raise, and the decision an attempt may really carry. */
    method Validate(q: Request) returns (valid: bool, decision: FinalDecision)
      ensures valid == !Inadmissible(q)
      ensures valid ==> decision == Decided(q)
    {
      decision := q.decision;
      if q.role.UnknownRole? {
        return false, decision;
      }
      if q.role.FinalVerification? && !q.final {
        return false, decision;
      }
      if q.model == "codex" {
        if q.role.FinalVerification? {
          if q.reviewer != Some("codex") {
            return false, decision;
          }
        } else if !q.role.Repair? || q.final {
          return false, decision;
        } else if !(q.reviewer in {None, Some(""), Some("codex"), Some("air-review")}) {
          return false, decision;
        }
      } else if q.role.FinalVerification? || q.final {
        return false, decision;
      } else if q.classification.Success? && !RoutineReview(q.reviewer) {
        return false, decision;
      } else if Substantive(q.classification) && !RoutineReview(q.reviewer) {
        return false, decision;
      }
      if q.model != "codex" && decision == Accepted {
        decision := NeedsCodexVerification;
      }
      if q.model == "codex" && q.role.Repair? && decision == Accepted {
        decision := NeedsFreshCodexVerification;
      }
      valid := true;
    }

    /** The transaction: counter, Copilot's state and ledger entry. */
    method PersistAttempt(q: Request, decision: FinalDecision)
      requires decision == Decided(q)
      modifies this
      ensures counters == CountedFailure(old(counters), q) && models == CopilotSeen(old(models), q)
      ensures ledger == old(ledger) + [EntryFor(old(ledger), q)]
    {
      var key := Key(q.goal, q.goalClass);
      var substantive := Substantive(q.classification);
      if IsP40(q.model) && substantive {
        counters := counters[key := (if key in counters then counters[key] else 0) + 1];
      }
      NoteCopilot(q);
      var earlier := CountAttempts(q.goal, q.goalClass);
      ledger := ledger +
        [AttemptEntry(q.goal, q.goalClass, q.model, q.classification, 1 + earlier,
                      q.reviewer, decision, q.final, q.role)];
    }

    method NoteCopilot(q: Request)
      modifies this`models
      ensures models == CopilotSeen(old(models), q)
    {
      if q.model == "copilot" {
        var k := FL.First(models, "copilot");
        if k < |models| {
          if q.classification.CreditExhausted? {
            models := models[k := models[k].(exhausted := true)];
          } else if q.classification in {EndpointUnavailable, Authentication} {
            models := models[k := models[k].(status := FL.Unusable)];
          }
        }
      }
    }

    method CountAttempts(goal: GoalId, goalClass: GoalClass) returns (n: nat)
      ensures n == AttemptCount(ledger, goal, goalClass)
    {
      n := 0;
      var i := 0;
      while i < |ledger|
        invariant 0 <= i <= |ledger| && n == AttemptCount(ledger[..i], goal, goalClass)
      {
        var entry := ledger[i];
        assert ledger[..i + 1][..i] == ledger[..i];
        if entry.AttemptEntry? && entry.goal == goal && entry.goalClass == goalClass {
          n := n + 1;
        }
        i := i + 1;
      }
      assert ledger[..i] == ledger;
    }

    /** The running best over the usable members. */
    method SelectSecondaryModel(goalClass: GoalClass) returns (best: Option<ModelId>)
      ensures if Secondaries(models) == {} then best == None
              else best.Some? && LeastFailed(models, goalClass, best.value)
    {
      best := None;
      var rest := Secondaries(models);
      while rest != {}
        invariant rest <= Secondaries(models)
        invariant best.None? ==> rest == Secondaries(models)
        invariant best.Some? ==>
          best.value in Secondaries(models) &&
          forall other | other in Secondaries(models) && other !in rest ::
            FailuresOf(models, best.value, goalClass) <= FailuresOf(models, other, goalClass)
        decreases rest
      {
        var model :| model in rest;
        rest := rest - {model};
        if best.None? || FailuresOf(models, model, goalClass) < FailuresOf(models, best.value, goalClass) {
          best := Some(model);
        }
      }
    }

    method RouteRepairWorker(goal: GoalId) returns (target: ModelId)
      modifies this`ledger
      ensures target == if CopilotAvailable(models) then "copilot" else "codex"
      ensures AppendsNoAttempt(old(ledger), ledger)
    {
      if CopilotAvailable(models) {
        return "copilot";
      }
      var k := FL.First(models, "copilot");
      ledger := ledger + [TransitionEntry(goal, k < |models| && models[k].exhausted)];
      return "codex";
    }

    /** Routing outside the broker flow: the P40 until its third counted failure on the goal, then
        the repair worker or a least-failed member of the second shift. */
    method RouteCodingRequest(goal: GoalId, goalClass: GoalClass, supplied: Option<seq<FL.Model>>, flow: Flow,
                              repair: bool)
      returns (target: Option<ModelId>)
      requires Valid() && !flow.GtxDirect?
      modifies this
      ensures Valid()
      ensures GoodTarget(old(Content()).(models := if supplied.Some? then supplied.value else old(models)),
                         goal, goalClass, flow, repair, target)
      ensures CountsKept(old(Content()), Content())
      ensures target.Some? ==> selected == target
      ensures target.None? ==> Content() == old(Content())
    {
      var before := models;
      if supplied.Some? {
        models := supplied.value;
      }
      var key := Key(goal, goalClass);
      if repair {
        var worker := RouteRepairWorker(goal);
        target := Some(worker);
      } else if (if key in counters then counters[key] else 0) < FAILURE_THRESHOLD {
        target := Some("p40");
      } else if flow.Direct? {
        var worker := RouteRepairWorker(goal);
        target := Some(worker);
      } else {
        target := SelectSecondaryModel(goalClass);
      }
      if target.None? {
        models := before;
        return;
      }
      selected := target;
    }

    /** Routing in the broker flow: the broker's standing selection for its current task, a fresh
        classification for any other, and the P40 when the broker fails. `noted`: the ledger has a
        note of this selection already. */
    method RouteGtxRequest(goal: GoalId, supplied: Option<seq<FL.Model>>, needsCodex: bool, brokerFails: bool,
                           noted: bool)
      returns (target: ModelId)
      requires Valid()
      modifies this, broker
      ensures Valid() && selected == Some(target)
      ensures broker.full ==
        if brokerFails ||
           (old(broker.full) != [] && old(broker.full)[|old(broker.full)| - 1].task == goal)
        then old(broker.full) else old(broker.full) + [Routed(goal, needsCodex)]
      ensures target == if brokerFails then "p40" else broker.full[|broker.full| - 1].selected
      ensures CountsKept(old(Content()).(full := broker.full), Content())
    {
      if supplied.Some? {
        models := supplied.value;
      }
      if brokerFails {
        target := "p40";
      } else {
        if broker.current.Some? && broker.current.value.task == goal {
          target := broker.current.value.selected;
        } else {
          target := broker.RouteRequest(goal, needsCodex, None, DirectEscalation);
        }
        if !noted {
          ledger := ledger + [BrokerEntry(goal, target)];
        }
      }
      selected := Some(target);
    }
  }

  predicate AppendsNoAttempt(ledger: seq<Entry>, ledger': seq<Entry>) {
    |ledger| <= |ledger'| && ledger'[..|ledger|] == ledger &&
    forall i | |ledger| <= i < |ledger'| :: !ledger'[i].AttemptEntry?
  }

  /** Routing counts nothing: it may add notes to the ledger and bring newer models. */
  predicate CountsKept(b: Books, b': Books) {
    b'.full == b.full && b'.counters == b.counters && AppendsNoAttempt(b.ledger, b'.ledger)
  }
}
