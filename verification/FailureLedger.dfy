// Failure streaks and quarantine: the registry transformations of the second shift, the
// failure ledger that applies them in one transaction, and what any history of them means.
module FailureLedgerService {
  import opened Prelude
  import opened Classifications
  import opened LockedStateFile

  type ModelId = string
  type GoalClass = string

  const THRESHOLD := 3

  datatype ModelStatus = Active | Unusable | Blocked | Standby | StatusUnknown

  datatype Model = Model(
    id: ModelId,
    status: ModelStatus,
    exhausted: bool,
    counts: map<GoalClass, nat>,
    reviewerRequired: bool,
    reviewedBy: Option<string>,
    artifact: Option<string>)

  datatype Registry = Registry(models: seq<Model>)

  datatype Entry = Entry(
    model: ModelId,
    goal: GoalClass,
    classification: Classification,
    counted: bool,
    consecutive: nat,
    statusAfter: ModelStatus)

  /** The ledger's own enumeration, which has no `review_unavailable`. */
  predicate Recognised(c: Classification) {
    !c.Success? && !c.ReviewUnavailable? && !c.Other?
  }

  /** Python's `not text or not text.strip()`, over the ASCII blanks. */
  predicate Blank(text: Option<string>) {
    text.None? || forall i | 0 <= i < |text.value| :: text.value[i] in {' ', '\t', '\n', '\r'}
  }

  // ---------- Registry transformations ----------

  function CountOf(m: Model, goal: GoalClass): nat {
    if goal in m.counts then m.counts[goal] else 0
  }

  /** Position of the first model with the id, or the length when there is none. */
  function First(models: seq<Model>, id: ModelId): (k: nat)
    ensures k <= |models|
    ensures k < |models| ==> models[k].id == id
    ensures forall i | 0 <= i < k :: models[i].id != id
  {
    if models == [] then 0 else if models[0].id == id then 0 else 1 + First(models[1..], id)
  }

  predicate Has(r: Registry, id: ModelId) {
    First(r.models, id) < |r.models|
  }

  function GetModel(r: Registry, id: ModelId): Model
    requires Has(r, id)
  {
    r.models[First(r.models, id)]
  }

  function WithModel(r: Registry, m: Model): Registry {
    var k := First(r.models, m.id);
    if k < |r.models| then Registry(r.models[k := m]) else r
  }

  /** The streak of a model on a goal; zero for a model the registry does not have. */
  function Streak(r: Registry, id: ModelId, goal: GoalClass): nat {
    if Has(r, id) then CountOf(GetModel(r, id), goal) else 0
  }

  function StatusOf(r: Registry, id: ModelId): ModelStatus {
    if Has(r, id) then GetModel(r, id).status else StatusUnknown
  }

  function Failed(m: Model, goal: GoalClass): Model {
    var m1 := m.(counts := m.counts[goal := CountOf(m, goal) + 1]);
    if CountOf(m1, goal) >= THRESHOLD && m.status == Active
    then m1.(status := Unusable, reviewerRequired := true) else m1
  }

  function Incremented(r: Registry, id: ModelId, goal: GoalClass): Registry {
    if Has(r, id) then WithModel(r, Failed(GetModel(r, id), goal)) else r
  }

  method IncrementSubstantiveFailure(id: ModelId, goal: GoalClass, r: Registry) returns (result: Registry)
    ensures result == Incremented(r, id, goal)
  {
    var models := r.models;
    var i := 0;
    while i < |models|
      invariant i <= |models| && models == r.models
      invariant forall j | 0 <= j < i :: models[j].id != id
    {
      if models[i].id == id {
        var count := (if goal in models[i].counts then models[i].counts[goal] else 0) + 1;
        var model := models[i].(counts := models[i].counts[goal := count]);
        if count >= THRESHOLD && model.status == Active {
          model := model.(status := Unusable, reviewerRequired := true);
        }
        return Registry(models[i := model]);
      }
      i := i + 1;
    }
    return r;
  }

  /** A quarantined model comes back with a clean slate, and only with a reviewer and evidence. */
  function Reactivated(r: Registry, id: ModelId, reviewer: Option<string>, evidence: Option<string>): Option<Registry> {
    if Blank(reviewer) || Blank(evidence) then None
    else if !Has(r, id) then Some(r)
    else if GetModel(r, id).status != Unusable then None
    else
      Some(WithModel(r, GetModel(r, id).(status := Active, reviewerRequired := false, reviewedBy := reviewer,
                                         counts := map[])))
  }

  method ReactivateModel(id: ModelId, reviewer: Option<string>, r: Registry, evidence: Option<string>)
    returns (result: Option<Registry>)
    ensures result == Reactivated(r, id, reviewer, evidence)
  {
    if Blank(reviewer) || Blank(evidence) {
      return None;
    }
    var i := 0;
    while i < |r.models|
      invariant i <= |r.models|
      invariant forall j | 0 <= j < i :: r.models[j].id != id
    {
      var model := r.models[i];
      if model.id == id {
        if model.status != Unusable {
          return None;
        }
        model := model.(status := Active, reviewerRequired := false, reviewedBy := reviewer, counts := map[]);
        return Some(Registry(r.models[i := model]));
      }
      i := i + 1;
    }
    return Some(r);
  }

  function ResetCounts(r: Registry, id: ModelId, reviewer: Option<string>, evidence: Option<string>): Option<Registry> {
    if StatusOf(r, id) == Unusable then Reactivated(r, id, reviewer, evidence)
    else if Has(r, id) then Some(WithModel(r, GetModel(r, id).(counts := map[])))
    else Some(r)
  }

  method ResetFailureCounts(id: ModelId, r: Registry, reviewer: Option<string>, evidence: Option<string>)
    returns (result: Option<Registry>)
    ensures result == ResetCounts(r, id, reviewer, evidence)
  {
    var i := 0;
    while i < |r.models| && r.models[i].id != id
      invariant 0 <= i <= |r.models| && forall j | 0 <= j < i :: r.models[j].id != id
    {
      i := i + 1;
    }
    if i < |r.models| && r.models[i].status == Unusable {
      result := ReactivateModel(id, reviewer, r, evidence);
    } else if i < |r.models| {
      result := Some(Registry(r.models[i := r.models[i].(counts := map[])]));
    } else {
      result := Some(r);
    }
  }

  function Succeeded(r: Registry, id: ModelId, goal: GoalClass, artifact: string): Option<Registry> {
    if Blank(Some(artifact)) || !Has(r, id) then None
    else
      var m := GetModel(r, id);
      Some(WithModel(r, m.(counts := m.counts[goal := 0], artifact := Some(artifact))))
  }

  lemma {:induction false} FirstDependsOnIds(xs: seq<Model>, ys: seq<Model>, id: ModelId)
    requires |xs| == |ys| && forall i | 0 <= i < |xs| :: xs[i].id == ys[i].id
    ensures First(xs, id) == First(ys, id)
  {
    if xs != [] {
      FirstDependsOnIds(xs[1..], ys[1..], id);
    }
  }

  lemma GetAfterWith(r: Registry, m: Model, id: ModelId)
    requires Has(r, m.id)
    ensures Has(WithModel(r, m), id) == Has(r, id)
    ensures Has(r, id) ==> GetModel(WithModel(r, m), id) == if id == m.id then m else GetModel(r, id)
  {
    FirstDependsOnIds(r.models, WithModel(r, m).models, id);
  }

  // ---------- The ledger ----------

  datatype Event =
    | Failure(id: ModelId, goal: GoalClass, classification: Classification, evidence: seq<string>, creditKnown: bool)
    | Success(id: ModelId, goal: GoalClass, artifact: string)
    | Reactivation(id: ModelId, reviewer: Option<string>, reviewerEvidence: Option<string>)
    | Reset(id: ModelId, reviewer: Option<string>, reviewerEvidence: Option<string>)

  type Books = State<Registry, Entry>

  /** validate_entry, on the fields a caller can get wrong. */
  predicate ValidFailure(e: Event) {
    e.Failure? && e.evidence != [] && Recognised(e.classification) && e.creditKnown
  }

  function AfterFailure(r: Registry, e: Event): Registry
    requires e.Failure?
  {
    if Substantive(e.classification) then Incremented(r, e.id, e.goal) else r
  }

  /** One event on registry and ledger; None when it raises, and then nothing is written. */
  function Outcome(b: Books, e: Event): Option<Books> {
    match e
    case Failure(id, goal, classification, _, _) =>
      if !ValidFailure(e) then None
      else
        var r := AfterFailure(b.registry, e);
        Some(State(r, b.ledger + [Entry(id, goal, classification, Substantive(classification),
                                        Streak(r, id, goal), StatusOf(r, id))]))
    case Success(id, goal, artifact) => Over(b, Succeeded(b.registry, id, goal, artifact))
    case Reactivation(id, reviewer, evidence) => Over(b, Reactivated(b.registry, id, reviewer, evidence))
    case Reset(id, reviewer, evidence) => Over(b, ResetCounts(b.registry, id, reviewer, evidence))
  }

  function Over(b: Books, r: Option<Registry>): Option<Books> {
    if r.Some? then Some(b.(registry := r.value)) else None
  }

  function Step(b: Books, e: Event): Books {
    if Outcome(b, e).Some? then Outcome(b, e).value else b
  }

  function After(b: Books, events: seq<Event>): Books {
    if events == [] then b else Step(After(b, events[..|events| - 1]), events[|events| - 1])
  }

  /** Persisted state is authoritative; a registry without models is replaced by the one supplied. */
  function Seeded(current: Registry, supplied: Registry): Registry {
    if current.models == [] then supplied else current
  }

  function Transaction(e: Event, supplied: Registry): (Registry, seq<Entry>) -> Option<Books> {
    (r: Registry, entries: seq<Entry>) => Outcome(State(Seeded(r, supplied), entries), e)
  }

  /** A recorded failure extends the ledger by its one entry, so that it is never lost among other
      callers of the state file. */
  lemma TransactionExtends(e: Event, supplied: Registry)
    ensures Extends(Update(Transaction(e, supplied)))
  {
  }

  class FailureLedger {
    const state: StateFile<Registry, Entry>

    constructor (state: StateFile<Registry, Entry>)
      ensures this.state == state
    {
      this.state := state;
    }

    /** Registry and ledger change together or not at all. */
    method RecordFailure(e: Event, supplied: Registry) returns (updated: Option<Registry>)
      requires e.Failure?
      modifies state
      ensures updated.Some? <==> ValidFailure(e)
      ensures updated.None? <==>
        e.evidence == [] || !e.creditKnown || e.classification == Classification.Success ||
        e.classification == ReviewUnavailable || e.classification.Other?
      ensures updated.Some? ==>
        state.ledger == old(state.ledger) +
          [Entry(e.id, e.goal, e.classification, e.classification in {PartialCode, IncorrectCode, TestsFailed},
                 Streak(state.registry, e.id, e.goal), StatusOf(state.registry, e.id))]
      ensures updated.Some? ==>
        var known := if old(state.registry).models == [] then supplied else old(state.registry);
        var before := State(known, old(state.ledger));
        state.Content() == Step(before, e) && updated.value == state.registry
      ensures updated.None? ==> state.Content() == old(state.Content())
    {
      if e.evidence == [] || !Recognised(e.classification) || !e.creditKnown {
        return None;
      }
      var answer := state.UpdateState(Transaction(e, supplied));
      return Some(answer.registry);
    }

    method RecordSuccess(e: Event, supplied: Registry) returns (updated: Option<Registry>)
      requires e.Success?
      modifies state
      ensures updated.Some? <==> !Blank(Some(e.artifact)) && Has(Seeded(old(state.registry), supplied), e.id)
      ensures updated.Some? ==>
        var known := if old(state.registry).models == [] then supplied else old(state.registry);
        var before := State(known, old(state.ledger));
        state.Content() == Step(before, e) && updated.value == state.registry
      ensures updated.None? ==> state.Content() == old(state.Content())
    {
      if Blank(Some(e.artifact)) {
        return None;
      }
      var answer := state.UpdateState(Transaction(e, supplied));
      match answer {
        case GotRegistry(registry) => return Some(registry);
        case _ => return None;
      }
    }

    /** How many ledger entries of the model and goal were counted. */
    method GetFailureCount(id: ModelId, goal: GoalClass) returns (n: nat)
      ensures n == Counted(state.ledger, id, goal)
    {
      n := 0;
      var i := 0;
      while i < |state.ledger|
        invariant i <= |state.ledger| && n == Counted(state.ledger[..i], id, goal)
      {
        var entry := state.ledger[i];
        assert state.ledger[..i + 1] == state.ledger[..i] + [entry];
        if entry.model == id && entry.goal == goal && entry.counted {
          n := n + 1;
        }
        i := i + 1;
      }
      assert state.ledger[..i] == state.ledger;
    }
  }

  function Counted(entries: seq<Entry>, id: ModelId, goal: GoalClass): nat {
    if entries == [] then 0
    else
      var last := entries[|entries| - 1];
      Counted(entries[..|entries| - 1], id, goal) +
      if last.model == id && last.goal == goal && last.counted then 1 else 0
  }

  // ---------- What a history means ----------

  /** A substantive failure that is recorded. */
  predicate Counts(e: Event, id: ModelId, goal: GoalClass) {
    ValidFailure(e) && Substantive(e.classification) && e.id == id && e.goal == goal
  }

  function Tally(events: seq<Event>, id: ModelId, goal: GoalClass): nat {
    if events == [] then 0
    else Tally(events[..|events| - 1], id, goal) + if Counts(events[|events| - 1], id, goal) then 1 else 0
  }

  /** An event that goes through and starts the streak afresh: a success on the goal, a
      reactivation, or a reset of the model. */
  predicate Clears(b: Books, e: Event, id: ModelId, goal: GoalClass) {
    !e.Failure? && e.id == id && Outcome(b, e).Some? && (e.Success? ==> e.goal == goal)
  }

  /** Text with something in it but blanks. */
  predicate Inked(text: string) {
    exists i :: 0 <= i < |text| && text[i] != ' ' && text[i] != '\t' && text[i] != '\n' && text[i] != '\r'
  }

  /** What clears the count of a model on a goal: a success on that goal with an artifact to show; a reactivation
      of the quarantined model by a named reviewer with evidence; a reset of it, which needs the same while it
      is quarantined. */
  lemma ClearsExactly(b: Books, e: Event, id: ModelId, goal: GoalClass)
    requires Has(b.registry, id)
    ensures Clears(b, e, id, goal) ==> e.id == id
    ensures e.id == id ==>
      match e
      case Failure(_, _, _, _, _) => !Clears(b, e, id, goal)
      case Success(_, g, artifact) => Clears(b, e, id, goal) <==> g == goal && Inked(artifact)
      case Reactivation(_, reviewer, evidence) =>
        Clears(b, e, id, goal) <==> StatusOf(b.registry, id) == Unusable && NamedWithEvidence(reviewer, evidence)
      case Reset(_, reviewer, evidence) =>
        Clears(b, e, id, goal) <==> (StatusOf(b.registry, id) == Unusable ==> NamedWithEvidence(reviewer, evidence))
  {
    if e.Success? {
      InkedExactly(Some(e.artifact));
    } else if !e.Failure? {
      InkedExactly(e.reviewer);
      InkedExactly(e.reviewerEvidence);
    }
  }

  predicate NamedWithEvidence(reviewer: Option<string>, evidence: Option<string>) {
    reviewer.Some? && Inked(reviewer.value) && evidence.Some? && Inked(evidence.value)
  }

  lemma InkedExactly(text: Option<string>)
    ensures !Blank(text) <==> text.Some? && Inked(text.value)
  {
  }

  /** ... and what adds one to it: a failure of the code, recorded with evidence and a known credit status. */
  lemma CountsExactly(e: Event, id: ModelId, goal: GoalClass)
    ensures Counts(e, id, goal) <==>
      e.Failure? && e.id == id && e.goal == goal && e.evidence != [] && e.creditKnown &&
      e.classification in {PartialCode, IncorrectCode, TestsFailed}
  {
  }

  /** What an event makes of one model on its own. */
  function ModelNext(m: Model, e: Event): Model {
    if e.id != m.id then m
    else
      match e
      case Failure(_, goal, classification, _, _) =>
        if ValidFailure(e) && Substantive(classification) then Failed(m, goal) else m
      case Success(_, goal, artifact) =>
        if Blank(Some(artifact)) then m else m.(counts := m.counts[goal := 0], artifact := Some(artifact))
      case Reactivation(_, reviewer, evidence) => Reviewed(m, reviewer, evidence)
      case Reset(_, reviewer, evidence) =>
        if m.status == Unusable then Reviewed(m, reviewer, evidence) else m.(counts := map[])
  }

  function Reviewed(m: Model, reviewer: Option<string>, evidence: Option<string>): Model {
    if Blank(reviewer) || Blank(evidence) || m.status != Unusable then m
    else m.(status := Active, reviewerRequired := false, reviewedBy := reviewer, counts := map[])
  }

  /** An event changes the model it names as ModelNext says, and no other. */
  lemma StepModel(b: Books, e: Event, id: ModelId)
    requires Has(b.registry, id)
    ensures Has(Step(b, e).registry, id)
    ensures GetModel(Step(b, e).registry, id) == ModelNext(GetModel(b.registry, id), e)
  {
    StepShape(b, e);
    ShapeModel(b.registry, Step(b, e).registry, e, id);
  }

  /** Nothing but counts, status and the reviewer's mark ever changes by failures and reviews, and an artifact
      is kept from a success only. */
  lemma OtherFieldsStay(b: Books, e: Event, id: ModelId)
    requires Has(b.registry, id)
    ensures Has(Step(b, e).registry, id)
    ensures var was, now := GetModel(b.registry, id), GetModel(Step(b, e).registry, id);
      now.id == was.id && now.exhausted == was.exhausted &&
      (now.artifact != was.artifact ==> e.Success? && e.id == id && now.artifact == Some(e.artifact)) &&
      (e.Success? ==> now.status == was.status) &&
      (forall g :: g in was.counts && (e.Success? || e.Failure?) && g != e.goal ==> CountOf(now, g) == CountOf(was, g))
  {
    StepModel(b, e, id);
  }

  function Renewed(r: Registry, e: Event): Registry {
    if Has(r, e.id) then WithModel(r, ModelNext(GetModel(r, e.id), e)) else r
  }

  lemma StepShape(b: Books, e: Event)
    ensures Step(b, e).registry == Renewed(b.registry, e)
  {
  }

  lemma ShapeModel(r: Registry, r': Registry, e: Event, id: ModelId)
    requires Has(r, id) && r' == Renewed(r, e)
    ensures Has(r', id) && GetModel(r', id) == ModelNext(GetModel(r, id), e)
  {
    if Has(r, e.id) {
      GetAfterWith(r, ModelNext(GetModel(r, e.id), e), id);
    }
  }

  lemma StreakStep(b: Books, e: Event, id: ModelId, goal: GoalClass)
    requires Has(b.registry, id)
    ensures Has(Step(b, e).registry, id)
    ensures Streak(Step(b, e).registry, id, goal) ==
      if Clears(b, e, id, goal) then 0
      else Streak(b.registry, id, goal) + (if Counts(e, id, goal) then 1 else 0)
  {
    StepModel(b, e, id);
  }

  /** No event of the stretch starts the streak afresh. */
  predicate Unbroken(b: Books, events: seq<Event>, id: ModelId, goal: GoalClass) {
    forall i | 0 <= i < |events| :: !Clears(After(b, events[..i]), events[i], id, goal)
  }

  lemma {:induction false} StreakGrowsByTally(b: Books, events: seq<Event>, id: ModelId, goal: GoalClass)
    requires Has(b.registry, id) && Unbroken(b, events, id, goal)
    ensures Has(After(b, events).registry, id)
    ensures Streak(After(b, events).registry, id, goal) == Streak(b.registry, id, goal) + Tally(events, id, goal)
  {
    if events != [] {
      var n := |events| - 1;
      forall i | 0 <= i < n ensures !Clears(After(b, events[..n][..i]), events[..n][i], id, goal) {
        assert events[..n][..i] == events[..i];
      }
      StreakGrowsByTally(b, events[..n], id, goal);
      StreakStep(After(b, events[..n]), events[n], id, goal);
    }
  }

  lemma {:induction false} AfterConcat(b: Books, xs: seq<Event>, ys: seq<Event>)
    ensures After(b, xs + ys) == After(After(b, xs), ys)
  {
    if ys == [] {
      assert xs + ys == xs;
    } else {
      var n := |ys| - 1;
      assert (xs + ys)[..|xs + ys| - 1] == xs + ys[..n];
      AfterConcat(b, xs, ys[..n]);
    }
  }

  lemma {:induction false} ModelsStay(b: Books, events: seq<Event>, id: ModelId)
    requires Has(b.registry, id)
    ensures Has(After(b, events).registry, id)
  {
    if events != [] {
      ModelsStay(b, events[..|events| - 1], id);
      StreakStep(After(b, events[..|events| - 1]), events[|events| - 1], id, "");
    }
  }

  /** After any history, a model's count for a goal is the number of its substantive failures since
      the last event that cleared it. */
  lemma StreakIsFailuresSinceLastClear(b: Books, xs: seq<Event>, clear: Event, ys: seq<Event>,
                                       id: ModelId, goal: GoalClass)
    requires Has(b.registry, id)
    requires Clears(After(b, xs), clear, id, goal)
    requires Unbroken(After(b, xs + [clear]), ys, id, goal)
    ensures Streak(After(b, xs + [clear] + ys).registry, id, goal) == Tally(ys, id, goal)
  {
    ModelsStay(b, xs, id);
    DropAppended(xs, clear);
    StreakStep(After(b, xs), clear, id, goal);
    StreakGrowsByTally(After(b, xs + [clear]), ys, id, goal);
    AfterConcat(b, xs + [clear], ys);
  }

  /** An active model is below the threshold on every goal. */
  predicate CalmModel(m: Model) {
    m.status == Active ==> forall g | g in m.counts :: m.counts[g] < 3
  }

  lemma CalmModelStep(m: Model, e: Event)
    requires CalmModel(m)
    ensures CalmModel(ModelNext(m, e))
  {
  }

  /** Whatever the other models do, a model that is below three while active stays so. */
  lemma {:induction false} ActiveModelStaysBelowThreshold(b: Books, events: seq<Event>, id: ModelId)
    requires Has(b.registry, id) && CalmModel(GetModel(b.registry, id))
    ensures Has(After(b, events).registry, id) && CalmModel(GetModel(After(b, events).registry, id))
  {
    if events != [] {
      var n := |events| - 1;
      ActiveModelStaysBelowThreshold(b, events[..n], id);
      StepModel(After(b, events[..n]), events[n], id);
      CalmModelStep(GetModel(After(b, events[..n]).registry, id), events[n]);
    }
  }

  /** Quarantine is left exactly by a reactivation or reset of that model with a named reviewer and
      evidence. */
  lemma QuarantineNeedsReviewer(b: Books, e: Event, id: ModelId)
    requires StatusOf(b.registry, id) == Unusable
    ensures StatusOf(Step(b, e).registry, id) != Unusable <==>
      (e.Reactivation? || e.Reset?) && e.id == id && NamedWithEvidence(e.reviewer, e.reviewerEvidence)
    ensures Has(Step(b, e).registry, id)
    ensures StatusOf(Step(b, e).registry, id) != Unusable ==>
      var m := GetModel(Step(b, e).registry, id);
      m.status == Active && m.counts == map[] && m.reviewedBy == e.reviewer && !m.reviewerRequired
  {
    StepModel(b, e, id);
    if e.Reactivation? || e.Reset? {
      InkedExactly(e.reviewer);
      InkedExactly(e.reviewerEvidence);
    }
  }

  /** Quarantine is entered exactly at the third failure of an active model on one goal. */
  lemma QuarantineAtThreshold(b: Books, e: Event, id: ModelId)
    requires StatusOf(b.registry, id) == Active
    ensures StatusOf(Step(b, e).registry, id) == Unusable <==>
      e.Failure? && e.id == id && e.evidence != [] && e.creditKnown &&
      e.classification in {PartialCode, IncorrectCode, TestsFailed} && Streak(b.registry, id, e.goal) + 1 >= 3
    ensures StatusOf(Step(b, e).registry, id) == Unusable ==> GetModel(Step(b, e).registry, id).reviewerRequired
  {
    StepModel(b, e, id);
  }

  lemma OperationalFailuresChangeNoModel(b: Books, e: Event)
    requires e.Failure? && e.classification !in {PartialCode, IncorrectCode, TestsFailed}
    ensures Step(b, e).registry == b.registry
  {
  }

  lemma LedgerStep(b: Books, e: Event, id: ModelId, goal: GoalClass)
    ensures Counted(Step(b, e).ledger, id, goal) == Counted(b.ledger, id, goal) + if Counts(e, id, goal) then 1 else 0
  {
    if ValidFailure(e) {
      DropAppended(b.ledger, Step(b, e).ledger[|b.ledger|]);
    }
  }

  /** In every history the registry never counts more than the ledger has counted entries for. */
  lemma {:induction false} StreakWithinLedger(b: Books, events: seq<Event>, id: ModelId, goal: GoalClass)
    requires Has(b.registry, id)
    requires Streak(b.registry, id, goal) <= Counted(b.ledger, id, goal)
    ensures Streak(After(b, events).registry, id, goal) <= Counted(After(b, events).ledger, id, goal)
    ensures Counted(After(b, events).ledger, id, goal) == Counted(b.ledger, id, goal) + Tally(events, id, goal)
  {
    if events != [] {
      var n := |events| - 1;
      StreakWithinLedger(b, events[..n], id, goal);
      ModelsStay(b, events[..n], id);
      StreakStep(After(b, events[..n]), events[n], id, goal);
      LedgerStep(After(b, events[..n]), events[n], id, goal);
    }
  }

  // ---------- Order of a batch ----------

  function WithFailure(r: Registry, e: Event): Registry
    requires e.Failure?
  {
    if ValidFailure(e) then AfterFailure(r, e) else r
  }

  predicate AllFailures(events: seq<Event>) {
    forall i | 0 <= i < |events| :: events[i].Failure?
  }

  /** The registry after a batch of failures. */
  function Batched(r: Registry, failures: seq<Event>): Registry
    requires AllFailures(failures)
  {
    if failures == [] then r
    else WithFailure(Batched(r, failures[..|failures| - 1]), failures[|failures| - 1])
  }

  lemma {:induction false} BatchedIsAfter(b: Books, failures: seq<Event>)
    requires AllFailures(failures)
    ensures After(b, failures).registry == Batched(b.registry, failures)
  {
    if failures != [] {
      BatchedIsAfter(b, failures[..|failures| - 1]);
    }
  }

  /** Two failures on different goals, seen at once. */
  function FailedBoth(m: Model, g: GoalClass, h: GoalClass): Model {
    var x, y := CountOf(m, g) + 1, CountOf(m, h) + 1;
    var m1 := m.(counts := m.counts[g := x][h := y]);
    if (x >= THRESHOLD || y >= THRESHOLD) && m.status == Active
    then m1.(status := Unusable, reviewerRequired := true) else m1
  }

  lemma FailedInTurn(m: Model, g: GoalClass, h: GoalClass)
    requires g != h
    ensures Failed(Failed(m, g), h) == FailedBoth(m, g, h)
  {
  }

  lemma FailedBothCommutes(m: Model, g: GoalClass, h: GoalClass)
    requires g != h
    ensures FailedBoth(m, g, h) == FailedBoth(m, h, g)
  {
  }

  lemma FailedCommutes(m: Model, g: GoalClass, h: GoalClass)
    ensures Failed(Failed(m, g), h) == Failed(Failed(m, h), g)
  {
    if g != h {
      FailedInTurn(m, g, h);
      FailedInTurn(m, h, g);
      FailedBothCommutes(m, g, h);
    }
  }

  function Hit(m: Model, e: Event, named: bool): Model
    requires e.Failure?
  {
    if named && ValidFailure(e) && Substantive(e.classification) then Failed(m, e.goal) else m
  }

  lemma FailureAt(r: Registry, e: Event)
    requires e.Failure?
    ensures |WithFailure(r, e).models| == |r.models|
    ensures forall i | 0 <= i < |r.models| ::
      WithFailure(r, e).models[i] == Hit(r.models[i], e, i == First(r.models, e.id))
    ensures forall id :: First(WithFailure(r, e).models, id) == First(r.models, id)
  {
  }

  lemma HitsCommute(m: Model, e: Event, ne: bool, f: Event, nf: bool)
    requires e.Failure? && f.Failure?
    ensures Hit(Hit(m, e, ne), f, nf) == Hit(Hit(m, f, nf), e, ne)
  {
    FailedCommutes(m, e.goal, f.goal);
  }

  lemma FailuresCommute(r: Registry, e: Event, f: Event)
    requires e.Failure? && f.Failure?
    ensures WithFailure(WithFailure(r, e), f) == WithFailure(WithFailure(r, f), e)
  {
    var re, rf := WithFailure(r, e), WithFailure(r, f);
    var ef, fe := WithFailure(re, f), WithFailure(rf, e);
    FailureAt(r, e);
    FailureAt(r, f);
    FailureAt(re, f);
    FailureAt(rf, e);
    var ne, nf := First(r.models, e.id), First(r.models, f.id);
    forall i: nat | i < |r.models| ensures ef.models[i] == fe.models[i] {
      assert ef.models[i] == Hit(Hit(r.models[i], e, i == ne), f, i == nf);
      assert fe.models[i] == Hit(Hit(r.models[i], f, i == nf), e, i == ne);
      HitsCommute(r.models[i], e, i == ne, f, i == nf);
    }
    assert ef.models == fe.models;
  }

  lemma BatchedAppend(r: Registry, failures: seq<Event>, e: Event)
    requires e.Failure? && AllFailures(failures)
    ensures Batched(r, failures + [e]) == WithFailure(Batched(r, failures), e)
  {
  }

  lemma {:induction false} MoveToEnd(r: Registry, front: seq<Event>, x: Event, back: seq<Event>)
    requires x.Failure? && AllFailures(front) && AllFailures(back)
    ensures Batched(r, front + [x] + back) == Batched(r, front + back + [x])
  {
    if back == [] {
      assert front + [x] + back == front + back + [x];
    } else {
      var n := |back| - 1;
      var b0, last := back[..n], back[n];
      MoveToEnd(r, front, x, b0);
      assert front + [x] + back == front + [x] + b0 + [last];
      BatchedAppend(r, front + [x] + b0, last);
      SwapLastTwo(r, front + b0, x, last);
      assert front + back + [x] == front + b0 + [last] + [x];
    }
  }

  lemma SwapLastTwo(r: Registry, failures: seq<Event>, e: Event, f: Event)
    requires e.Failure? && f.Failure? && AllFailures(failures)
    ensures WithFailure(Batched(r, failures + [e]), f) == Batched(r, failures + [f] + [e])
  {
    BatchedAppend(r, failures, e);
    BatchedAppend(r, failures, f);
    BatchedAppend(r, failures + [f], e);
    FailuresCommute(Batched(r, failures), e, f);
  }

  lemma WithoutOne(xs: seq<Event>, k: nat)
    requires k < |xs|
    ensures multiset(xs[..k] + xs[k + 1..]) == multiset(xs) - multiset{xs[k]}
  {
    assert xs == xs[..k] + [xs[k]] + xs[k + 1..];
  }

  /** The counts and statuses a batch of failures leaves do not depend on its order. */
  lemma {:induction false} BatchOrderIsIrrelevant(r: Registry, xs: seq<Event>, ys: seq<Event>)
    requires AllFailures(xs) && AllFailures(ys)
    requires multiset(xs) == multiset(ys)
    ensures Batched(r, xs) == Batched(r, ys)
  {
    if xs == [] {
      assert |ys| == |multiset(ys)| == 0;
    } else {
      var n := |xs| - 1;
      var k := Match(xs, ys);
      assert ys == ys[..k] + [ys[k]] + ys[k + 1..];
      MoveToEnd(r, ys[..k], ys[k], ys[k + 1..]);
      BatchOrderIsIrrelevant(r, xs[..n], ys[..k] + ys[k + 1..]);
      BatchedAppend(r, ys[..k] + ys[k + 1..], xs[n]);
    }
  }

  /** Where the last element of one ordering stands in the other. */
  lemma Match(xs: seq<Event>, ys: seq<Event>) returns (k: nat)
    requires xs != [] && multiset(xs) == multiset(ys)
    ensures k < |ys| && ys[k] == xs[|xs| - 1]
    ensures multiset(xs[..|xs| - 1]) == multiset(ys[..k] + ys[k + 1..])
  {
    var n := |xs| - 1;
    assert xs[n] in multiset(ys);
    k :| k < |ys| && ys[k] == xs[n];
    WithoutOne(ys, k);
    assert xs == xs[..n] + [xs[n]];
  }
}
