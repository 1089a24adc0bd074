// Staged recovery of the second-shift pool: what one observation does, and what any run
// of observations and outside health changes adds up to.
module PoolRecoveryService {
  import opened Prelude
  import FL = FailureLedgerService

  type MemberId = FL.ModelId
  type Member = FL.Model

  datatype Kind = DropToTwo | RiseToFour
  datatype Action = Activate(id: MemberId) | Deactivate(id: MemberId)
  datatype Transition = Transition(kind: Kind, actions: seq<Action>)

  datatype Recovery = Recovery(
    last: Option<nat>,
    toTwo: nat,
    toFour: nat,
    members: seq<MemberId>,
    original: set<MemberId>,
    log: seq<Transition>)

  datatype Pool = Pool(models: seq<Member>, recovery: Recovery)

  const RECOVERY_MEMBERS: seq<MemberId> := ["copilot", "codex"]
  const NO_RECOVERY := Recovery(None, 0, 0, [], {}, [])

  predicate UsableMember(m: Member) {
    m.status.Active? && !m.exhausted
  }

  function UsableIds(models: seq<Member>): set<MemberId> {
    set i | 0 <= i < |models| && UsableMember(models[i]) :: models[i].id
  }

  function WithStatus(models: seq<Member>, k: nat, status: FL.ModelStatus): seq<Member>
    requires k < |models|
  {
    models[k := models[k].(status := status)]
  }

  predicate Drops(before: Option<nat>, now: nat) {
    before.Some? && before.value > 2 && now <= 2
  }

  predicate Rises(before: Option<nat>, now: nat) {
    before.Some? && before.value < 4 && now >= 4
  }

  function Originals(p: Pool): set<MemberId> {
    if p.recovery.original != {} then p.recovery.original
    else set m | m in p.models && m.id !in RECOVERY_MEMBERS :: m.id
  }

  function Removed(ids: seq<MemberId>, id: MemberId): seq<MemberId> {
    if ids == [] then [] else if ids[0] == id then ids[1..] else [ids[0]] + Removed(ids[1..], id)
  }

  // ---------- One observation ----------

  function OnDrop(p: Pool): (Pool, seq<Action>) {
    var r := p.recovery.(toTwo := p.recovery.toTwo + 1);
    if r.toTwo > 2 then (p.(recovery := r), [])
    else
      var target := RECOVERY_MEMBERS[r.toTwo - 1];
      var k := FL.First(p.models, target);
      if k == |p.models| || target in r.original then (p.(recovery := r), [])
      else
        var active := p.models[k].status.Active?;
        (Pool(if active then p.models else WithStatus(p.models, k, FL.Active),
              if target in r.members then r else r.(members := r.members + [target])),
         if active then [] else [Activate(target)])
  }

  function OnRise(p: Pool): (Pool, seq<Action>) {
    var r := p.recovery.(toFour := p.recovery.toFour + 1);
    if r.toFour > 2 then (p.(recovery := r), [])
    else
      var target := RECOVERY_MEMBERS[2 - r.toFour];
      var k := FL.First(p.models, target);
      if k == |p.models| || target !in r.members || target in r.original then (p.(recovery := r), [])
      else (Pool(WithStatus(p.models, k, FL.Standby), r.(members := Removed(r.members, target))),
            [Deactivate(target)])
  }

  function Observe(p: Pool): (Pool, seq<Action>) {
    var p0 := p.(recovery := p.recovery.(original := Originals(p)));
    var now := |UsableIds(p.models)|;
    var before := p.recovery.last;
    var (p1, actions) :=
      if Drops(before, now) then OnDrop(p0) else if Rises(before, now) then OnRise(p0) else (p0, []);
    var log :=
      if Drops(before, now) then p1.recovery.log + [Transition(DropToTwo, actions)]
      else if Rises(before, now) then p1.recovery.log + [Transition(RiseToFour, actions)]
      else p1.recovery.log;
    (p1.(recovery := p1.recovery.(last := Some(now), log := log)), actions)
  }

  /** The registry's models and its `pool_recovery` record, updated in place inside one transaction. */
  class Registry {
    var models: seq<Member>
    var recovery: Recovery

    function Content(): Pool
      reads this
    {
      Pool(models, recovery)
    }

    constructor (models: seq<Member>)
      ensures Content() == Pool(models, NO_RECOVERY)
    {
      this.models, recovery := models, NO_RECOVERY;
    }

    method CheckPoolRecovery() returns (actions: seq<Action>)
      modifies this
      ensures (Content(), actions) == Observe(old(Content()))
    {
      if recovery.original == {} {
        recovery := recovery.(original := Originals(Content()));
      }
      var usableBefore := |UsableIds(models)|;
      var previous := recovery.last;
      var dropToTwo := previous.Some? && previous.value > 2 && usableBefore <= 2;
      var riseToFour := previous.Some? && previous.value < 4 && usableBefore >= 4;
      actions := [];
      if dropToTwo {
        actions := ApplyDrop();
      }
      if riseToFour {
        actions := ApplyRise();
      }
      if dropToTwo || riseToFour {
        recovery := recovery.(log := recovery.log + [Transition(if dropToTwo then DropToTwo else RiseToFour, actions)]);
      }
      recovery := recovery.(last := Some(usableBefore));
    }

    method ApplyDrop() returns (actions: seq<Action>)
      modifies this
      ensures (Content(), actions) == OnDrop(old(Content()))
    {
      actions := [];
      recovery := recovery.(toTwo := recovery.toTwo + 1);
      if recovery.toTwo <= 2 {
        var target := RECOVERY_MEMBERS[recovery.toTwo - 1];
        var k := FL.First(models, target);
        if k < |models| && target !in recovery.original {
          if !models[k].status.Active? {
            models := models[k := models[k].(status := FL.Active)];
            actions := [Activate(target)];
          }
          if target !in recovery.members {
            recovery := recovery.(members := recovery.members + [target]);
          }
        }
      }
    }

    method ApplyRise() returns (actions: seq<Action>)
      modifies this
      ensures (Content(), actions) == OnRise(old(Content()))
    {
      actions := [];
      recovery := recovery.(toFour := recovery.toFour + 1);
      if recovery.toFour <= 2 {
        var target := RECOVERY_MEMBERS[2 - recovery.toFour];
        var k := FL.First(models, target);
        if k < |models| && target in recovery.members && target !in recovery.original {
          models := models[k := models[k].(status := FL.Standby)];
          recovery := recovery.(members := Removed(recovery.members, target));
          actions := [Deactivate(target)];
        }
      }
    }
  }

  // ---------- Runs ----------

  /** Outside changes may replace the models altogether; the recovery record is recovery's own. */
  datatype Step = Look | Outside(models: seq<Member>)

  function Do(p: Pool, step: Step): Pool {
    if step.Look? then Observe(p).0 else p.(models := step.models)
  }

  function After(p: Pool, steps: seq<Step>): Pool {
    if steps == [] then p else Do(After(p, steps[..|steps| - 1]), steps[|steps| - 1])
  }

  /** The usable counts the observations of a run saw. */
  function Seen(p: Pool, steps: seq<Step>): seq<nat> {
    if steps == [] then []
    else
      var before := steps[..|steps| - 1];
      Seen(p, before) +
      if steps[|steps| - 1].Look? then [|UsableIds(After(p, before).models)|] else []
  }

  /** How often consecutive observed counts fell from above two to two or less. */
  function DropCount(counts: seq<nat>): nat {
    if |counts| < 2 then 0
    else
      var n := |counts| - 1;
      DropCount(counts[..n]) + if counts[n - 1] > 2 && counts[n] <= 2 then 1 else 0
  }

  function RiseCount(counts: seq<nat>): nat {
    if |counts| < 2 then 0
    else
      var n := |counts| - 1;
      RiseCount(counts[..n]) + if counts[n - 1] < 4 && counts[n] >= 4 then 1 else 0
  }

  function ActionCount(log: seq<Transition>, action: Action): nat {
    if log == [] then 0
    else
      var last := log[|log| - 1];
      ActionCount(log[..|log| - 1], action) + if action in last.actions then 1 else 0
  }

  predicate Fresh(p: Pool) {
    p.recovery == NO_RECOVERY
  }

  /** What the recovery record of any reachable pool says about the observed counts. */
  predicate Tallied(r: Recovery, counts: seq<nat>) {
    r.last == (if counts == [] then None else Some(counts[|counts| - 1])) &&
    r.toTwo == DropCount(counts) && r.toFour == RiseCount(counts) && |r.log| == r.toTwo + r.toFour
  }

  lemma ObservationTallies(p: Pool, counts: seq<nat>)
    requires Tallied(p.recovery, counts)
    ensures Tallied(Observe(p).0.recovery, counts + [|UsableIds(p.models)|])
  {
  }

  /** The counters are the threshold crossings of the observed counts, and each crossing is logged. */
  lemma {:induction false} CountersAreCrossings(p: Pool, steps: seq<Step>)
    requires Fresh(p)
    ensures Tallied(After(p, steps).recovery, Seen(p, steps))
  {
    if steps != [] {
      var n := |steps| - 1;
      CountersAreCrossings(p, steps[..n]);
      if steps[n].Look? {
        ObservationTallies(After(p, steps[..n]), Seen(p, steps[..n]));
      } else {
        assert Seen(p, steps) == Seen(p, steps[..n]);
      }
    }
  }

  /** Recovery's own bookkeeping: who can be a recovery member, and which actions are behind it. */
  predicate Staged(r: Recovery) {
    (forall id | id in r.original :: id !in RECOVERY_MEMBERS) &&
    ("copilot" in r.members ==> r.toTwo >= 1) && ("codex" in r.members ==> r.toTwo >= 2) &&
    ActionCount(r.log, Activate("copilot")) <= (if r.toTwo >= 1 then 1 else 0) &&
    ActionCount(r.log, Activate("codex")) <= (if r.toTwo >= 2 then 1 else 0) &&
    ActionCount(r.log, Deactivate("codex")) <= (if r.toFour >= 1 then 1 else 0) &&
    ActionCount(r.log, Deactivate("copilot")) <= (if r.toFour >= 2 then 1 else 0)
  }

  lemma {:induction false} RemovedIsGone(ids: seq<MemberId>, id: MemberId, other: MemberId)
    ensures other in Removed(ids, id) ==> other in ids
  {
    if ids != [] && ids[0] != id {
      RemovedIsGone(ids[1..], id, other);
    }
  }

  /** The actions of one observation: at most one, and always on the member whose turn it is. */
  predicate InTurn(r: Recovery, r': Recovery, actions: seq<Action>) {
    r.toTwo <= r'.toTwo && r.toFour <= r'.toFour &&
    (actions == [] ||
     (r'.toTwo == 1 && r.toTwo == 0 && actions == [Activate("copilot")]) ||
     (r'.toTwo == 2 && r.toTwo == 1 && actions == [Activate("codex")]) ||
     (r'.toFour == 1 && r.toFour == 0 && actions == [Deactivate("codex")] && "codex" in r.members) ||
     (r'.toFour == 2 && r.toFour == 1 && actions == [Deactivate("copilot")] && "copilot" in r.members))
  }

  lemma ActionsInTurn(p: Pool)
    ensures InTurn(p.recovery, Observe(p).0.recovery, Observe(p).1)
  {
  }

  lemma ActionsAreLogged(p: Pool, action: Action)
    ensures Logged(p.recovery, Observe(p).0.recovery, Observe(p).1, action)
  {
  }

  lemma MembersJoinInTurn(p: Pool)
    requires Staged(p.recovery)
    ensures var r' := Observe(p).0.recovery;
      (forall id | id in r'.original :: id !in RECOVERY_MEMBERS) &&
      ("copilot" in r'.members ==> r'.toTwo >= 1) && ("codex" in r'.members ==> r'.toTwo >= 2)
  {
    RemovedIsGone(p.recovery.members, "copilot", "codex");
    RemovedIsGone(p.recovery.members, "codex", "copilot");
  }

  predicate Logged(r: Recovery, r': Recovery, actions: seq<Action>, action: Action) {
    ActionCount(r'.log, action) == ActionCount(r.log, action) + if action in actions then 1 else 0
  }

  lemma StagesAddUp(r: Recovery, r': Recovery, actions: seq<Action>)
    requires Staged(r) && InTurn(r, r', actions)
    requires forall id | id in r'.original :: id !in RECOVERY_MEMBERS
    requires ("copilot" in r'.members ==> r'.toTwo >= 1) && ("codex" in r'.members ==> r'.toTwo >= 2)
    requires Logged(r, r', actions, Activate("copilot")) && Logged(r, r', actions, Activate("codex"))
    requires Logged(r, r', actions, Deactivate("copilot")) && Logged(r, r', actions, Deactivate("codex"))
    ensures Staged(r')
  {
  }

  lemma ObservationStages(p: Pool)
    requires Staged(p.recovery)
    ensures Staged(Observe(p).0.recovery)
  {
    ActionsInTurn(p);
    MembersJoinInTurn(p);
    ActionsAreLogged(p, Activate("copilot"));
    ActionsAreLogged(p, Activate("codex"));
    ActionsAreLogged(p, Deactivate("copilot"));
    ActionsAreLogged(p, Deactivate("codex"));
    StagesAddUp(p.recovery, Observe(p).0.recovery, Observe(p).1);
  }

  /** Over any run each recovery member is activated at most once and deactivated at most once. */
  lemma {:induction false} EachMemberOnceEachWay(p: Pool, steps: seq<Step>)
    requires Fresh(p)
    ensures Staged(After(p, steps).recovery)
    ensures forall id | id in RECOVERY_MEMBERS ::
      ActionCount(After(p, steps).recovery.log, Activate(id)) <= 1 &&
      ActionCount(After(p, steps).recovery.log, Deactivate(id)) <= 1
  {
    if steps != [] {
      var n := |steps| - 1;
      EachMemberOnceEachWay(p, steps[..n]);
      if steps[n].Look? {
        ObservationStages(After(p, steps[..n]));
      }
    }
  }

  /** An observation changes the status of recovery members only, and nothing else about any model. */
  lemma OnlyRecoveryMembersChange(p: Pool, i: nat)
    requires i < |p.models|
    ensures |Observe(p).0.models| == |p.models|
    ensures Observe(p).0.models[i] == p.models[i] ||
      (p.models[i].id in RECOVERY_MEMBERS &&
       Observe(p).0.models[i] == p.models[i].(status := Observe(p).0.models[i].status))
    ensures Observe(p).1 == [] ==> Observe(p).0.models == p.models
  {
  }

  // ---------- No flapping ----------

  lemma UsableAfterStatus(models: seq<Member>, k: nat, status: FL.ModelStatus)
    requires k < |models|
    ensures UsableIds(WithStatus(models, k, status)) <= UsableIds(models) + {models[k].id}
    ensures UsableIds(models) <= UsableIds(WithStatus(models, k, status)) + {models[k].id}
    ensures |UsableIds(WithStatus(models, k, status))| <= |UsableIds(models)| + 1
    ensures |UsableIds(models)| <= |UsableIds(WithStatus(models, k, status))| + 1
  {
    var models' := WithStatus(models, k, status);
    var u, u' := UsableIds(models), UsableIds(models');
    forall id | id in u' && id != models[k].id ensures id in u {
      var i :| 0 <= i < |models'| && UsableMember(models'[i]) && models'[i].id == id;
      assert models[i] == models'[i];
    }
    forall id | id in u && id != models[k].id ensures id in u' {
      var i :| 0 <= i < |models| && UsableMember(models[i]) && models[i].id == id;
      assert models[i] == models'[i];
    }
    OneMore(u', u, models[k].id);
    OneMore(u, u', models[k].id);
  }

  lemma OneMore(a: set<MemberId>, b: set<MemberId>, x: MemberId)
    requires a <= b + {x}
    ensures |a| <= |b| + 1
  {
    assert |a - {x}| >= |a| - 1 by {
      if x in a {
        assert a == (a - {x}) + {x};
      } else {
        assert a - {x} == a;
      }
    }
    Smaller(a - {x}, b);
  }

  lemma {:induction false} Smaller(a: set<MemberId>, b: set<MemberId>)
    requires a <= b
    ensures |a| <= |b|
  {
    if a != {} {
      var x :| x in a;
      Smaller(a - {x}, b - {x});
    }
  }

  /** The next observation would see no crossing. */
  predicate Quiet(p: Pool) {
    var now := |UsableIds(p.models)|;
    p.recovery.last.Some? && !Drops(p.recovery.last, now) && !Rises(p.recovery.last, now)
  }

  /** An action moves the usable count by one at most, never back across the threshold it crossed. */
  lemma ActionLeavesQuiet(p: Pool)
    requires Observe(p).1 != []
    ensures Quiet(Observe(p).0)
  {
    var before, now := p.recovery.last, |UsableIds(p.models)|;
    var target :=
      if Drops(before, now) then RECOVERY_MEMBERS[p.recovery.toTwo] else RECOVERY_MEMBERS[1 - p.recovery.toFour];
    var k := FL.First(p.models, target);
    UsableAfterStatus(p.models, k, FL.Active);
    UsableAfterStatus(p.models, k, FL.Standby);
  }

  /** Without outside changes an action is never followed by another one. */
  lemma {:induction false} NoFlapping(p: Pool, steps: seq<Step>)
    requires Observe(p).1 != [] && forall i | 0 <= i < |steps| :: steps[i].Look?
    ensures Quiet(After(Observe(p).0, steps))
    ensures After(Observe(p).0, steps).models == Observe(p).0.models
    ensures After(Observe(p).0, steps).recovery.log == Observe(p).0.recovery.log
  {
    if steps == [] {
      ActionLeavesQuiet(p);
    } else {
      NoFlapping(p, steps[..|steps| - 1]);
    }
  }

  /** Distinct usable models, by status and credit. */
  function UsableNow(p: Pool): nat {
    |set i | 0 <= i < |p.models| && p.models[i].status == FL.Active && !p.models[i].exhausted :: p.models[i].id|
  }

  /** Copilot comes in at the first drop to two and codex at the second, if the registry has them and they are
      not of the original pool; at the first rise to four codex goes out and at the second Copilot, if they are
      members by then. */
  predicate ComesIn(p: Pool, id: MemberId) {
    p.recovery.last.Some? && p.recovery.last.value > 2 && UsableNow(p) <= 2 && NextIn(p, id)
  }

  predicate NextIn(p: Pool, id: MemberId) {
    ((id == "copilot" && p.recovery.toTwo == 0) || (id == "codex" && p.recovery.toTwo == 1)) &&
    id !in p.recovery.original && (FirstIs(p.models, id, true) || FirstIs(p.models, id, false))
  }

  predicate GoesOut(p: Pool, id: MemberId) {
    p.recovery.last.Some? && p.recovery.last.value < 4 && UsableNow(p) >= 4 && NextOut(p, id)
  }

  predicate NextOut(p: Pool, id: MemberId) {
    ((id == "codex" && p.recovery.toFour == 0) || (id == "copilot" && p.recovery.toFour == 1)) &&
    id !in p.recovery.original && id in p.recovery.members &&
    (FirstIs(p.models, id, true) || FirstIs(p.models, id, false))
  }

  /** The observation whose turn an action is: a member comes in by an activation unless it is active already. */
  predicate TurnOf(p: Pool, action: Action) {
    match action
    case Activate(id) => ComesIn(p, id) && FirstIs(p.models, id, false)
    case Deactivate(id) => GoesOut(p, id)
  }

  /** The registry's first model of this id is there, active or not. */
  predicate FirstIs(models: seq<Member>, id: MemberId, active: bool) {
    exists k :: 0 <= k < |models| && models[k].id == id && (models[k].status == FL.Active) == active &&
      forall i :: 0 <= i < k ==> models[i].id != id
  }

  lemma UsableNowIsUsable(p: Pool)
    ensures UsableNow(p) == |UsableIds(p.models)|
  {
    assert UsableIds(p.models) ==
      set i | 0 <= i < |p.models| && p.models[i].status == FL.Active && !p.models[i].exhausted :: p.models[i].id;
  }

  lemma FirstIsFirst(models: seq<Member>, id: MemberId)
    ensures forall active :: FirstIs(models, id, active) <==>
      FL.First(models, id) < |models| && (models[FL.First(models, id)].status == FL.Active) == active
  {
  }

  /** What an observation leaves in the recovery record: the count seen, the original pool when it had none yet,
      and for a crossing its counter and its entry with the actions taken. */
  lemma RecordExactly(p: Pool)
    ensures var r, now := p.recovery, UsableNow(p);
      var r', actions := Observe(p).0.recovery, Observe(p).1;
      var dropped := r.last.Some? && r.last.value > 2 && now <= 2;
      var rose := r.last.Some? && r.last.value < 4 && now >= 4;
      r'.last == Some(now) &&
      r'.original == (if r.original != {} then r.original
                      else set m | m in p.models && m.id != "copilot" && m.id != "codex" :: m.id) &&
      r'.toTwo == r.toTwo + (if dropped then 1 else 0) && r'.toFour == r.toFour + (if rose then 1 else 0) &&
      r'.log == r.log + (if dropped then [Transition(DropToTwo, actions)]
                         else if rose then [Transition(RiseToFour, actions)] else [])
  {
    UsableNowIsUsable(p);
    assert Originals(p) == if p.recovery.original != {} then p.recovery.original
                           else set m | m in p.models && m.id != "copilot" && m.id != "codex" :: m.id;
  }

  lemma DropActs(p: Pool, action: Action)
    ensures action in OnDrop(p).1 <==>
      action.Activate? && NextIn(p, action.id) && FirstIs(p.models, action.id, false)
    ensures action in OnDrop(p).1 ==>
      FL.StatusOf(FL.Registry(OnDrop(p).0.models), action.id) == FL.Active
  {
    FirstIsFirst(p.models, action.id);
    if action in OnDrop(p).1 {
      FL.FirstDependsOnIds(p.models, OnDrop(p).0.models, action.id);
    }
  }

  lemma RiseActs(p: Pool, action: Action)
    ensures action in OnRise(p).1 <==> action.Deactivate? && NextOut(p, action.id)
    ensures action in OnRise(p).1 ==>
      FL.StatusOf(FL.Registry(OnRise(p).0.models), action.id) == FL.Standby
  {
    FirstIsFirst(p.models, action.id);
    if action in OnRise(p).1 {
      FL.FirstDependsOnIds(p.models, OnRise(p).0.models, action.id);
    }
  }

  /** One observation acts exactly when it is somebody's turn, and does what it says: the member's status becomes
      active or standby. */
  lemma ActionExactly(p: Pool, action: Action)
    ensures action in Observe(p).1 <==> TurnOf(p, action)
    ensures action in Observe(p).1 ==>
      FL.StatusOf(FL.Registry(Observe(p).0.models), action.id) ==
        if action.Activate? then FL.Active else FL.Standby
  {
    UsableNowIsUsable(p);
    var p0 := p.(recovery := p.recovery.(original := Originals(p)));
    DropActs(p0, action);
    RiseActs(p0, action);
  }

  /** Some observation of the run was the action's turn. */
  predicate HadTurn(p: Pool, steps: seq<Step>, action: Action) {
    steps != [] &&
    var n := |steps| - 1;
    HadTurn(p, steps[..n], action) || (steps[n].Look? && TurnOf(After(p, steps[..n]), action))
  }

  /** Over any run each action is taken exactly if its turn came: once then, and otherwise never. In particular
      codex is taken out only if the first counted rise finds it among the members. */
  lemma {:induction false} ActionsExactly(p: Pool, steps: seq<Step>, action: Action)
    requires Fresh(p)
    ensures ActionCount(After(p, steps).recovery.log, action) == (if HadTurn(p, steps, action) then 1 else 0)
    ensures HadTurn(p, steps, action) ==> Past(After(p, steps).recovery, action)
  {
    if steps != [] {
      var n := |steps| - 1;
      ActionsExactly(p, steps[..n], action);
      var q := After(p, steps[..n]);
      if steps[n].Look? {
        ActionExactly(q, action);
        ActionsInTurn(q);
        ActionsAreLogged(q, action);
        TurnPasses(q, action);
      }
    }
  }

  /** The turn of an action is over. */
  predicate Past(r: Recovery, action: Action) {
    match action
    case Activate(id) => r.toTwo >= if id == "copilot" then 1 else 2
    case Deactivate(id) => r.toFour >= if id == "codex" then 1 else 2
  }

  lemma TurnPasses(p: Pool, action: Action)
    ensures TurnOf(p, action) ==> !Past(p.recovery, action) && Past(Observe(p).0.recovery, action)
    ensures Past(p.recovery, action) ==> Past(Observe(p).0.recovery, action)
  {
    if TurnOf(p, action) {
      ActionExactly(p, action);
      ActionsInTurn(p);
    }
  }

  /** Who is a member after an observation: whoever came in, even if it was active already, and whoever was one
      and did not go out. */
  lemma MembershipExactly(p: Pool, id: MemberId)
    requires Staged(p.recovery) && Distinct(p.recovery.members)
    ensures Distinct(Observe(p).0.recovery.members)
    ensures id in Observe(p).0.recovery.members <==>
      ComesIn(p, id) || (id in p.recovery.members && !GoesOut(p, id))
  {
    UsableNowIsUsable(p);
    var p0 := p.(recovery := p.recovery.(original := Originals(p)));
    DropMembers(p0, id);
    RiseMembers(p0, id);
  }

  lemma DropMembers(p: Pool, id: MemberId)
    requires Distinct(p.recovery.members)
    ensures Distinct(OnDrop(p).0.recovery.members)
    ensures id in OnDrop(p).0.recovery.members <==> NextIn(p, id) || id in p.recovery.members
  {
    FirstIsFirst(p.models, "copilot");
    FirstIsFirst(p.models, "codex");
  }

  lemma RiseMembers(p: Pool, id: MemberId)
    requires Distinct(p.recovery.members)
    ensures Distinct(OnRise(p).0.recovery.members)
    ensures id in OnRise(p).0.recovery.members <==> id in p.recovery.members && !NextOut(p, id)
  {
    FirstIsFirst(p.models, "copilot");
    FirstIsFirst(p.models, "codex");
    RemovedExactly(p.recovery.members, "copilot");
    RemovedExactly(p.recovery.members, "codex");
  }

  predicate Distinct(ids: seq<MemberId>) {
    forall i, j | 0 <= i < j < |ids| :: ids[i] != ids[j]
  }

  lemma {:induction false} RemovedExactly(ids: seq<MemberId>, id: MemberId)
    requires Distinct(ids)
    ensures Distinct(Removed(ids, id))
    ensures forall other :: other in Removed(ids, id) <==> other in ids && other != id
  {
    if ids != [] {
      var rest := ids[1..];
      assert Distinct(rest) && ids[0] !in rest by {
        assert forall i | 0 <= i < |rest| :: rest[i] == ids[i + 1];
      }
      assert ids == [ids[0]] + rest;
      if ids[0] != id {
        RemovedExactly(rest, id);
        assert ids[0] !in Removed(rest, id);
      }
    }
  }
}
