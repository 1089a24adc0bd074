// The shared state file of the second shift: one registry and one ledger behind one
// lock. The class is what each call does on its own; the transition system below takes
// the calls of many processes apart and puts them back in lock order.
module LockedStateFile {
  import opened Prelude

  datatype State<R, E> = State(registry: R, ledger: seq<E>)

  /** The calls on the file. A mutator that raises, or returns the wrong types, gives None. */
  datatype Op<!R, !E> =
    | Update(mutate: (R, seq<E>) -> Option<State<R, E>>)
    | SaveRegistry(registry: R)
    | Append(entry: E)
    | SaveLedger(entries: seq<E>)
    | ReadRegistry
    | ReadLedger

  datatype Answer<R, E> = GotRegistry(registry: R) | GotLedger(entries: seq<E>) | Saved | Raised

  function Apply<R, E>(op: Op<R, E>, s: State<R, E>): State<R, E> {
    match op
    case Update(mutate) =>
      var target := mutate(s.registry, s.ledger);
      if target.Some? then target.value else s
    case SaveRegistry(registry) => s.(registry := registry)
    case Append(entry) => s.(ledger := s.ledger + [entry])
    case SaveLedger(entries) => s.(ledger := entries)
    case _ => s
  }

  function AnswerTo<R, E>(op: Op<R, E>, s: State<R, E>): Answer<R, E> {
    match op
    case Update(mutate) =>
      var target := mutate(s.registry, s.ledger);
      if target.Some? then GotRegistry(target.value.registry) else Raised
    case ReadRegistry => GotRegistry(s.registry)
    case ReadLedger => GotLedger(s.ledger)
    case _ => Saved
  }

  /** What each call does and answers, on its own. */
  lemma CallExactly<R, E>(op: Op<R, E>, s: State<R, E>)
    ensures match op
      case Update(mutate) =>
        (match mutate(s.registry, s.ledger)
         case Some(made) => Apply(op, s) == made && AnswerTo(op, s) == GotRegistry(made.registry)
         case None => Apply(op, s) == s && AnswerTo(op, s) == Raised)
      case SaveRegistry(registry) => Apply(op, s) == State(registry, s.ledger) && AnswerTo(op, s) == Saved
      case Append(entry) => Apply(op, s) == State(s.registry, s.ledger + [entry]) && AnswerTo(op, s) == Saved
      case SaveLedger(entries) => Apply(op, s) == State(s.registry, entries) && AnswerTo(op, s) == Saved
      case ReadRegistry => Apply(op, s) == s && AnswerTo(op, s) == GotRegistry(s.registry)
      case ReadLedger => Apply(op, s) == s && AnswerTo(op, s) == GotLedger(s.ledger)
  {
  }

  /** The calls one after another. */
  function Run<R, E>(order: seq<Op<R, E>>, s: State<R, E>): State<R, E> {
    if order == [] then s else Apply(order[|order| - 1], Run(order[..|order| - 1], s))
  }

  class StateFile<R, E> {
    var registry: R
    var ledger: seq<E>

    function Content(): State<R, E>
      reads this
    {
      State(registry, ledger)
    }

    constructor (registry: R)
      ensures Content() == State(registry, [])
    {
      this.registry, ledger := registry, [];
    }

    /** Nothing is written when the mutator raises. */
    method UpdateState(mutate: (R, seq<E>) -> Option<State<R, E>>) returns (answer: Answer<R, E>)
      modifies this
      ensures Content() == Apply(Update(mutate), old(Content()))
      ensures match mutate(old(registry), old(ledger))
        case None => registry == old(registry) && ledger == old(ledger) && answer == Raised
        case Some(made) => registry == made.registry && ledger == made.ledger && answer == GotRegistry(made.registry)
      ensures answer == AnswerTo(Update(mutate), old(Content()))
    {
      var target := mutate(registry, ledger);
      match target {
        case None => return Raised;
        case Some(replacement) =>
          registry := replacement.registry;
          ledger := replacement.ledger;
          return GotRegistry(replacement.registry);
      }
    }

    method SaveRegistry(replacement: R)
      modifies this`registry
      ensures Content() == Apply(Op.SaveRegistry(replacement), old(Content())) && registry == replacement
    {
      registry := replacement;
    }

    method AppendLedgerEntry(entry: E)
      modifies this`ledger
      ensures Content() == Apply(Append(entry), old(Content())) && ledger == old(ledger) + [entry]
    {
      var entries := ledger;
      entries := entries + [entry];
      ledger := entries;
    }

    method SaveLedgerEntries(entries: seq<E>)
      modifies this`ledger
      ensures Content() == Apply(SaveLedger(entries), old(Content())) && ledger == entries
    {
      ledger := entries;
    }

    method ClearLedger()
      modifies this`ledger
      ensures Content() == Apply(SaveLedger([]), old(Content())) && ledger == []
    {
      ledger := [];
    }
  }

  // ---------- Many callers ----------

  type Caller = nat

  datatype Lock = Free | Exclusive(owner: Caller) | Shared(readers: set<Caller>)

  /** Where a caller stands. `at` is the position of its call in lock order. */
  datatype Pc<!R, !E> =
    | Idle
    | Locked(op: Op<R, E>, at: nat)
    | HasRegistry(op: Op<R, E>, at: nat, registry: R)
    | HasBoth(op: Op<R, E>, at: nat, registry: R, ledger: seq<E>)
    | HasLedger(op: Op<R, E>, at: nat, ledger: seq<E>)
    | ToWrite(op: Op<R, E>, at: nat, target: State<R, E>)
    | WroteRegistry(op: Op<R, E>, at: nat, target: State<R, E>)
    | Finished(op: Op<R, E>, at: nat, answer: Answer<R, E>)

  datatype Reply<R, E> = Reply(at: nat, answer: Answer<R, E>)

  /** `order` is the sequence of calls in the order they got the lock; `replies` what has been
      returned to callers so far. */
  datatype Sys<!R, !E> = Sys(
    disk: State<R, E>,
    lock: Lock,
    pcs: map<Caller, Pc<R, E>>,
    order: seq<Op<R, E>>,
    replies: seq<Reply<R, E>>)

  predicate Reads<R, E>(op: Op<R, E>) {
    op.ReadRegistry? || op.ReadLedger?
  }

  ghost predicate Initial<R, E>(s: Sys<R, E>) {
    s.lock == Free && s.order == [] && s.replies == [] && forall c | c in s.pcs :: s.pcs[c] == Idle
  }

  /** A reader joins other readers; a writer waits until the lock is free. */
  ghost predicate Acquire<R, E>(s: Sys<R, E>, c: Caller, op: Op<R, E>, s': Sys<R, E>) {
    c in s.pcs && s.pcs[c] == Idle &&
    (if Reads(op) then !s.lock.Exclusive? else s.lock.Free?) &&
    s' == s.(
      lock := if !Reads(op) then Exclusive(c) else if s.lock.Shared? then Shared(s.lock.readers + {c}) else Shared({c}),
      pcs := s.pcs[c := Locked(op, |s.order|)],
      order := s.order + [op])
  }

  /** What the next statement of a caller does to the disk, and where it stands then. */
  function Statement<R, E>(disk: State<R, E>, pc: Pc<R, E>): (r: (State<R, E>, Pc<R, E>))
    requires !pc.Idle? && !pc.Finished?
    requires (pc.HasBoth? ==> pc.op.Update?) && (pc.HasLedger? ==> pc.op.Append?)
  {
    match pc
    case Locked(Update(_), at) => (disk, HasRegistry(pc.op, at, disk.registry))
    case Locked(SaveRegistry(registry), at) => (disk.(registry := registry), Finished(pc.op, at, Saved))
    case Locked(Append(_), at) => (disk, HasLedger(pc.op, at, disk.ledger))
    case Locked(SaveLedger(entries), at) => (disk.(ledger := entries), Finished(pc.op, at, Saved))
    case Locked(ReadRegistry, at) => (disk, Finished(pc.op, at, GotRegistry(disk.registry)))
    case Locked(ReadLedger, at) => (disk, Finished(pc.op, at, GotLedger(disk.ledger)))
    case HasRegistry(op, at, registry) => (disk, HasBoth(op, at, registry, disk.ledger))
    case HasBoth(op, at, registry, ledger) =>
      var target := op.mutate(registry, ledger);
      (disk, if target.Some? then ToWrite(op, at, target.value) else Finished(op, at, Raised))
    case HasLedger(op, at, ledger) => (disk.(ledger := ledger + [op.entry]), Finished(op, at, Saved))
    case ToWrite(op, at, target) => (disk.(registry := target.registry), WroteRegistry(op, at, target))
    case WroteRegistry(op, at, target) =>
      (disk.(ledger := target.ledger), Finished(op, at, GotRegistry(target.registry)))
  }

  ghost predicate Advance<R, E>(s: Sys<R, E>, c: Caller, s': Sys<R, E>) {
    c in s.pcs && !s.pcs[c].Idle? && !s.pcs[c].Finished? &&
    (s.pcs[c].HasBoth? ==> s.pcs[c].op.Update?) && (s.pcs[c].HasLedger? ==> s.pcs[c].op.Append?) &&
    var (disk, pc) := Statement(s.disk, s.pcs[c]);
    s' == s.(disk := disk, pcs := s.pcs[c := pc])
  }

  ghost predicate Release<R, E>(s: Sys<R, E>, c: Caller, s': Sys<R, E>) {
    c in s.pcs && s.pcs[c].Finished? &&
    s' == s.(
      lock := if s.lock.Shared? && s.lock.readers != {c} then Shared(s.lock.readers - {c}) else Free,
      pcs := s.pcs[c := Idle],
      replies := s.replies + [Reply(s.pcs[c].at, s.pcs[c].answer)])
  }

  ghost predicate Moves<R(!new), E(!new)>(s: Sys<R, E>, c: Caller, s': Sys<R, E>) {
    (exists op :: Acquire(s, c, op, s')) || Advance(s, c, s') || Release(s, c, s')
  }

  ghost predicate Next<R(!new), E(!new)>(s: Sys<R, E>, s': Sys<R, E>) {
    exists c: Caller :: Moves(s, c, s')
  }

  // ---------- The invariant ----------

  predicate LockAgrees<R, E>(s: Sys<R, E>, c: Caller)
    requires c in s.pcs
  {
    if s.pcs[c].Idle? then s.lock != Exclusive(c) && !(s.lock.Shared? && c in s.lock.readers)
    else if Reads(s.pcs[c].op) then s.lock.Shared? && c in s.lock.readers
    else s.lock == Exclusive(c)
  }

  /** A caller past its lock has read, and is about to leave behind, just what its call does to the
      outcome of the calls before it. */
  ghost predicate OnCourse<R, E>(s: Sys<R, E>, c: Caller, init: State<R, E>)
    requires c in s.pcs
  {
    var pc := s.pcs[c];
    pc.Idle? || (
      pc.at < |s.order| && s.order[pc.at] == pc.op &&
      var base := Run(s.order[..pc.at], init);
      if Reads(pc.op) then
        s.disk == base && (pc.Locked? || (pc.Finished? && pc.answer == AnswerTo(pc.op, base)))
      else
        pc.at == |s.order| - 1 &&
        match pc
        case Locked(_, _) => s.disk == base
        case HasRegistry(op, _, registry) => op.Update? && s.disk == base && registry == base.registry
        case HasBoth(op, _, registry, ledger) => op.Update? && s.disk == base && State(registry, ledger) == base
        case HasLedger(op, _, ledger) => op.Append? && s.disk == base && ledger == base.ledger
        case ToWrite(op, _, target) =>
          op.Update? && s.disk == base && op.mutate(base.registry, base.ledger) == Some(target)
        case WroteRegistry(op, _, target) =>
          op.Update? && s.disk == base.(registry := target.registry) &&
          op.mutate(base.registry, base.ledger) == Some(target)
        case Finished(op, _, answer) => s.disk == Apply(op, base) && answer == AnswerTo(op, base))
  }

  ghost predicate Answered<R, E>(order: seq<Op<R, E>>, reply: Reply<R, E>, init: State<R, E>) {
    reply.at < |order| && reply.answer == AnswerTo(order[reply.at], Run(order[..reply.at], init))
  }

  ghost predicate Linear<R, E>(s: Sys<R, E>, init: State<R, E>) {
    (s.lock.Exclusive? ==> s.lock.owner in s.pcs && !s.pcs[s.lock.owner].Idle?) &&
    (s.lock.Shared? ==> s.lock.readers != {} && s.lock.readers <= s.pcs.Keys) &&
    (!s.lock.Exclusive? ==> s.disk == Run(s.order, init)) &&
    (forall c | c in s.pcs :: LockAgrees(s, c) && OnCourse(s, c, init)) &&
    (forall i | 0 <= i < |s.replies| :: Answered(s.order, s.replies[i], init))
  }

  lemma AcquireKeepsLinear<R, E>(s: Sys<R, E>, c: Caller, op: Op<R, E>, s': Sys<R, E>, init: State<R, E>)
    requires Linear(s, init) && Acquire(s, c, op, s')
    ensures Linear(s', init)
  {
    DropAppended(s.order, op);
    forall k: nat | k < |s.order| ensures s'.order[..k] == s.order[..k] {
    }
    assert s'.order[..|s.order|] == s.order;
    forall d | d in s'.pcs ensures LockAgrees(s', d) && OnCourse(s', d, init) {
      assert LockAgrees(s, d) && OnCourse(s, d, init);
    }
    forall i | 0 <= i < |s'.replies| ensures Answered(s'.order, s'.replies[i], init) {
      assert Answered(s.order, s.replies[i], init);
    }
  }

  lemma AdvanceKeepsLinear<R, E>(s: Sys<R, E>, c: Caller, s': Sys<R, E>, init: State<R, E>)
    requires Linear(s, init) && Advance(s, c, s')
    ensures Linear(s', init)
  {
    assert LockAgrees(s, c) && OnCourse(s, c, init);
    forall d | d in s'.pcs ensures LockAgrees(s', d) && OnCourse(s', d, init) {
      assert LockAgrees(s, d) && OnCourse(s, d, init);
    }
  }

  lemma ReleaseKeepsLinear<R, E>(s: Sys<R, E>, c: Caller, s': Sys<R, E>, init: State<R, E>)
    requires Linear(s, init) && Release(s, c, s')
    ensures Linear(s', init)
  {
    assert LockAgrees(s, c) && OnCourse(s, c, init);
    forall d | d in s'.pcs ensures LockAgrees(s', d) && OnCourse(s', d, init) {
      assert LockAgrees(s, d) && OnCourse(s, d, init);
    }
    assert s.order[..|s.order| - 1] + [s.order[|s.order| - 1]] == s.order;
  }

  ghost predicate Execution<R(!new), E(!new)>(states: seq<Sys<R, E>>) {
    states != [] && Initial(states[0]) && forall i | 0 <= i < |states| - 1 :: Next(states[i], states[i + 1])
  }

  lemma {:induction false} ExecutionsAreLinear<R(!new), E(!new)>(states: seq<Sys<R, E>>)
    requires Execution(states)
    ensures Linear(states[|states| - 1], states[0].disk)
  {
    var n := |states| - 1;
    if n > 0 {
      ExecutionsAreLinear(states[..n]);
      var s, s' := states[n - 1], states[n];
      var init := states[0].disk;
      assert Next(s, s');
      var c: Caller :| Moves(s, c, s');
      if op :| Acquire(s, c, op, s') {
        AcquireKeepsLinear(s, c, op, s', init);
      } else if Advance(s, c, s') {
        AdvanceKeepsLinear(s, c, s', init);
      } else {
        ReleaseKeepsLinear(s, c, s', init);
      }
    }
  }

  /** Whatever the interleaving: between calls the files hold what running the calls in lock order
      leaves, and every caller was answered as it would have been there. */
  lemma NoLostUpdates<R(!new), E(!new)>(states: seq<Sys<R, E>>)
    requires Execution(states)
    ensures var last := states[|states| - 1];
      (!last.lock.Exclusive? ==> last.disk == Run(last.order, states[0].disk)) &&
      forall i | 0 <= i < |last.replies| :: Answered(last.order, last.replies[i], states[0].disk)
  {
    ExecutionsAreLinear(states);
  }

  /** A call that never drops or rewrites an entry: its mutator extends the ledger it is given. */
  ghost predicate Extends<R(!new), E(!new)>(op: Op<R, E>) {
    !op.SaveLedger? &&
    (op.Update? ==>
      forall r, l :: op.mutate(r, l).Some? ==>
        |l| <= |op.mutate(r, l).value.ledger| && op.mutate(r, l).value.ledger[..|l|] == l)
  }

  /** What a call adds to the ledger it finds. */
  function Added<R, E>(op: Op<R, E>, s: State<R, E>): seq<E> {
    var after := Apply(op, s).ledger;
    if |after| >= |s.ledger| then after[|s.ledger|..] else []
  }

  lemma AddedAfter<R(!new), E(!new)>(op: Op<R, E>, s: State<R, E>)
    requires Extends(op)
    ensures Apply(op, s).ledger == s.ledger + Added(op, s)
  {
  }

  /** What the calls of a run add, in lock order. */
  function Additions<R, E>(order: seq<Op<R, E>>, s: State<R, E>): seq<E> {
    if order == [] then []
    else
      var before := order[..|order| - 1];
      Additions(before, s) + Added(order[|order| - 1], Run(before, s))
  }

  ghost predicate AllExtend<R(!new), E(!new)>(order: seq<Op<R, E>>) {
    order == [] || (AllExtend(order[..|order| - 1]) && Extends(order[|order| - 1]))
  }

  /** Without ledger overwrites nothing that a transaction or a single append adds is lost: the ledger
      is what it was, followed by what each call added, in lock order. */
  lemma {:induction false} LedgerOnlyGrows<R(!new), E(!new)>(order: seq<Op<R, E>>, s: State<R, E>)
    requires AllExtend(order)
    ensures Run(order, s).ledger == s.ledger + Additions(order, s)
  {
    if order != [] {
      var n := |order| - 1;
      var before := Run(order[..n], s);
      LedgerOnlyGrows(order[..n], s);
      AddedAfter(order[n], before);
      assert Run(order, s) == Apply(order[n], before);
      assert Additions(order, s) == Additions(order[..n], s) + Added(order[n], before);
      Associate(s.ledger, Additions(order[..n], s), Added(order[n], before));
    }
  }

  lemma Associate<E>(xs: seq<E>, ys: seq<E>, zs: seq<E>)
    ensures (xs + ys) + zs == xs + (ys + zs)
  {
  }
}
