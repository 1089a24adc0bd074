// The backlog execution adapter over its durable queue: one item at a time is claimed,
// executed, tested, reviewed, finally verified and settled, with every gate resumable.
module BacklogExecution {
  import opened Prelude
  import opened Machines
  import opened Classifications
  import opened EscalationPolicy
  import opened CodingDispatcher
  import opened BacklogRules

  class BacklogAdapter {
    const machine: Machine
    const order: seq<IssueId>
    const flow: Flow
    ghost const initial: map<IssueId, Status>
    var status: map<IssueId, Status>
    var records: map<IssueId, Record>
    var ledger: seq<Entry>
    ghost var log: seq<Observation>
    ghost var times: seq<nat>
    ghost var claims: seq<IssueId>
    ghost var focus: Option<IssueId>
    ghost var view: IssueId -> View
    ghost var closed: map<IssueId, View>

    function RecordOf(id: IssueId): Record
      reads this`records
    {
      RecordAt(records, id)
    }

    ghost function Now(): State
      reads this
    {
      State(status, records, ledger, log, claims)
    }

    /** How an item stands. The views are kept beside the state they are views of. */
    ghost function ViewOf(id: IssueId): View
      reads this`view
    {
      view(id)
    }

    ghost predicate Mirrored()
      reads this
    {
      (forall id {:trigger Shown(Now(), id)} :: ViewOf(id) == Shown(Now(), id)) &&
      (forall id {:trigger ViewOf(id)} ::
         ViewOf(id).status == StatusAt(status, id) && ViewOf(id).record == RecordOf(id) &&
         (ViewOf(id).claimed <==> id in claims))
    }

    ghost method Refresh()
      modifies this`view
      ensures Mirrored() && forall id :: ViewOf(id) == Shown(Now(), id)
    {
      var s := Now();
      view := (id: IssueId) => Shown(s, id);
    }

    ghost predicate Fine(id: IssueId)
      reads this
    {
      SoundView(ViewOf(id)) && (Hot(ViewOf(id)) ==> focus == Some(id)) &&
      (id !in claims ==> StatusAt(status, id) == StatusAt(initial, id)) && (id in claims ==> id in order) &&
      (id in closed ==> Closed(closed[id]) && ViewOf(id) == closed[id])
    }

    /** Every entry was earned when it was written; `times` says after how many answers that was. */
    ghost predicate Earned()
      reads this`ledger, this`times, this`log
    {
      |times| == |ledger| && (forall i :: 0 <= i < |ledger| ==> EarnedAt(ledger[i], log, times[i])) &&
      forall i, j :: 0 <= i <= j < |times| ==> times[i] <= times[j]
    }

    /** Holds at every durable write, whatever crashes or raises. `focus` is the item claimed last. */
    ghost predicate Inv()
      reads this
    {
      Distinct(order) && status.Keys == (set id | id in order) && Mirrored() && Earned() &&
      (forall id :: Fine(id)) &&
      (focus.Some? ==> NoneQueuedBefore(order, status, focus.value))
    }

    twostate predicate OthersKept(id: IssueId)
      reads this
    {
      forall other :: other != id ==> ViewOf(other) == old(ViewOf(other))
    }

    constructor (machine: Machine, order: seq<IssueId>, status: map<IssueId, Status>, flow: Flow)
      requires Distinct(order) && status.Keys == (set id | id in order)
      requires forall id | id in order :: status[id] != InProgress
      ensures Inv() && this.machine == machine && this.order == order && this.status == status
      ensures initial == status && claims == []
    {
      this.machine, this.order, this.status, this.flow := machine, order, status, flow;
      initial := status;
      records, ledger, times, log, claims, focus := map[], [], [], [], [], None;
      view := (id: IssueId) => Shown(State(status, map[], [], [], []), id);
      closed := map[];
    }

    /** A change to the item in focus only has to be right for that item. */
    twostate lemma OneItem(id: IssueId)
      requires old(Inv()) && focus == old(focus) == Some(id) && claims == old(claims) && closed == old(closed)
      requires status.Keys == old(status).Keys
      requires forall other | other in status && other != id :: status[other] == old(status)[other]
      requires OthersKept(id) && Fine(id) && Mirrored() && Earned()
      ensures Inv()
    {
      forall other ensures Fine(other) {
        if other != id {
          assert old(Fine(other));
          assert ViewOf(other) == old(ViewOf(other));
          assert StatusAt(status, other) == StatusAt(old(status), other);
        }
      }
      forall i, j | 0 <= i < j < |order| && order[j] == id ensures StatusAt(status, order[i]) != Queued {
        assert StatusAt(old(status), order[i]) != Queued;
      }
    }

    /** The item is the one in focus, has been claimed and is not over. */
    ghost predicate Active(id: IssueId)
      reads this
    {
      focus == Some(id) && id in claims && id !in closed
    }

    // ---------- Oracles and durable writes ----------

    /** An oracle's answer counts only if the process is still alive to hear it. */
    ghost method Hear(o: Observation)
      requires Inv()
      requires machine.on ==> Active(o.id) && SoundView(Heard(ViewOf(o.id), o))
      modifies this`view, this`log
      ensures Inv() && OthersKept(o.id)
      ensures ViewOf(o.id) == if machine.on then Heard(old(ViewOf(o.id)), o) else old(ViewOf(o.id))
      ensures log == if machine.on then old(log) + [o] else old(log)
    {
      if machine.on {
        assert Fine(o.id);
        AppendAnswer(o);
        OneItem(o.id);
      }
    }

    ghost method AppendAnswer(o: Observation)
      requires Mirrored() && Earned()
      modifies this`view, this`log
      ensures Mirrored() && Earned() && OthersKept(o.id)
      ensures ViewOf(o.id) == Heard(old(ViewOf(o.id)), o) && log == old(log) + [o]
    {
      forall i | 0 <= i < |times| ensures EarnedAt(ledger[i], log + [o], times[i]) {
        assert (log + [o])[..times[i]] == log[..times[i]];
      }
      AnswerShown(Now(), o);
      var was := Now();
      assert forall other :: ViewOf(other) == Shown(was, other);
      log := log + [o];
      Refresh();
    }

    /** transition_item_state: the caller's snapshot of all items is written back with one status changed. */
    method SetStatus(snapshot: map<IssueId, Status>, id: IssueId, s: Status) returns (raised: bool)
      requires Inv()
      requires machine.on ==>
        snapshot == status && Active(id) && SoundView(ViewOf(id).(status := s))
      modifies this`view, this`status, machine
      ensures Inv() && OthersKept(id) && machine.Runs()
      ensures ViewOf(id) == old(ViewOf(id)) || ViewOf(id) == old(ViewOf(id)).(status := s)
      ensures machine.on && !raised ==> ViewOf(id) == old(ViewOf(id)).(status := s)
      ensures raised ==> machine.faults > old(machine.faults)
    {
      raised := machine.Fails();
      if raised {
        return;
      }
      machine.Spend();
      if machine.on {
        assert Fine(id);
        WriteStatus(snapshot, id, s);
        OneItem(id);
      }
      raised := machine.Fails();
    }

    method Checkpoint(id: IssueId, record: Record) returns (raised: bool)
      requires Inv()
      requires machine.on ==> Active(id) && SoundView(ViewOf(id).(record := record))
      modifies this`view, this`records, machine
      ensures Inv() && OthersKept(id) && machine.Runs()
      ensures ViewOf(id) == old(ViewOf(id)) || ViewOf(id) == old(ViewOf(id)).(record := record)
      ensures machine.on && !raised ==> ViewOf(id) == old(ViewOf(id)).(record := record)
      ensures raised ==> machine.faults > old(machine.faults)
    {
      raised := machine.Fails();
      if raised {
        return;
      }
      machine.Spend();
      if machine.on {
        assert Fine(id);
        WriteRecord(id, record);
        OneItem(id);
      }
      raised := machine.Fails();
    }

    /** The dispatcher's record_attempt_result; it may refuse, and the broker beside it may raise. */
    method RecordAttempt(q: Request) returns (raised: bool)
      requires Inv()
      requires machine.on ==> Active(q.goal) && Deserved(ViewOf(q.goal).gates, EntryFor(ledger, q))
      modifies this`view, this`ledger, this`times, machine
      ensures Inv() && OthersKept(q.goal) && machine.Runs()
      ensures ViewOf(q.goal) == old(ViewOf(q.goal)) ||
        ViewOf(q.goal) == Entered(old(ViewOf(q.goal)), EntryFor(old(ledger), q), q.goal)
      ensures machine.on && !raised ==>
        ViewOf(q.goal) == Entered(old(ViewOf(q.goal)), EntryFor(old(ledger), q), q.goal)
      ensures ledger == old(ledger) || ledger == old(ledger) + [EntryFor(old(ledger), q)]
      ensures machine.on && !raised ==> ledger == old(ledger) + [EntryFor(old(ledger), q)]
      ensures raised ==> machine.faults > old(machine.faults) || Inadmissible(q)
    {
      raised := machine.Fails();
      if raised || Inadmissible(q) {
        return true;
      }
      machine.Spend();
      if machine.on {
        assert Fine(q.goal);
        AppendEntry(EntryFor(ledger, q), q.goal);
        OneItem(q.goal);
      }
      raised := machine.Fails();
    }

    method WriteStatus(snapshot: map<IssueId, Status>, id: IssueId, s: Status)
      requires Mirrored() && snapshot == status
      modifies this`view, this`status
      ensures Mirrored() && OthersKept(id) && ViewOf(id) == old(ViewOf(id)).(status := s)
      ensures status == old(status)[id := s]
    {
      StatusShown(Now(), id, s);
      ghost var was := Now();
      assert forall other :: ViewOf(other) == Shown(was, other);
      status := snapshot[id := s];
      Refresh();
    }

    method WriteRecord(id: IssueId, record: Record)
      requires Mirrored()
      modifies this`view, this`records
      ensures Mirrored() && OthersKept(id) && ViewOf(id) == old(ViewOf(id)).(record := record)
    {
      RecordShown(Now(), id, record);
      ghost var was := Now();
      assert forall other :: ViewOf(other) == Shown(was, other);
      records := records[id := record];
      Refresh();
    }

    method WriteClaim(id: IssueId)
      requires Mirrored()
      modifies this`view, this`status, this`claims, this`focus
      ensures Mirrored() && OthersKept(id) && ViewOf(id) == old(ViewOf(id)).(status := InProgress, claimed := true)
      ensures status == old(status)[id := InProgress] && claims == old(claims) + [id] && focus == Some(id)
    {
      ClaimShown(Now(), id, InProgress);
      ghost var was := Now();
      assert forall other :: ViewOf(other) == Shown(was, other);
      status := status[id := InProgress];
      claims := claims + [id];
      focus := Some(id);
      Refresh();
    }

    method AppendEntry(e: Entry, id: IssueId)
      requires e.goal == id && Mirrored() && Earned() && Deserved(ViewOf(id).gates, e)
      modifies this`view, this`ledger, this`times
      ensures Mirrored() && Earned() && OthersKept(id) && ViewOf(id) == Entered(old(ViewOf(id)), e, id)
      ensures ledger == old(ledger) + [e]
    {
      assert log[..|log|] == log && ViewOf(id) == Shown(Now(), id);
      EntryShown(Now(), e);
      ghost var was := Now();
      assert forall other :: ViewOf(other) == Shown(was, other);
      ledger, times := ledger + [e], times + [|log|];
      Refresh();
    }

    // ---------- The end of an attempt ----------

    /** The queue's status first, then the phase: in between a pending gate stays pending. */
    method Close(snapshot: map<IssueId, Status>, id: IssueId, s: Status, phase: Phase) returns (raised: bool)
      requires Inv() && s in {Completed, Queued, Blocked} && !Pending(phase)
      requires machine.on ==> snapshot == status && Active(id)
      requires machine.on && s == Completed ==>
        ViewOf(id).passedOnce && ViewOf(id).proven && RecordOf(id).phase != ReviewPending
      modifies this`view, this`status, this`records, machine
      ensures Inv() && machine.Runs()
      ensures machine.on && !raised ==> ViewOf(id).status == s && RecordOf(id).phase == phase
      ensures raised ==> machine.faults > old(machine.faults)
    {
      ghost var v := ViewOf(id);
      if machine.on {
        assert Fine(id);
        ClosingIsSound(v, s, phase);
      }
      raised := SetStatus(snapshot, id, s);
      if raised {
        return;
      }
      raised := Checkpoint(id, RecordOf(id).(phase := phase));
    }

    method Settle(snapshot: map<IssueId, Status>, id: IssueId, s: Status) returns (raised: bool)
      requires Inv() && s in {Completed, Queued, Blocked}
      requires machine.on ==> snapshot == status && Active(id)
      requires machine.on && s == Completed ==>
        ViewOf(id).passedOnce && ViewOf(id).proven && RecordOf(id).phase != ReviewPending
      modifies this`view, this`status, this`records, machine
      ensures Inv() && machine.Runs()
      ensures machine.on && !raised ==> SettledAs(ViewOf(id), s)
      ensures raised ==> machine.faults > old(machine.faults)
    {
      raised := Close(snapshot, id, s, PhaseFor(s));
    }

    /** The dispatcher's record of a final verification, and the settlement it leads to. */
    method FinishVerification(snapshot: map<IssueId, Status>, id: IssueId, passed: bool) returns (raised: bool)
      requires Inv()
      requires machine.on ==> snapshot == status && Active(id) && ViewOf(id).succeeded
      requires machine.on && passed ==>
        ViewOf(id).passedOnce && ViewOf(id).gates == ALL_PASSED && RecordOf(id).phase != ReviewPending
      modifies this`view, this`status, this`records, this`ledger, this`times, machine
      ensures Inv() && machine.Runs()
      ensures machine.on && !raised ==> VerifiedAs(ViewOf(id), passed)
      ensures machine.on && !raised ==>
        |ledger| == |old(ledger)| + 1 && ledger[..|old(ledger)|] == old(ledger) &&
        FinalAs(ledger[|old(ledger)|], id, passed)
      ensures raised ==> machine.faults > old(machine.faults)
    {
      var f: Findings := *;
      RequestsEnterAsMeant(ledger, id, "", Success, f, "", passed, flow);
      raised := RecordAttempt(FinalRequest(id, passed, f, flow));
      if raised {
        return;
      }
      var nextHasExecutor: bool := *;
      raised := Settle(snapshot, id, if passed then Completed else if nextHasExecutor then Queued else Blocked);
    }

    /** The final verifier; an exception inside a resumed gate counts as unavailable. */
    method AskFinal(id: IssueId) returns (verdict: Verdict)
      requires Inv()
      requires machine.on ==> Active(id)
      modifies this`view, this`log
      ensures Inv() && |log| >= |old(log)|
      ensures machine.on ==> ViewOf(id) == Heard(old(ViewOf(id)), FinallyVerified(id, verdict.Passed?))
      ensures machine.on ==> log == old(log) + [FinallyVerified(id, verdict.Passed?)]
    {
      verdict := *;
      assert Fine(id);
      Hear(FinallyVerified(id, verdict.Passed?));
    }

    method AskReview(id: IssueId) returns (verdict: Verdict)
      requires Inv()
      requires machine.on ==> Active(id) && RecordOf(id).phase != FinalPending
      modifies this`view, this`log
      ensures Inv() && |log| >= |old(log)|
      ensures machine.on ==> ViewOf(id) == Heard(old(ViewOf(id)), Reviewed(id, verdict.Passed?))
      ensures machine.on ==> log == old(log) + [Reviewed(id, verdict.Passed?)]
    {
      verdict := *;
      assert Fine(id);
      Hear(Reviewed(id, verdict.Passed?));
    }

    // ---------- Resuming a pending gate ----------

    method ResumeFinalVerificationPending(id: IssueId) returns (raised: bool, final: Verdict)
      requires Inv()
      requires machine.on ==> Active(id) && RecordOf(id).phase == FinalPending
      modifies this`view, this`status, this`records, this`ledger, this`times, this`log, machine
      ensures Inv() && machine.Runs()
      ensures machine.on ==> log == old(log) + [FinallyVerified(id, final.Passed?)]
      ensures machine.on && !raised ==>
        if Decisive(final) then VerifiedAs(ViewOf(id), final.Passed?)
        else ViewOf(id).status == old(ViewOf(id)).status && RecordOf(id) == old(RecordOf(id))
      ensures raised ==> machine.faults > old(machine.faults)
      ensures machine.on && !raised ==> VerificationBooked(old(ledger), ledger, id, final)
    {
      var snapshot, record := status, RecordOf(id);
      raised := false;
      assert Fine(id);
      final := AskFinal(id);
      assert Fine(id);
      raised := Checkpoint(id, record);
      if raised {
        return;
      }
      if !Decisive(final) {
        raised := Checkpoint(id, record);
        return;
      }
      raised := FinishVerification(snapshot, id, final.Passed?);
    }

    method ResumeReviewPending(id: IssueId, model: ModelId) returns (raised: bool, review: Verdict, final: Verdict)
      requires Inv()
      requires machine.on ==> Active(id) && RecordOf(id).phase == ReviewPending
      modifies this`view, this`status, this`records, this`ledger, this`times, this`log, machine
      ensures Inv() && machine.Runs()
      ensures machine.on ==> |log| > |old(log)|
      ensures machine.on && !raised ==> ReviewedAs(old(ViewOf(id)), review, final, ViewOf(id))
      ensures machine.on && !raised ==>
        BookedAs(old(ledger), ledger, id, model, GOOD_ANSWER, false, true, review, final)
    {
      var snapshot, record := status, RecordOf(id);
      final := Unavailable;
      review := AskReview(id);
      assert Fine(id);
      record := record.(review := review.Passed?);
      raised := Checkpoint(id, record);
      if raised {
        return;
      }
      if review.Unavailable? {
        raised := Checkpoint(id, record);
        return;
      }
      raised, final := ConcludeReview(snapshot, id, model, record, review);
    }

    method ConcludeReview(snapshot: map<IssueId, Status>, id: IssueId, model: ModelId, record: Record, review: Verdict)
      returns (raised: bool, final: Verdict)
      requires Inv() && !review.Unavailable?
      requires machine.on ==>
        snapshot == status && Active(id) && RecordOf(id) == record && record.phase == ReviewPending &&
        record.review == ViewOf(id).gates.review == review.Passed?
      modifies this`view, this`status, this`records, this`ledger, this`times, this`log, machine
      ensures Inv() && machine.Runs() && |log| >= |old(log)|
      ensures machine.on && !raised ==> ReviewedAs(old(ViewOf(id)), review, final, ViewOf(id))
      ensures machine.on && !raised ==>
        BookedAs(old(ledger), ledger, id, model, GOOD_ANSWER, false, true, review, final)
    {
      final := Unavailable;
      ghost var was := ledger;
      ghost var mid := ledger;
      if review.Passed? {
        assert Fine(id);
        raised := RecordCandidate(id, model, Success, true);
        if raised {
          return;
        }
        mid := ledger;
        raised, final := ConcludePassedReview(snapshot, id, record);
      } else {
        raised := ConcludeFailure(snapshot, id, model, KindOf(review));
        mid := ledger;
      }
      if machine.on && !raised {
        CandidateBooked(was, mid, ledger, id, model, GOOD_ANSWER, false, true, review, final);
      }
    }

    method ConcludePassedReview(snapshot: map<IssueId, Status>, id: IssueId, record: Record)
      returns (raised: bool, final: Verdict)
      requires Inv()
      requires machine.on ==>
        snapshot == status && Active(id) && RecordOf(id) == record && record.phase == ReviewPending &&
        record.review && ViewOf(id).gates.review && ViewOf(id).succeeded
      modifies this`view, this`status, this`records, this`ledger, this`times, this`log, machine
      ensures Inv() && machine.Runs() && |log| >= |old(log)|
      ensures machine.on && !raised ==> ReviewedAs(old(ViewOf(id)), Passed, final, ViewOf(id))
      ensures machine.on && !raised ==> VerificationBooked(old(ledger), ledger, id, final)
    {
      final := Unavailable;
      assert Fine(id);
      raised := Checkpoint(id, record.(phase := FinalPending));
      if raised {
        return;
      }
      raised, final := VerifyReviewed(snapshot, id);
    }

    /** The final verification after a resumed review. Its result is checkpointed under a phase that
        is not resumable until the outcome is known. */
    method VerifyReviewed(snapshot: map<IssueId, Status>, id: IssueId) returns (raised: bool, final: Verdict)
      requires Inv()
      requires machine.on ==> snapshot == status && Active(id) && RecordOf(id).phase == FinalPending
      modifies this`view, this`status, this`records, this`ledger, this`times, this`log, machine
      ensures Inv() && machine.Runs() && |log| >= |old(log)|
      ensures machine.on && !raised ==>
        if Decisive(final) then VerifiedAs(ViewOf(id), final.Passed?)
        else ViewOf(id).status == old(ViewOf(id)).status && RecordOf(id) == old(RecordOf(id))
      ensures machine.on && !raised ==> VerificationBooked(old(ledger), ledger, id, final)
    {
      var record := RecordOf(id);
      raised := false;
      assert Fine(id);
      final := AskFinal(id);
      assert Fine(id);
      raised := Checkpoint(id, record.(phase := FinalVerificationComplete));
      if raised {
        return;
      }
      if !Decisive(final) {
        raised := Checkpoint(id, record);
        return;
      }
      raised := FinishVerification(snapshot, id, final.Passed?);
    }

    method RecordCandidate(id: IssueId, model: ModelId, c: Classification, good: bool) returns (raised: bool)
      requires Inv()
      requires machine.on ==>
        Active(id) &&
        (good ==> ViewOf(id).gates.worker && ViewOf(id).gates.tests && ViewOf(id).gates.review)
      modifies this`view, this`ledger, this`times, machine
      ensures Inv() && machine.Runs()
      ensures ViewOf(id) == old(ViewOf(id)) || ViewOf(id) == old(ViewOf(id)).(succeeded := true)
      ensures machine.on && !raised && c.Success? && good ==> ViewOf(id).succeeded
      ensures ledger == old(ledger) || Appended(old(ledger), ledger, id, model, c, good)
      ensures machine.on && !raised ==> Appended(old(ledger), ledger, id, model, c, good)
    {
      var f: Findings := *;
      var reviewer: string := *;
      RequestsEnterAsMeant(ledger, id, model, c, f, reviewer, good, flow);
      raised := RecordAttempt(CandidateRequest(id, model, c, f, reviewer, good, flow));
    }

    // ---------- A fresh attempt ----------

    method SelectNextItem(snapshot: map<IssueId, Status>) returns (item: Option<IssueId>)
      requires Distinct(order) && forall id | id in order :: id in snapshot
      ensures item.Some? ==> IsNext(order, snapshot, item.value)
      ensures item.None? ==>
        (exists id :: id in order && snapshot[id] == InProgress) || forall id | id in order :: snapshot[id] != Queued
    {
      var i := 0;
      while i < |order|
        invariant 0 <= i <= |order|
        invariant forall j | 0 <= j < i :: snapshot[order[j]] != InProgress
      {
        if snapshot[order[i]] == InProgress {
          return None;
        }
        i := i + 1;
      }
      i := 0;
      while i < |order|
        invariant 0 <= i <= |order|
        invariant forall j | 0 <= j < i :: snapshot[order[j]] != Queued
      {
        if snapshot[order[i]] == Queued {
          return Some(order[i]);
        }
        i := i + 1;
      }
      return None;
    }

    /** At most one item is claimed, the first queued one, and only while no other item is hot. */
    twostate predicate ClaimedInTurn()
      reads this
    {
      claims == old(claims) ||
      exists id :: IsNext(order, old(status), id) && claims == old(claims) + [id] &&
        forall other :: other != id ==> !Hot(old(ViewOf(other)))
    }

    method ClaimNextItem() returns (raised: bool, item: Option<IssueId>)
      requires Inv()
      requires machine.on ==> !HasPending()
      modifies this`view, this`status, this`claims, this`focus, machine
      ensures Inv() && ClaimedInTurn() && machine.Runs()
      ensures machine.on && !raised && item.Some? ==>
        Active(item.value) && ViewOf(item.value).status == InProgress && !Pending(RecordOf(item.value).phase) &&
        claims == old(claims) + [item.value]
      ensures machine.on && !raised && item.None? ==>
        claims == old(claims) && status == old(status) && !Claimable(order, status)
      ensures raised ==> machine.faults > old(machine.faults)
    {
      item := None;
      raised := machine.Fails();
      if raised {
        return;
      }
      item := SelectNextItem(status);
      machine.Spend();
      if machine.on && item.Some? {
        OthersAreCold(item.value);
        assert forall other :: ViewOf(other) == old(ViewOf(other));
        TakeItem(item.value);
        assert IsNext(order, old(status), item.value) && claims == old(claims) + [item.value];
        assert ViewOf(item.value).status == InProgress;
      }
      raised := machine.Fails();
    }

    /** Whatever is hot is in focus, and nothing before it is queued: it is the next item itself. */
    lemma HotIsNext(id: IssueId, other: IssueId)
      requires Inv() && IsNext(order, status, id) && Hot(ViewOf(other)) && !Pending(RecordOf(other).phase)
      ensures other == id
    {
      assert Fine(other);
      assert StatusAt(status, other) == Queued && NoneQueuedBefore(order, status, other);
    }

    lemma OthersAreCold(id: IssueId)
      requires Inv() && IsNext(order, status, id)
      requires !HasPending()
      ensures forall other :: other != id ==> !Hot(ViewOf(other))
    {
      forall other | Hot(ViewOf(other)) ensures other == id {
        HotIsNext(id, other);
      }
    }

    method TakeItem(id: IssueId)
      requires Inv() && IsNext(order, status, id) && forall other :: other != id ==> !Hot(ViewOf(other))
      modifies this`view, this`status, this`claims, this`focus
      ensures Inv() && Active(id) && status == old(status)[id := InProgress] && claims == old(claims) + [id]
    {
      ghost var was := status;
      assert Fine(id) && ViewOf(id).status == Queued;
      WriteClaim(id);
      forall other ensures Fine(other) {
        assert old(Fine(other)) && StatusAt(status, other) == if other == id then InProgress else StatusAt(was, other);
      }
      forall i, j | 0 <= i < j < |order| && order[j] == id ensures StatusAt(status, order[i]) != Queued {
        assert StatusAt(was, order[i]) != Queued;
      }
    }

    /** A success without changed files does not count as one. */
    method RunWorker(id: IssueId) returns (raised: bool, answer: WorkerAnswer)
      requires Inv()
      requires machine.on ==> Active(id) && !Pending(RecordOf(id).phase)
      modifies this`view, this`records, this`log, machine
      ensures Inv() && machine.Runs()
      ensures machine.on && !raised ==>
        RecordOf(id) == old(RecordOf(id)).(phase := WorkerComplete, worker := answer.success && answer.changed) &&
        ViewOf(id).gates == Gates(answer.success && answer.changed, false, false, false)
      ensures machine.on && !raised ==> log == old(log) + [WorkerRan(id, answer.success && answer.changed)]
    {
      answer := *;
      var workerOk := answer.success && answer.changed;
      var begun := RecordOf(id).(phase := Executing);
      var complete := begun.(phase := WorkerComplete, worker := workerOk);
      if machine.on {
        assert Fine(id);
        WorkingIsSound(ViewOf(id), begun, WorkerRan(id, workerOk), complete);
      }
      raised := Checkpoint(id, begun);
      if raised {
        return;
      }
      raised := *;
      if raised {
        return;
      }
      Hear(WorkerRan(id, workerOk));
      raised := Checkpoint(id, complete);
    }

    /** No tests are run for a worker that did not succeed. */
    method RunTests(id: IssueId, workerOk: bool) returns (raised: bool, testsOk: bool)
      requires Inv()
      requires machine.on ==>
        Active(id) && !Pending(RecordOf(id).phase) && ViewOf(id).gates == Gates(workerOk, false, false, false)
      modifies this`view, this`records, this`log, machine
      ensures Inv() && machine.Runs()
      ensures machine.on && !raised ==>
        RecordOf(id) == old(RecordOf(id)).(phase := TestsComplete, tests := testsOk) &&
        ViewOf(id).gates == Gates(workerOk, testsOk, false, false)
      ensures machine.on && !raised ==> log == old(log) + if workerOk then [TestsRan(id, testsOk)] else []
    {
      testsOk := false;
      assert Fine(id);
      if workerOk {
        raised := *;
        if raised {
          return;
        }
        testsOk := *;
        Hear(TestsRan(id, testsOk));
      }
      raised := Checkpoint(id, RecordOf(id).(phase := TestsComplete, tests := testsOk));
    }

    /** Preliminary only, unless it changes the tested worktree. */
    method SelfReview(id: IssueId) returns (raised: bool, tampered: bool)
      requires Inv()
      requires machine.on ==> Active(id) && !Pending(RecordOf(id).phase)
      modifies this`view, this`records, this`log, machine
      ensures Inv() && machine.Runs()
      ensures machine.on && !raised ==>
        RecordOf(id) == old(RecordOf(id)).(phase := SelfReviewComplete) &&
        ViewOf(id).gates == if tampered then NO_GATES else old(ViewOf(id)).gates
      ensures machine.on && !raised ==> log == old(log) + if tampered then [Tampered(id)] else []
    {
      assert Fine(id);
      tampered := *;
      if tampered {
        Hear(Tampered(id));
      }
      raised := Checkpoint(id, RecordOf(id).(phase := SelfReviewComplete));
    }

    method Review(id: IssueId, shouldReview: bool) returns (raised: bool, review: Verdict)
      requires Inv()
      requires machine.on ==> Active(id) && !Pending(RecordOf(id).phase) && !ViewOf(id).gates.review
      modifies this`view, this`records, this`log, machine
      ensures Inv() && machine.Runs()
      ensures machine.on && !raised ==>
        RecordOf(id) == old(RecordOf(id)).(phase := ReviewComplete, review := review.Passed?) &&
        ViewOf(id).gates.worker == old(ViewOf(id)).gates.worker &&
        ViewOf(id).gates.tests == old(ViewOf(id)).gates.tests &&
        ViewOf(id).gates.review == review.Passed?
      ensures machine.on && !raised ==> log == old(log) + if shouldReview then [Reviewed(id, review.Passed?)] else []
      ensures !shouldReview ==> review == RejectedCode
    {
      review := RejectedCode;
      raised := false;
      if shouldReview {
        raised := *;
        if raised {
          return;
        }
        review := AskReview(id);
      }
      assert Fine(id);
      raised := Checkpoint(id, RecordOf(id).(phase := ReviewComplete, review := review.Passed?));
    }

    /** One attempt: worker, tests, self-review, review, and what their answers lead to in the queue and in
        the ledger. */
    method ExecuteClaimed(snapshot: map<IssueId, Status>, id: IssueId, model: ModelId)
      returns (raised: bool, answer: WorkerAnswer, testsOk: bool, tampered: bool, review: Verdict, final: Verdict)
      requires Inv()
      requires machine.on ==> snapshot == status && Active(id) && !Pending(RecordOf(id).phase)
      modifies this`view, this`status, this`records, this`ledger, this`times, this`log, machine
      ensures Inv() && machine.Runs()
      ensures machine.on && !raised ==> ExecutedAs(Ready(answer, tampered, testsOk), review, final, ViewOf(id))
      ensures machine.on && !raised ==>
        BookedAs(old(ledger), ledger, id, model, answer, tampered, testsOk, review, final)
      ensures machine.on && !raised ==> log == old(log) + AskedFor(id, model, answer, tampered, testsOk, review, final)
    {
      final := Unavailable;
      raised, answer, testsOk, tampered, review := Examine(id, model);
      if raised {
        return;
      }
      raised, final := Conclude(snapshot, id, model, answer, testsOk, tampered, review);
    }

    method Examine(id: IssueId, model: ModelId)
      returns (raised: bool, answer: WorkerAnswer, testsOk: bool, tampered: bool, review: Verdict)
      requires Inv()
      requires machine.on ==> Active(id) && !Pending(RecordOf(id).phase)
      modifies this`view, this`records, this`log, machine
      ensures Inv() && machine.Runs()
      ensures machine.on && !raised ==> !Pending(RecordOf(id).phase)
      ensures machine.on && !raised && Ready(answer, tampered, testsOk) ==>
        ViewOf(id).gates.worker && ViewOf(id).gates.tests && ViewOf(id).gates.review == review.Passed? &&
        RecordOf(id) == Record(ReviewComplete, true, true, review.Passed?)
      ensures machine.on && !raised ==> log == old(log) + AskedFirst(id, model, answer, tampered, testsOk, review)
    {
      review := Unavailable;
      raised, answer, testsOk, tampered := Produce(id, StartsWith(model, "p40"));
      if raised {
        return;
      }
      var workerOk := answer.success && answer.changed && !tampered;
      var substantive := Substantive(if answer.success && !answer.changed then NoCode else answer.kind);
      raised, review := Review(id, !tampered && (model == CODEX || workerOk || substantive));
    }

    /** The candidate: what the worker makes, tested, and looked over again by a P40 that made it. */
    method Produce(id: IssueId, onP40: bool)
      returns (raised: bool, answer: WorkerAnswer, testsOk: bool, tampered: bool)
      requires Inv()
      requires machine.on ==> Active(id) && !Pending(RecordOf(id).phase)
      modifies this`view, this`records, this`log, machine
      ensures Inv() && machine.Runs()
      ensures machine.on && !raised ==>
        !Pending(RecordOf(id).phase) && ViewOf(id).status == old(ViewOf(id)).status &&
        ViewOf(id).gates ==
          if tampered then NO_GATES else Gates(answer.success && answer.changed, testsOk, false, false)
      ensures machine.on && !raised ==>
        RecordOf(id).worker == (answer.success && answer.changed) && RecordOf(id).tests == testsOk
      ensures tampered ==> onP40 && answer.success && answer.changed && testsOk
      ensures machine.on && !raised ==>
        log == old(log) + AskedToProduce(id, answer, tampered, testsOk)
    {
      testsOk, tampered := false, false;
      raised, answer := RunWorker(id);
      if raised {
        return;
      }
      var workerOk := answer.success && answer.changed;
      raised, testsOk := RunTests(id, workerOk);
      if raised {
        return;
      }
      if onP40 && workerOk && testsOk {
        raised, tampered := SelfReview(id);
      }
    }

    method Conclude(snapshot: map<IssueId, Status>, id: IssueId, model: ModelId, answer: WorkerAnswer, testsOk: bool,
                    tampered: bool, review: Verdict)
      returns (raised: bool, final: Verdict)
      requires Inv()
      requires machine.on ==> snapshot == status && Active(id) && !Pending(RecordOf(id).phase)
      requires machine.on && Ready(answer, tampered, testsOk) ==>
        ViewOf(id).gates.worker && ViewOf(id).gates.tests && ViewOf(id).gates.review == review.Passed? &&
        RecordOf(id) == Record(ReviewComplete, true, true, review.Passed?)
      modifies this`view, this`status, this`records, this`ledger, this`times, this`log, machine
      ensures Inv() && machine.Runs()
      ensures machine.on && !raised ==> ExecutedAs(Ready(answer, tampered, testsOk), review, final, ViewOf(id))
      ensures machine.on && !raised ==>
        BookedAs(old(ledger), ledger, id, model, answer, tampered, testsOk, review, final)
      ensures machine.on && !raised ==>
        log == old(log) +
          if Ready(answer, tampered, testsOk) && review.Passed? then [FinallyVerified(id, final.Passed?)] else []
    {
      final := Unavailable;
      var ready := answer.success && answer.changed && !tampered && testsOk;
      if ready && review.Unavailable? {
        raised := PreserveForReview(snapshot, id);
      } else if ready && review.Passed? {
        raised, final := ConcludeCandidate(snapshot, id, model, answer);
      } else {
        ghost var was := ledger;
        raised := ConcludeFailure(snapshot, id, model, FailureKind(answer, testsOk, tampered, review));
        if machine.on && !raised {
          CandidateBooked(was, ledger, ledger, id, model, answer, tampered, testsOk, review, final);
        }
      }
    }

    /** The candidate waits for a review that could not be had. */
    method PreserveForReview(snapshot: map<IssueId, Status>, id: IssueId) returns (raised: bool)
      requires Inv()
      requires machine.on ==>
        snapshot == status && Active(id) && !Pending(RecordOf(id).phase) &&
        ViewOf(id).gates.worker && ViewOf(id).gates.tests
      modifies this`view, this`status, this`records, machine
      ensures Inv() && machine.Runs()
      ensures machine.on && !raised ==> ViewOf(id).status == Blocked && RecordOf(id).phase == ReviewPending
    {
      assert Fine(id);
      raised := SetStatus(snapshot, id, Blocked);
      if raised {
        return;
      }
      raised := Checkpoint(id, Record(ReviewPending, true, true, false));
    }

    /** Worker, tests and review passed: final verification, then the books, then the queue. */
    method ConcludeCandidate(snapshot: map<IssueId, Status>, id: IssueId, model: ModelId, answer: WorkerAnswer)
      returns (raised: bool, final: Verdict)
      requires Inv() && Ready(answer, false, true)
      requires machine.on ==>
        snapshot == status && Active(id) && RecordOf(id) == Record(ReviewComplete, true, true, true) &&
        ViewOf(id).gates.worker && ViewOf(id).gates.tests && ViewOf(id).gates.review
      modifies this`view, this`status, this`records, this`ledger, this`times, this`log, machine
      ensures Inv() && machine.Runs()
      ensures machine.on && !raised ==> ExecutedAs(true, Passed, final, ViewOf(id))
      ensures machine.on && !raised ==>
        BookedAs(old(ledger), ledger, id, model, answer, false, true, Passed, final)
      ensures machine.on && !raised ==> log == old(log) + [FinallyVerified(id, final.Passed?)]
    {
      final := Unavailable;
      raised := *;
      if raised {
        return;
      }
      raised, final := VerifyCandidate(id);
      if raised {
        return;
      }
      raised := RecordAndFinish(snapshot, id, model, answer, final);
    }

    method VerifyCandidate(id: IssueId) returns (raised: bool, final: Verdict)
      requires Inv()
      requires machine.on ==>
        Active(id) && RecordOf(id) == Record(ReviewComplete, true, true, true) &&
        ViewOf(id).gates.worker && ViewOf(id).gates.tests && ViewOf(id).gates.review
      modifies this`view, this`records, this`log, machine
      ensures Inv() && machine.Runs()
      ensures machine.on && !raised ==>
        RecordOf(id) == Record(FinalVerificationComplete, true, true, true) &&
        ViewOf(id).gates == Gates(true, true, true, final.Passed?) && (final.Passed? ==> ViewOf(id).passedOnce) &&
        log == old(log) + [FinallyVerified(id, final.Passed?)]
    {
      assert Fine(id);
      final := AskFinal(id);
      raised := Checkpoint(id, RecordOf(id).(phase := FinalVerificationComplete));
    }

    method RecordAndFinish(snapshot: map<IssueId, Status>, id: IssueId, model: ModelId, answer: WorkerAnswer,
                           final: Verdict)
      returns (raised: bool)
      requires Inv() && Ready(answer, false, true)
      requires machine.on ==>
        snapshot == status && Active(id) && RecordOf(id) == Record(FinalVerificationComplete, true, true, true) &&
        ViewOf(id).gates == Gates(true, true, true, final.Passed?)
      requires machine.on && final.Passed? ==> ViewOf(id).passedOnce
      modifies this`view, this`status, this`records, this`ledger, this`times, machine
      ensures Inv() && machine.Runs()
      ensures machine.on && !raised ==> ExecutedAs(true, Passed, final, ViewOf(id))
      ensures machine.on && !raised ==>
        BookedAs(old(ledger), ledger, id, model, answer, false, true, Passed, final)
    {
      ghost var was := ledger;
      raised := RecordCandidate(id, model, Success, true);
      if raised {
        return;
      }
      ghost var mid := ledger;
      if Decisive(final) {
        raised := FinishVerification(snapshot, id, final.Passed?);
      } else {
        raised := PreserveForVerification(snapshot, id);
      }
      if machine.on && !raised {
        CandidateBooked(was, mid, ledger, id, model, answer, false, true, Passed, final);
      }
    }

    /** The candidate waits for a final verification that could not be had. */
    method PreserveForVerification(snapshot: map<IssueId, Status>, id: IssueId) returns (raised: bool)
      requires Inv()
      requires machine.on ==>
        snapshot == status && Active(id) && RecordOf(id) == Record(FinalVerificationComplete, true, true, true) &&
        ViewOf(id).gates.worker && ViewOf(id).gates.tests && ViewOf(id).gates.review && ViewOf(id).succeeded
      modifies this`view, this`status, this`records, machine
      ensures Inv() && machine.Runs()
      ensures machine.on && !raised ==> ViewOf(id).status == Blocked && RecordOf(id).phase == FinalPending
    {
      assert Fine(id);
      raised := SetStatus(snapshot, id, Blocked);
      if raised {
        return;
      }
      raised := Checkpoint(id, RecordOf(id).(phase := FinalPending));
    }

    /** A failed attempt goes back to the queue if the dispatcher's next choice has an executor and the
        verification infrastructure works. */
    method ConcludeFailure(snapshot: map<IssueId, Status>, id: IssueId, model: ModelId, c: Classification)
      returns (raised: bool)
      requires Inv()
      requires machine.on ==> snapshot == status && Active(id)
      modifies this`view, this`status, this`records, this`ledger, this`times, machine
      ensures Inv() && machine.Runs()
      ensures machine.on && !raised ==> SettledAs(ViewOf(id), Queued) || SettledAs(ViewOf(id), Blocked)
      ensures machine.on && !raised ==> Appended(old(ledger), ledger, id, model, c, false)
    {
      raised := RecordCandidate(id, model, c, false);
      if raised {
        return;
      }
      var retriable: bool := *;
      raised := Settle(snapshot, id, if retriable then Queued else Blocked);
    }

    method RunNextOnce() returns (raised: bool)
      requires Inv()
      requires machine.on ==> !HasPending()
      modifies this`view, this`status, this`records, this`ledger, this`times, this`log, this`claims, this`focus, machine
      ensures Inv() && ClaimedInTurn() && machine.Runs()
      ensures machine.Quiet() && Claimable(order, old(status)) ==> |claims| == |old(claims)| + 1
    {
      var item;
      raised, item := ClaimNextItem();
      if raised {
        return;
      }
      if item.None? {
        raised := InspectInProgress();
        return;
      }
      var id, snapshot := item.value, status;
      var routed: bool := *;
      if !routed {
        assert Fine(id);
        raised := SetStatus(snapshot, id, Blocked);
        return;
      }
      raised := *;
      if raised {
        return;
      }
      var model: ModelId := *;
      var hasExecutor: bool := *;
      if !hasExecutor {
        raised := Close(snapshot, id, Blocked, ExecutorMissing);
        return;
      }
      var answer, testsOk, tampered, review, final;
      raised, answer, testsOk, tampered, review, final := ExecuteClaimed(snapshot, id, model);
    }

    method FirstInProgress(snapshot: map<IssueId, Status>) returns (item: Option<IssueId>)
      requires forall id | id in order :: id in snapshot
      ensures item.Some? ==> item.value in order && snapshot[item.value] == InProgress
      ensures item.None? ==> forall id | id in order :: snapshot[id] != InProgress
    {
      var i := 0;
      while i < |order|
        invariant 0 <= i <= |order| && forall j | 0 <= j < i :: snapshot[order[j]] != InProgress
      {
        if snapshot[order[i]] == InProgress {
          return Some(order[i]);
        }
        i := i + 1;
      }
      return None;
    }

    lemma OnlyFocusInProgress()
      requires Inv()
      ensures forall id :: StatusAt(status, id) == InProgress ==> focus == Some(id)
    {
      forall id | StatusAt(status, id) == InProgress ensures focus == Some(id) {
        assert Fine(id);
      }
    }

    /** An item found in progress is left to its live owner, or recovered by blocking it. */
    method InspectInProgress() returns (raised: bool)
      requires Inv()
      modifies this`view, this`status, this`records, machine
      ensures Inv() && machine.Runs()
      ensures machine.on && !raised ==>
        forall id :: StatusAt(status, id) == InProgress ==> RecordOf(id).phase == Executing
    {
      raised := false;
      var active := FirstInProgress(status);
      if active.None? {
        return;
      }
      assert Fine(active.value);
      var ownerAlive: bool := *;
      if RecordOf(active.value).phase != Executing || !ownerAlive {
        raised := Close(status, active.value, Blocked, RecoveryRequired);
      }
      OnlyFocusInProgress();
    }

    // ---------- One call of the adapter ----------

    /** Completed with no gate pending: nothing changes such an item any more. */
    twostate predicate ClosedStay()
      reads this`view
    {
      forall id :: old(Closed(ViewOf(id))) ==> ViewOf(id) == old(ViewOf(id))
    }

    ghost method WatchClosed()
      requires Inv()
      modifies this`closed
      ensures Inv() && forall id :: Closed(ViewOf(id)) ==> id in closed && closed[id] == ViewOf(id)
      ensures forall id :: id in old(closed) ==> id in closed && closed[id] == old(closed)[id]
    {
      ghost var was := closed;
      closed := map id | id in order && Closed(ViewOf(id)) :: ViewOf(id);
      assert Now() == old(Now()) && Mirrored();
      forall id
        ensures Fine(id) && (Closed(ViewOf(id)) ==> id in closed && closed[id] == ViewOf(id))
        ensures id in was ==> id in closed && closed[id] == was[id]
      {
        assert old(Fine(id)) && ViewOf(id) == old(ViewOf(id));
        assert StatusAt(status, id) == Completed ==> id in status.Keys;
      }
    }

    ghost predicate HasPending()
      reads this`records
    {
      exists id :: Pending(RecordOf(id).phase)
    }

    method FirstPending() returns (item: Option<IssueId>)
      requires Inv()
      ensures item.Some? ==> Pending(RecordOf(item.value).phase) && Active(item.value)
      ensures item.Some? <==> HasPending()
    {
      var i := 0;
      while i < |order|
        invariant 0 <= i <= |order| && forall j | 0 <= j < i :: !Pending(RecordOf(order[j]).phase)
      {
        if Pending(RecordOf(order[i]).phase) {
          assert Fine(order[i]);
          assert ViewOf(order[i]).record == RecordOf(order[i]);
          return Some(order[i]);
        }
        i := i + 1;
      }
      forall id ensures !Pending(RecordOf(id).phase) {
        assert Fine(id);
      }
      return None;
    }

    /** A resumed final verification decides its item as its verdict says. */
    twostate predicate FinalDecides(verdict: Verdict)
      reads this`view
    {
      forall id :: old(ViewOf(id)).record.phase == FinalPending ==>
        if verdict.Passed? then ViewOf(id).status == Completed
        else if verdict.RejectedCode? then ViewOf(id).status in {Queued, Blocked}
        else ViewOf(id).status == old(ViewOf(id)).status
    }

    /** The adapter takes back a completion exactly when the final verification is still pending and
        now rejects. */
    twostate predicate ReopensExactly(verdict: Verdict)
      reads this`view
    {
      forall id :: old(ViewOf(id)).claimed && old(ViewOf(id)).status == Completed ==>
        (ViewOf(id).status != Completed <==>
         old(ViewOf(id)).record.phase == FinalPending && verdict == RejectedCode)
    }

    twostate lemma Reopening(verdict: Verdict)
      requires old(Inv()) && ClosedStay() && FinalDecides(verdict)
      ensures ReopensExactly(verdict)
    {
      forall id | old(ViewOf(id)).claimed && old(ViewOf(id)).status == Completed
        ensures ViewOf(id).status != Completed <==>
                (old(ViewOf(id)).record.phase == FinalPending && verdict == RejectedCode)
      {
        assert old(Fine(id));
      }
    }

    /** Pending gates come before new work. `verdict` is the answer of a resumed final verification. */
    method RunNext() returns (raised: bool, verdict: Verdict)
      requires Inv()
      modifies this`view, this`status, this`records, this`ledger, this`times, this`log, this`claims, this`focus,
        this`closed, machine
      ensures Inv() && ClaimedInTurn() && ClosedStay() && machine.Runs()
      ensures forall id :: id in old(closed) ==> id in closed && closed[id] == old(closed)[id]
      ensures machine.on && old(HasPending()) ==> claims == old(claims) && |log| > |old(log)|
      ensures machine.Quiet() && !old(HasPending()) && Claimable(order, old(status)) ==> |claims| == |old(claims)| + 1
      ensures machine.Quiet() ==> ReopensExactly(verdict)
    {
      WatchClosed();
      ghost var watched := closed;
      assert forall other :: ViewOf(other) == old(ViewOf(other));
      assert forall id :: old(Closed(ViewOf(id))) ==> id in watched && watched[id] == old(ViewOf(id));
      raised, verdict := RunGuarded();
      WatchedStay(watched);
      if machine.Quiet() {
        Reopening(verdict);
      }
    }

    twostate lemma WatchedStay(watched: map<IssueId, View>)
      requires Inv() && closed == watched
      requires forall id :: old(Closed(ViewOf(id))) ==> id in watched && watched[id] == old(ViewOf(id))
      ensures ClosedStay()
    {
      forall id | old(Closed(ViewOf(id))) ensures ViewOf(id) == old(ViewOf(id)) {
        assert Fine(id);
      }
    }

    method RunGuarded() returns (raised: bool, verdict: Verdict)
      requires Inv()
      modifies this`view, this`status, this`records, this`ledger, this`times, this`log, this`claims, this`focus, machine
      ensures Inv() && ClaimedInTurn() && machine.Runs()
      ensures machine.on && old(HasPending()) ==> claims == old(claims) && |log| > |old(log)|
      ensures machine.Quiet() && !old(HasPending()) && Claimable(order, old(status)) ==> |claims| == |old(claims)| + 1
      ensures machine.Quiet() ==> FinalDecides(verdict)
    {
      raised, verdict := ResumeOrRun();
      if raised {
        raised := HandlePendingException();
        if raised {
          raised := HandleUnexpectedException();
        }
      }
    }

    method ResumeOrRun() returns (raised: bool, verdict: Verdict)
      requires Inv()
      modifies this`view, this`status, this`records, this`ledger, this`times, this`log, this`claims, this`focus, machine
      ensures Inv() && ClaimedInTurn() && machine.Runs()
      ensures machine.on && old(HasPending()) ==> claims == old(claims) && |log| > |old(log)|
      ensures machine.Quiet() && !old(HasPending()) && Claimable(order, old(status)) ==> |claims| == |old(claims)| + 1
      ensures machine.Quiet() ==> FinalDecides(verdict)
      ensures machine.Quiet() && raised ==> forall id :: old(ViewOf(id)).record.phase != FinalPending
    {
      verdict := Unavailable;
      var pending := FirstPending();
      assert forall other :: ViewOf(other) == old(ViewOf(other));
      if pending.Some? {
        assert Fine(pending.value);
        if RecordOf(pending.value).phase == ReviewPending {
          var model: ModelId := *;
          var review, final;
          raised, review, final := ResumeReviewPending(pending.value, model);
        } else {
          raised, verdict := ResumeFinalVerificationPending(pending.value);
        }
        forall id | old(ViewOf(id)).record.phase == FinalPending ensures id == pending.value {
          assert old(Fine(id));
        }
      } else {
        raised := RunNextOnce();
      }
    }

    /** A pending item keeps its phase when persistence behind it failed. */
    method HandlePendingException() returns (raised: bool)
      requires Inv()
      modifies this`view, this`status, this`records, this`ledger, this`times, machine
      ensures Inv() && machine.Runs()
      ensures old(HasPending()) ==> !raised && forall id :: ViewOf(id) == old(ViewOf(id))
      ensures machine.on && !raised && !old(HasPending()) ==> forall id :: StatusAt(status, id) != InProgress
    {
      var pending := FirstPending();
      if pending.Some? {
        assert Fine(pending.value);
        var _ := Checkpoint(pending.value, RecordOf(pending.value));
        return false;
      }
      raised := HandleUnexpectedException();
    }

    /** Whatever else went wrong is recorded as an operational failure of the item in progress. */
    method HandleUnexpectedException() returns (raised: bool)
      requires Inv()
      modifies this`view, this`status, this`records, this`ledger, this`times, machine
      ensures Inv() && machine.Runs()
      ensures machine.on && !raised ==> forall id :: StatusAt(status, id) != InProgress
      ensures ledger == old(ledger) || exists id, model, c ::
        old(StatusAt(status, id)) == InProgress && c in {EndpointUnavailable, UnknownFailure} &&
        Appended(old(ledger), ledger, id, model, c, false)
      ensures (forall id | id in order :: old(status)[id] != InProgress) ==> raised && status == old(status)
    {
      var snapshot := status;
      var active := FirstInProgress(snapshot);
      if active.None? {
        return true;
      }
      assert Fine(active.value);
      var missing: bool := *;
      var model: ModelId := *;
      var unrecorded :=
        RecordCandidate(active.value, model, if missing then EndpointUnavailable else UnknownFailure, false);
      var nextHasExecutor: bool := *;
      var next := if !unrecorded && nextHasExecutor then Queued else Blocked;
      raised := Close(snapshot, active.value, next, ExceptionPhase);
      OnlyFocusInProgress();
    }

    /** Any number of calls, in any number of processes one after another, each cut short at any write. */
    method Lives(calls: nat)
      requires Inv()
      modifies this`view, this`status, this`records, this`ledger, this`times, this`log, this`claims, this`focus,
        this`closed, machine
      ensures Inv() && ClosedStay()
    {
      var left := calls;
      WatchClosed();
      ghost var watched := closed;
      assert forall id :: old(Closed(ViewOf(id))) ==> id in watched && watched[id] == old(ViewOf(id));
      while left > 0
        invariant Inv()
        invariant forall id :: id in watched ==> id in closed && closed[id] == watched[id]
      {
        left := left - 1;
        var restarted: bool := *;
        if restarted {
          machine.on := true;
        }
        var raised, verdict := RunNext();
      }
      forall id | old(Closed(ViewOf(id))) ensures ViewOf(id) == old(ViewOf(id)) {
        assert Fine(id);
      }
    }

    // ---------- What the invariant means ----------

    ghost predicate Witnessed(id: IssueId, i: int, j: int)
      reads this`ledger, this`times, this`log
    {
      0 <= i < j < |ledger| == |times| && times[i] <= times[j] <= |log| &&
      SuccessEntry(ledger[i], id) && AcceptedEntry(ledger[j], id) && AllPassed(log[..times[j]], id) &&
      var g := GatesOf(log[..times[i]], id);
      g.worker && g.tests && g.review
    }

    /** An item the adapter completed has a success attempt in the ledger that was written when its artifact
        had passed worker, tests and review, and after it Codex's accepted final verification, written
        when one artifact had passed all four. */
    lemma CompletedWasVerified(id: IssueId)
      requires Inv() && StatusAt(status, id) == Completed && StatusAt(initial, id) != Completed
      ensures exists i, j :: Witnessed(id, i, j)
    {
      assert Fine(id);
      assert ViewOf(id) == Shown(Now(), id) && ViewOf(id).proven;
      ProvenMeans(ledger, id);
      var i, j :| 0 <= i < j < |ledger| && SuccessEntry(ledger[i], id) && AcceptedEntry(ledger[j], id);
      assert EarnedAt(ledger[i], log, times[i]) && EarnedAt(ledger[j], log, times[j]);
      AllPassedExactly(log[..times[j]], id);
      assert Witnessed(id, i, j);
    }

    /** Never two items in progress or with a gate pending, and nothing queued before the hot one. */
    lemma OneAtATime(id: IssueId, other: IssueId)
      requires Inv() && Hot(ViewOf(id))
      ensures Hot(ViewOf(other)) || StatusAt(status, other) == InProgress || Pending(RecordOf(other).phase) ==>
        other == id
      ensures NoneQueuedBefore(order, status, id)
    {
      assert Fine(id) && Fine(other);
      assert StatusAt(status, other) == InProgress || Pending(RecordOf(other).phase) ==> Hot(ViewOf(other));
    }
  }

  /** The gates an entry presupposes have been passed. */
  predicate Deserved(g: Gates, e: Entry) {
    (SuccessEntry(e, e.goal) ==> g.worker && g.tests && g.review) && (AcceptedEntry(e, e.goal) ==> g == ALL_PASSED)
  }

  predicate Appended(was: seq<Entry>, now: seq<Entry>, id: IssueId, model: ModelId, c: Classification, good: bool) {
    |now| == |was| + 1 && now[..|was|] == was && CandidateEntry(now[|was|], id, model, c, good)
  }

  /** The classification an attempt that was not ready or not approved is recorded under. */
  function FailureKind(answer: WorkerAnswer, testsOk: bool, tampered: bool, review: Verdict): Classification {
    if !answer.success then answer.kind
    else if !answer.changed then NoCode
    else if tampered then TestsFailed
    else if !testsOk then TestsFailed
    else KindOf(review)
  }

  /** The classification a failed review is recorded under. */
  function KindOf(verdict: Verdict): Classification {
    match verdict
    case RejectedCode => IncorrectCode
    case OtherKind(kind) => kind
    case _ => ReviewUnavailable
  }
}
