// One task as the two durable stores show it, which combinations a crash can leave
// behind, and what restart recovery makes of each of them.
module RecoveryRules {
  import opened Prelude
  import opened SchedulerState
  import opened StorageService

  /** What the newest attempt of a task shows: whether it is open, and its result. */
  datatype Slip = Slip(open: bool, result: Option<string>)

  /** A task's row, its newest attempt and its staged input. `overruled`: an error escaped from the
      call that was to close the task as its input says, and the task was failed instead. `ruling`:
      what an operator decided about the task's review. */
  datatype Cell = Cell(
    state: Option<TaskState>,
    staged: bool,
    last: Option<Slip>,
    image: Option<Image>,
    overruled: bool,
    ruling: Ruling)

  function Ending(last: Option<Slip>, result: Option<string>): Option<Slip> {
    if last.Some? && last.value.open then Some(Slip(false, result)) else last
  }

  predicate HasOpen(c: Cell) {
    c.last.Some? && c.last.value.open
  }

  /** A known input: one that has a scheduler row. */
  predicate Known(c: Cell) {
    c.state.Some? && c.image.Some?
  }

  predicate Finished(o: Outcome) {
    o in {OutcomeSucceeded, OutcomeFailed, OutcomeAwaitingReview}
  }

  /** A claim that moved the input but did not get to mark it: recovery reads `accepted` and
      takes the input to be back in incoming. */
  predicate Torn(img: Image) {
    img.dir == Processing && img.meta.status == InputAccepted
  }

  /** An input no handler has finished, wherever an interrupted claim or requeue left it. */
  predicate Waiting(img: Image) {
    !Finished(img.meta.outcome) &&
    match img.dir
    case Incoming =>
      img.meta.status == InputAccepted ||
      (img.meta.status == InputProcessing && img.meta.outcome == OutcomeRetryWait)
    case Processing => img.meta.status in {InputAccepted, InputProcessing}
    case Processed => false
  }

  predicate Filed(img: Image) {
    img.dir == Processed && img.meta.status == InputProcessed
  }

  /** The pairs of row and input that the daemon and its recovery can ever leave on disk, at
      whatever write the power fails. */
  predicate Sound(c: Cell) {
    (c.image.Some? && c.state.None? ==> c.image.value == FRESH) &&
    (Known(c) ==>
      c.staged && (!Finished(c.image.value.meta.outcome) ==> c.image.value.meta.result == None) &&
      SoundPair(c.state.value, c.image.value, c))
  }

  predicate SoundPair(s: TaskState, img: Image, c: Cell) {
    var o := img.meta.outcome;
    match s
    case Accepted => Waiting(img)
    case Queued => Waiting(img)
    case Claimed => Waiting(img)
    case RetryWait => Waiting(img)
    case Running => (o == OutcomeSucceeded ==> HasOpen(c)) && (
      || (img.dir == Processing && img.meta.status == InputProcessing)
      || (img.dir == Processed && img.meta.status in {InputProcessing, InputProcessed} && Finished(o))
      || (img.dir == Incoming && img.meta.status in {InputProcessing, InputAccepted} && o == OutcomeRetryWait))
    case Succeeded =>
      Filed(img) && (
      || (o == OutcomeAwaitingReview && c.ruling == Approved)
      || (o == OutcomeSucceeded && (HasOpen(c) || OnAttempt(c, img.meta.result))))
    case AwaitingReview => Filed(img) && o == OutcomeAwaitingReview
    case FailedTerminal =>
      || (Filed(img) && Finished(o) &&
          (o == OutcomeFailed || c.overruled || (o == OutcomeAwaitingReview && c.ruling == Rejected)))
      || Waiting(img) || Shelved(img)
    case Cancelled => Waiting(img) || Shelved(img)
  }

  /** The newest attempt is closed and carries the result. */
  predicate OnAttempt(c: Cell, result: Option<string>) {
    c.last == Some(Slip(false, result))
  }

  /** Over and put away: nothing will change the task or its input again. */
  predicate Over(c: Cell) {
    Known(c) && c.state.value in {Succeeded, FailedTerminal} && Filed(c.image.value)
  }

  /** Nothing known is lost, and what is over stays as it is. */
  predicate Carried(was: Cell, now: Cell) {
    (Known(was) ==> Known(now)) && (Over(was) ==> now == was)
  }

  /** The input of a task that ended before a handler finished it, put away by recovery. */
  predicate Shelved(img: Image) {
    img.dir == Processed && img.meta.status in {InputProcessing, InputProcessed} && !Finished(img.meta.outcome)
  }

  /** What recovery is for: the documented resting places. */
  predicate Settled(c: Cell) {
    Known(c) ==>
      var img := c.image.value;
      img.dir != Processing &&
      c.state.value !in {Claimed, Running} &&
      (c.state.value in {Accepted, Queued, RetryWait} ==> AtRest(img)) &&
      (Finished(img.meta.outcome) ==> Filed(img))
  }

  /** Settled, and not in the daemon's hands. */
  predicate Rested(c: Cell) {
    Settled(c) && c.state.Some? && c.state.value !in {Claimed, Running}
  }

  /** What the recovery branches can put right. */
  predicate Recoverable(c: Cell) {
    Known(c) ==>
      !Torn(c.image.value) &&
      (c.state.value in {Accepted, Queued} ==> AtRest(c.image.value))
  }

  predicate AtRest(img: Image) {
    img.dir == Incoming && img.meta.status == InputAccepted
  }

  /** The input, if there is one, is where a claim will find it. */
  predicate InReach(c: Cell) {
    Known(c) ==> AtRest(c.image.value)
  }

  /** How well the daemon's lives have gone so far: a recovery came up in spite of an error;
      none did, and a recovery may be due; or the daemon is up after a clean recovery. */
  datatype Health = Spoiled | Restarting | Clean

  /** In good health nothing waiting to run is displaced, unless its claim was torn. */
  predicate Placed(health: Health, c: Cell) {
    Known(c) ==>
    match c.state.value
    case Accepted => !health.Spoiled? ==> Torn(c.image.value) || AtRest(c.image.value)
    case Queued => !health.Spoiled? ==> Torn(c.image.value) || AtRest(c.image.value)
    case RetryWait => health.Clean? ==> Torn(c.image.value) || AtRest(c.image.value)
    case _ => true
  }

  function MatchingState(o: Outcome): TaskState {
    match o
    case OutcomeSucceeded => Succeeded
    case OutcomeAwaitingReview => AwaitingReview
    case _ => FailedTerminal
  }

  // ---------- Restart recovery of one input, when no operation fails ----------

  function Recovered(c: Cell): Cell {
    if !Known(c) then c
    else
      var img := c.image.value;
      var o := img.meta.outcome;
      match c.state.value
      case Running => if o == NoOutcome || o == OutcomeRetryWait then Returned(c) else Concluded(c)
      case Claimed => Returned(c)
      case RetryWait =>
        if img.meta.status == InputProcessing then c.(image := Some(Last(RequeueStages(img)))) else c
      case Accepted => c
      case Queued => c
      case _ =>
        if img.meta.status == InputProcessing
        then c.(image := Some(Last(CompletionStages(img, None, NoOutcome)))) else c
  }

  function AsRetrying(c: Cell): Cell {
    c.(state := Some(RetryWait), last := if c.state == Some(Running) then Ending(c.last, None) else c.last)
  }

  function Returned(c: Cell): Cell
    requires Known(c)
  {
    var img := c.image.value;
    AsRetrying(c).(image := Some(if img.meta.status == InputAccepted then img else Last(RequeueStages(img))))
  }

  function Concluded(c: Cell): Cell
    requires Known(c)
  {
    var img := c.image.value;
    var meta := img.meta;
    c.(state := Some(MatchingState(meta.outcome)),
       last := Ending(c.last, if meta.outcome == OutcomeSucceeded then meta.result else None),
       image := Some(if meta.status == InputProcessed then img
                     else Last(CompletionStages(img, meta.result, meta.outcome))))
  }

  /** What a clean restart owes each known input, state by state: a recorded outcome decides the task and
      stays on its filed input; an interrupted task without one waits again, its input back in incoming
      unless its claim was torn; every other task stays in its state. */
  predicate PutRight(was: Cell, now: Cell) {
    Known(was) ==>
      var s, o := was.state.value, was.image.value.meta.outcome;
      Known(now) && was.staged == now.staged &&
      (s == Running && o == OutcomeSucceeded ==>
        now.state == Some(Succeeded) && now.last == Some(Slip(false, was.image.value.meta.result))) &&
      (s == Running && o == OutcomeAwaitingReview ==> now.state == Some(AwaitingReview)) &&
      (s == Running && o == OutcomeFailed ==> now.state == Some(FailedTerminal)) &&
      ((s == Running || s == Claimed) && (o == NoOutcome || o == OutcomeRetryWait) ==>
        now.state == Some(RetryWait)) &&
      (s != Running && s != Claimed ==> now.state == was.state && now.last == was.last) &&
      (s == Running ==> !HasOpen(now)) && PutAway(was.image.value, s, now.image.value)
  }

  /** ... and where its input then is, unless the claim of it was torn. */
  predicate PutAway(was: Image, s: TaskState, now: Image) {
    now.meta.result == was.meta.result &&
    (was.meta.outcome in {OutcomeSucceeded, OutcomeFailed, OutcomeAwaitingReview} ==>
      now.dir == Processed && now.meta.status == InputProcessed && now.meta.outcome == was.meta.outcome) &&
    (s in {Running, Claimed, RetryWait} && was.meta.outcome in {NoOutcome, OutcomeRetryWait} &&
     !(was.dir == Processing && was.meta.status == InputAccepted) ==>
      now.dir == Incoming && now.meta.status == InputAccepted) &&
    (s in {Succeeded, FailedTerminal, AwaitingReview, Cancelled} && was.dir != Incoming &&
     was.meta.status == InputProcessing ==>
      now.dir == Processed && now.meta.status == InputProcessed) &&
    (s in {Accepted, Queued} ==> now == was)
  }

  lemma RecoveryPutsRight(c: Cell)
    requires Sound(c)
    ensures PutRight(c, Recovered(c))
  {
  }

  lemma RecoveredIsSound(c: Cell)
    requires Sound(c)
    ensures Sound(Recovered(c))
  {
    if Known(c) && c.state.value == Running {
      RunningRecoveredIsSound(c);
    }
  }

  lemma RunningRecoveredIsSound(c: Cell)
    requires Sound(c) && Known(c) && c.state.value == Running
    ensures Sound(Recovered(c))
  {
  }

  // ---------- The states on the way ----------

  /** The task survives a crash at every stage, and an outcome already recorded stays. */
  predicate StagesFit(health: Health, c: Cell, stages: seq<Image>)
    requires c.image.Some?
  {
    forall img | img in stages ::
      Sound(c.(image := Some(img))) && Placed(health, c.(image := Some(img))) &&
      (Finished(c.image.value.meta.outcome) ==>
        img.meta.outcome == c.image.value.meta.outcome && img.meta.result == c.image.value.meta.result)
  }

  predicate Healthy(health: Health, c: Cell) {
    Sound(c) && Placed(health, c)
  }

  lemma ClaimingIsSafe(health: Health, c: Cell)
    requires Healthy(health, c) && Known(c) && c.state.value in {Claimed, Cancelled} && AtRest(c.image.value)
    ensures StagesFit(health, c, ClaimStages(c.image.value))
  {
  }

  lemma RequeueIsSafe(health: Health, c: Cell)
    requires Healthy(health, c) && Known(c) && !Finished(c.image.value.meta.outcome)
    requires c.state.value in {Claimed, Running, Cancelled} || (c.state.value == RetryWait && !health.Clean?)
    ensures StagesFit(health, c, RequeueStages(c.image.value))
  {
  }

  predicate ClaimableOrTorn(health: Health, c: Cell) {
    Known(c) && health.Clean? ==> Torn(c.image.value) || AtRest(c.image.value)
  }

  lemma FilingIsSafe(health: Health, c: Cell, result: Option<string>, outcome: Outcome)
    requires Healthy(health, c) && Known(c) && c.state.value == Running && Finished(outcome)
    requires Finished(c.image.value.meta.outcome) ==>
      outcome == c.image.value.meta.outcome && result == c.image.value.meta.result
    requires outcome == OutcomeSucceeded ==> HasOpen(c)
    ensures StagesFit(health, c, CompletionStages(c.image.value, result, outcome))
  {
  }

  /** Recovery of a finished task: file the input if need be, then close the task as recorded. */
  lemma FiledThenConcluded(c: Cell)
    requires Sound(c) && Known(c) && c.state.value in {Running, Claimed} && Finished(c.image.value.meta.outcome)
    ensures c.state.value == Running
    ensures var img := c.image.value;
      var filed := if img.meta.status == InputProcessed then img
                   else Last(CompletionStages(img, img.meta.result, img.meta.outcome));
      Filed(filed) && filed.meta.outcome == img.meta.outcome && Concluded(c.(image := Some(filed))) == Recovered(c)
  {
  }

  lemma ShelvingIsSafe(health: Health, c: Cell)
    requires Healthy(health, c) && Known(c) && c.state.value in {Succeeded, FailedTerminal, AwaitingReview, Cancelled}
    requires c.image.value.meta.status == InputProcessing
    ensures StagesFit(health, c, CompletionStages(c.image.value, None, NoOutcome))
  {
  }

  /** A task the daemon has taken: its input, if it has one, is in processing and unfinished. */
  predicate InHand(c: Cell, storageClaimed: bool) {
    c.state.Some? && (c.state.value == Running ==> HasOpen(c)) &&
    if storageClaimed then
      c.image.Some? && c.image.value.dir == Processing && c.image.value.meta.status == InputProcessing &&
      !Finished(c.image.value.meta.outcome)
    else c.image.None?
  }

  /** Recovery brings an input to its documented resting place exactly when its claim was not
      torn and, if it is queued, it was never displaced. */
  lemma RecoverySettlesExactly(c: Cell)
    requires Sound(c)
    ensures Settled(Recovered(c)) <==> Recoverable(c)
  {
  }

  /** The states a task can show once its outcome is recorded: still running, the matching one, after
      a review what an operator decided and nothing else, or failed when an error escaped from the
      closing call. A success has its result on its attempt unless the attempt was left open. */
  predicate FollowsOutcome(c: Cell, o: Outcome, result: Option<string>) {
    c.state.Some? &&
    match o
    case OutcomeSucceeded =>
      || c.state.value == Running
      || (c.state.value == Succeeded && (HasOpen(c) || OnAttempt(c, result)))
      || (c.state.value == FailedTerminal && c.overruled)
    case OutcomeFailed => c.state.value in {Running, FailedTerminal}
    case OutcomeAwaitingReview =>
      || c.state.value in {Running, AwaitingReview}
      || (c.state.value == Succeeded && c.ruling == Approved)
      || (c.state.value == FailedTerminal && (c.ruling == Rejected || c.overruled))
    case _ => false
  }

  lemma SoundFollowsOutcome(c: Cell)
    requires Sound(c) && Known(c) && Finished(c.image.value.meta.outcome)
    ensures FollowsOutcome(c, c.image.value.meta.outcome, c.image.value.meta.result)
  {
  }

  /** A succeeded task carries the recorded result on its attempt exactly when the attempt was closed. */
  lemma ResultOnAttemptExactly(c: Cell)
    requires Sound(c) && Known(c) && c.state.value == Succeeded && c.image.value.meta.outcome == OutcomeSucceeded
    ensures OnAttempt(c, c.image.value.meta.result) <==> !HasOpen(c)
  {
  }

  /** A success cut short between its row and its attempt: both stores are consistent and settled,
      the result is on no attempt, and recovery leaves it so. */
  lemma LostResultIsNotRecovered(c: Cell)
    requires Sound(c) && Known(c) && c.state.value == Running && Filed(c.image.value)
    requires c.image.value.meta.outcome == OutcomeSucceeded
    ensures var cut := c.(state := Some(Succeeded));
      Sound(cut) && Over(cut) && Settled(cut) && Recovered(cut) == cut && !OnAttempt(cut, c.image.value.meta.result)
  {
  }

  /** A second recovery changes nothing. */
  lemma RecoveryIsIdempotent(c: Cell)
    requires Sound(c)
    ensures Recovered(Recovered(c)) == Recovered(c)
  {
  }

  /** After a clean recovery of healthy stores everything waiting is in place again. */
  lemma RecoveredIsPlaced(c: Cell)
    requires Sound(c) && Placed(Restarting, c)
    ensures Placed(Clean, Recovered(c))
    ensures Settled(Recovered(c)) <==> !(Known(c) && Torn(c.image.value))
  {
  }

  lemma TornStaysTorn(c: Cell)
    requires Sound(c)
    ensures Known(Recovered(c)) && Torn(Recovered(c).image.value) <==> Known(c) && Torn(c.image.value)
  {
  }

  /** A torn input stays torn through every restart, and its task is never left running. */
  lemma TornInputIsNeverRepaired(c: Cell)
    requires Sound(c) && Known(c) && Torn(c.image.value) && c.state.value != Running
    ensures Recovered(c).image == c.image && !Settled(Recovered(c))
  {
  }

  // ---------- How the two unsettled states come about ----------

  /** A claim of storage that stops after its move leaves a torn input behind a sound task. */
  lemma ClaimCanTear(c: Cell)
    requires Sound(c) && Known(c) && c.state.value == Claimed && AtRest(c.image.value)
    ensures var torn := c.(image := Some(ClaimStages(c.image.value)[1]));
      Torn(torn.image.value) && Sound(torn) && !Settled(Recovered(torn))
  {
  }

  /** A recovery that moves the task but fails on its input leaves the input displaced; promoting
      the task leaves that for good as long as the task stays queued, for no recovery looks at it. */
  lemma FailedRecoveryDisplaces(c: Cell)
    requires Sound(c) && Known(c) && c.state.value in {Running, Claimed}
    requires c.image.value.dir == Processing && c.image.value.meta.status == InputProcessing
    requires c.image.value.meta.outcome == NoOutcome
    ensures var waiting := AsRetrying(c);
      var queued := waiting.(state := Some(Queued));
      Sound(waiting) && Sound(queued) && !Recoverable(queued) && Recovered(queued) == queued && !Settled(queued)
  {
  }

  /** Dispatch is the way out: it finds nothing to claim and sends the task back to wait, and from
      there the next recovery puts the input in place. */
  lemma DispatchFreesDisplaced(queued: Cell)
    requires Sound(queued) && Known(queued) && queued.state.value == Queued
    requires !AtRest(queued.image.value) && !Torn(queued.image.value)
    ensures var waiting := queued.(state := Some(RetryWait));
      Sound(waiting) && Recoverable(waiting) && Settled(Recovered(waiting))
  {
  }
}
