/** A command stops only where it is hindered, and unhindered it turns out as its starting point says. */
module PerformanceProgress {
  import opened Common
  import O = Outbox
  import opened Pairing
  import opened Performance

  // ----- what hinders a command -----

  /** The answer that one stride hears, if it asks; No when none is left. */
  function HeardAt(w: World, lives: nat, answers: seq<Answer>): Option<Answer>
    requires Inv(w) && w.pc.Some?
  {
    match w.pc.value
    case Recovered(command) =>
      if command.Retry? && AfterRecovery(w, command).pc == Some(CallRefresh(true)) then Some(First(answers)) else None
    case CallPair(_) => Some(First(answers))
    case CallRefresh(_) => if w.keyring.Some? then Some(First(answers)) else None
    case Working(_) => if lives > 0 && w.entry.value.phase != O.EVIDENCE then Some(First(answers)) else None
    case _ => None
  }

  /** All answers that the command hears, in order. */
  function Heard(w: World, lives: nat, answers: seq<Answer>): seq<Answer>
    requires Inv(w) && w.pc.Some?
    decreases Rank(w)
  {
    StrideOk(w, lives, answers);
    var now := match HeardAt(w, lives, answers) case None => [] case Some(a) => [a];
    match StrideOf(w, lives, answers)
    case Ended(_) => now
    case Onward(v, left, others) => now + Heard(v, left, others)
  }

  predicate StopsOnlyHindered(w: World, lives: nat, answers: seq<Answer>)
    requires Inv(w) && w.pc.Some?
  {
    match StrideOf(w, lives, answers)
    case Ended(end) =>
      end.outcome.Stopped? || end.outcome.FileChanged? ==>
        end.lives == 0 || (HeardAt(w, lives, answers).Some? && !HeardAt(w, lives, answers).value.Yes?)
    case Onward(_, _, _) => true
  }

  lemma RecoveredStops(w: World, command: Command, lives: nat, answers: seq<Answer>)
    requires Inv(w) && w.pc == Some(Pc.Recovered(command))
    ensures StopsOnlyHindered(w, lives, answers)
  {
  }

  lemma StrideStops(w: World, lives: nat, answers: seq<Answer>)
    requires Inv(w) && w.pc.Some?
    ensures StopsOnlyHindered(w, lives, answers)
  {
    match w.pc.value
    case Recovered(command) => RecoveredStops(w, command, lives, answers);
    case _ =>
  }

  /** Stopped, or a discarded document, means: killed, or an answer heard that is not Yes (No when there was none). */
  lemma {:induction false} StoppedMeansHindered(w: World, lives: nat, answers: seq<Answer>)
    requires Inv(w) && w.pc.Some?
    ensures var end := Performed(w, lives, answers);
      end.outcome.Stopped? || end.outcome.FileChanged? ==>
        end.lives == 0 || exists a :: a in Heard(w, lives, answers) && !a.Yes?
    decreases Rank(w)
  {
    StrideOk(w, lives, answers);
    StrideStops(w, lives, answers);
    match StrideOf(w, lives, answers)
    case Ended(_) =>
      var heard := HeardAt(w, lives, answers);
      assert heard.Some? ==> heard.value in Heard(w, lives, answers);
    case Onward(v, left, others) =>
      StoppedMeansHindered(v, left, others);
      assert forall a :: a in Heard(v, left, others) ==> a in Heard(w, lives, answers);
  }

  /** The phases that a document still has to go through, one answer for each. */
  function PhasesLeft(w: World): nat {
    if w.entry.None? then 0
    else match w.entry.value.phase
      case CREATE => 3
      case UPLOAD => 2
      case SUBMIT => 1
      case EVIDENCE => 0
  }

  /** Past its recovery, and not pairing. */
  predicate AtWork(w: World) {
    w.pc.Some? &&
    match w.pc.value
    case Recovered(command) => !command.Pair?
    case SaveEntry(_) => true
    case CallRefresh(_) => true
    case SaveRotated(_, _) => true
    case Working(_) => true
    case Printing => true
    case _ => false
  }

  /** A rotation, another look at the manifest for retry, and every phase that is left. */
  function AnswersNeeded(w: World): nat
    requires w.pc.Some?
  {
    match w.pc.value
    case Recovered(command) =>
      (match command
       case Submit(_) => 1 + 3
       case Retry => if PhasesLeft(w) == 0 then 0 else 1 + 1 + PhasesLeft(w)
       case _ => 1)
    case SaveEntry(_) => 1 + 3
    case CallRefresh(resume) => if resume then 1 + PhasesLeft(w) else 1
    case SaveRotated(resume, _) => if resume then PhasesLeft(w) else 0
    case Working(_) => PhasesLeft(w)
    case _ => 0
  }

  /** One stride on the way to the end: an answer heard is a Yes and one answer less is needed. */
  lemma WorkStride(w: World, lives: nat, answers: seq<Answer>)
    requires Inv(w) && AtWork(w)
    ensures match StrideOf(w, lives, answers)
            case Ended(end) =>
              end.outcome == Finished ==> HeardAt(w, lives, answers).None? && AnswersNeeded(w) == 0
            case Onward(v, _, _) =>
              && AtWork(v)
              && (HeardAt(w, lives, answers).None? ==> AnswersNeeded(v) == AnswersNeeded(w))
              && (HeardAt(w, lives, answers).Some? ==>
                    HeardAt(w, lives, answers).value.Yes? && AnswersNeeded(v) + 1 == AnswersNeeded(w))
  {
    match w.pc.value
    case Recovered(command) => RecoveredStride(w, command, lives, answers);
    case _ =>
  }

  lemma RecoveredStride(w: World, command: Command, lives: nat, answers: seq<Answer>)
    requires Inv(w) && w.pc == Some(Pc.Recovered(command)) && !command.Pair?
    ensures match StrideOf(w, lives, answers)
            case Ended(end) => end.outcome != Finished
            case Onward(v, _, _) =>
              && AtWork(v)
              && (HeardAt(w, lives, answers).None? ==> AnswersNeeded(v) == AnswersNeeded(w))
              && (HeardAt(w, lives, answers).Some? ==>
                    HeardAt(w, lives, answers).value.Yes? && AnswersNeeded(v) + 1 == AnswersNeeded(w))
  {
  }

  /** A submit, retry or status that finished heard Yes once for its rotation and for every phase left, no more. */
  lemma {:induction false} FinishedHeardEachPhase(w: World, lives: nat, answers: seq<Answer>)
    requires Inv(w) && AtWork(w) && Performed(w, lives, answers).outcome == Finished
    ensures |Heard(w, lives, answers)| == AnswersNeeded(w)
    ensures forall a :: a in Heard(w, lives, answers) ==> a.Yes?
    decreases Rank(w)
  {
    StrideOk(w, lives, answers);
    WorkStride(w, lives, answers);
    match StrideOf(w, lives, answers)
    case Ended(_) =>
    case Onward(v, left, others) => FinishedHeardEachPhase(v, left, others);
  }

  // ----- what an edited file does -----

  /** Where the last stride of a command is taken, and the lives and answers it has left by then. */
  datatype Spot = Spot(world: World, lives: nat, answers: seq<Answer>)

  function LastSpot(w: World, lives: nat, answers: seq<Answer>): (spot: Spot)
    requires Inv(w) && w.pc.Some?
    ensures Inv(spot.world) && spot.world.pc.Some?
    decreases Rank(w)
  {
    StrideOk(w, lives, answers);
    match StrideOf(w, lives, answers)
    case Ended(_) => Spot(w, lives, answers)
    case Onward(v, left, others) => LastSpot(v, left, others)
  }

  /** retry prepares the files of an unfinished document again; every command reads them while it uploads. */
  predicate Looking(spot: Spot) {
    var w := spot.world;
    && w.entry.Some?
    && match w.pc
       case Some(Recovered(command)) => command.Retry? && w.entry.value.phase != O.EVIDENCE
       case Some(Working(_)) => spot.lives > 0 && w.entry.value.phase == O.UPLOAD
       case _ => false
  }

  predicate DiscardsExactly(end: Ending, spot: Spot) {
    && (end.outcome == FileChanged <==> Looking(spot) && First(spot.answers) == FileEdited)
    && (end.outcome == FileChanged ==> end.world == spot.world.(entry := None, pc := None))
    && (end.outcome == Stopped ==>
          end.world == spot.world.(pc := None, devices := end.world.devices, serials := end.world.serials))
    && (end.outcome == Stopped && spot.answers != [] && spot.answers[0].No? ==> end.world == spot.world.(pc := None))
  }

  lemma RecoveredDiscards(w: World, command: Command, lives: nat, answers: seq<Answer>)
    requires Inv(w) && w.pc == Some(Pc.Recovered(command))
    ensures var s := StrideOf(w, lives, answers); s.Ended? ==> DiscardsExactly(s.end, Spot(w, lives, answers))
  {
  }

  lemma StrideDiscards(w: World, lives: nat, answers: seq<Answer>)
    requires Inv(w) && w.pc.Some?
    ensures var s := StrideOf(w, lives, answers); s.Ended? ==> DiscardsExactly(s.end, Spot(w, lives, answers))
  {
    match w.pc.value
    case Recovered(command) => RecoveredDiscards(w, command, lives, answers);
    case _ =>
  }

  /** A command reports a changed file, and gives its document up, exactly when a look at the files finds an edit. */
  lemma {:induction false} EditsDiscard(w: World, lives: nat, answers: seq<Answer>)
    requires Inv(w) && w.pc.Some?
    ensures DiscardsExactly(Performed(w, lives, answers), LastSpot(w, lives, answers))
    decreases Rank(w)
  {
    StrideOk(w, lives, answers);
    StrideDiscards(w, lives, answers);
    match StrideOf(w, lives, answers)
    case Ended(_) =>
    case Onward(v, left, others) => EditsDiscard(v, left, others);
  }

  // ----- what success leaves -----

  /** No marker, and no document, except that status keeps the one it found. */
  predicate ClearsUp(end: Ending, spot: Spot)
    requires spot.world.pc.Some?
  {
    && (end.outcome in {Paired, Outcome.Recovered, Finished} ==> end.world.pc.None? && NoMarkers(end.world))
    && (end.outcome in {Paired, Outcome.Recovered} ==> end.world.entry.None?)
    && (end.outcome == Finished ==>
          end.world.entry == if spot.world.pc.value.SaveRotated? then spot.world.entry else None)
  }

  lemma StrideClears(w: World, lives: nat, answers: seq<Answer>)
    requires Inv(w) && w.pc.Some?
    ensures var s := StrideOf(w, lives, answers); s.Ended? ==> ClearsUp(s.end, Spot(w, lives, answers))
  {
    match w.pc.value
    case Recovered(command) => RecoveredDiscards(w, command, lives, answers);
    case _ =>
  }

  lemma {:induction false} SuccessClearsUp(w: World, lives: nat, answers: seq<Answer>)
    requires Inv(w) && w.pc.Some?
    ensures LastSpot(w, lives, answers).world.pc.Some?
    ensures ClearsUp(Performed(w, lives, answers), LastSpot(w, lives, answers))
    decreases Rank(w)
  {
    StrideOk(w, lives, answers);
    StrideClears(w, lives, answers);
    match StrideOf(w, lives, answers)
    case Ended(_) =>
    case Onward(v, left, others) => SuccessClearsUp(v, left, others);
  }

  // ----- what an unhindered command comes to -----

  predicate HoldsEvidence(w: World) {
    w.entry.Some? && w.entry.value.phase == O.EVIDENCE
  }

  function WithCredential(w: World): Outcome {
    if w.keyring.Some? then Finished else NoCredential
  }

  /** Once replacement markers are out of the way. */
  function ExpectedAfter(w: World, command: Command): Outcome {
    match command
    case Pair =>
      if w.completion.Some? && w.stored then Outcome.Recovered
      else if HoldsEvidence(w) then Refused
      else Paired
    case Submit(_) => if w.entry.Some? then Refused else WithCredential(w)
    case Retry =>
      if w.entry.None? then Refused
      else if HoldsEvidence(w) then Finished
      else WithCredential(w)
    case Status => WithCredential(w)
  }

  /** A completed replacement has already done away with the document. */
  function Remaining(w: World): World {
    if w.replacement.Some? && w.stored then w.(entry := None) else w
  }

  /**
   * pair: refused for evidence, recovers a pairing that took effect, pairs otherwise. The others are
   * refused while a first pairing is pending; submit also by a document, retry also without one.
   */
  function Expected(w: World, command: Command): Outcome {
    if command.Pair? then
      if w.replacement.Some? && w.stored then Outcome.Recovered else ExpectedAfter(w, Pair)
    else if w.completion.Some? then Refused
    else ExpectedAfter(Remaining(w), command)
  }

  function ExpectedAt(w: World): Outcome
    requires w.pc.Some?
  {
    match w.pc.value
    case Begin(command) => Expected(w, command)
    case DropEntry(command) => if command.Pair? then Outcome.Recovered else ExpectedAfter(w.(entry := None), command)
    case DropReplacement(command, replaced) =>
      if command.Pair? && replaced then Outcome.Recovered else ExpectedAfter(w, command)
    case Recovered(command) => ExpectedAfter(w, command)
    case DropCompletion(done) => if done then Outcome.Recovered else Paired
    case Marking => if HoldsEvidence(w) then Refused else Paired
    case CallPair(_) => Paired
    case SaveCredential(_, _) => Paired
    case PairedDropEntry => Paired
    case PairedDropReplacement => Paired
    case PairedDropCompletion => Paired
    case SaveEntry(_) => WithCredential(w)
    case CallRefresh(_) => WithCredential(w)
    case SaveRotated(_, _) => Finished
    case Working(_) => Finished
    case Printing => Finished
  }

  /** The process lives and is answered Yes for long enough. */
  predicate Favourable(w: World, lives: nat, answers: seq<Answer>) {
    lives >= Rank(w) && |answers| >= Rank(w) && forall i :: 0 <= i < Rank(w) ==> answers[i].Yes?
  }

  predicate StrideAsExpected(w: World, lives: nat, answers: seq<Answer>)
    requires Inv(w) && w.pc.Some?
  {
    match StrideOf(w, lives, answers)
    case Ended(end) => end.outcome == ExpectedAt(w)
    case Onward(v, left, others) =>
      && v.pc.Some? && ExpectedAt(v) == ExpectedAt(w)
      && left + 1 >= lives
      && (others == answers || (answers != [] && others == answers[1..]))
  }

  lemma BeginAsExpected(w: World, command: Command, lives: nat, answers: seq<Answer>)
    requires Inv(w) && w.pc == Some(Begin(command))
    ensures StrideAsExpected(w, lives, answers)
  {
  }

  lemma RecoveredAsExpected(w: World, command: Command, lives: nat, answers: seq<Answer>)
    requires Inv(w) && w.pc == Some(Pc.Recovered(command)) && answers != [] && answers[0].Yes?
    ensures StrideAsExpected(w, lives, answers)
  {
  }

  lemma DurableAsExpected(w: World, lives: nat, answers: seq<Answer>)
    requires Inv(w) && w.pc.Some? && Local(w.pc.value) && lives > 0
    requires !w.pc.value.Begin? && !w.pc.value.Recovered?
    ensures StrideAsExpected(w, lives, answers)
  {
  }

  lemma StridesAsExpected(w: World, lives: nat, answers: seq<Answer>)
    requires Inv(w) && w.pc.Some? && lives > 0 && answers != [] && answers[0].Yes?
    ensures StrideAsExpected(w, lives, answers)
  {
    match w.pc.value
    case Begin(command) => BeginAsExpected(w, command, lives, answers);
    case Recovered(command) => RecoveredAsExpected(w, command, lives, answers);
    case CallPair(_) =>
    case CallRefresh(_) =>
    case Working(_) =>
    case _ => DurableAsExpected(w, lives, answers);
  }

  lemma RankPositive(w: World)
    requires w.pc.Some?
    ensures Rank(w) > 0
  {
  }

  /** With enough favourable outcomes every command succeeds, or is refused for what it finds. */
  lemma {:induction false} CommandsSucceed(w: World, lives: nat, answers: seq<Answer>)
    requires Inv(w) && w.pc.Some? && Favourable(w, lives, answers)
    ensures Performed(w, lives, answers).outcome == ExpectedAt(w)
    decreases Rank(w)
  {
    RankPositive(w);
    StrideOk(w, lives, answers);
    StridesAsExpected(w, lives, answers);
    match StrideOf(w, lives, answers)
    case Ended(_) =>
    case Onward(v, left, others) =>
      assert others == answers || forall i :: 0 <= i < |others| ==> others[i] == answers[i + 1];
      CommandsSucceed(v, left, others);
  }

  /** From an idle workstation: twenty effects and twenty answers are enough for any command. */
  lemma IdleCommandsSucceed(w: World, command: Command, lives: nat, answers: seq<Answer>)
    requires Inv(w) && w.pc.None? && lives >= 20 && |answers| >= 20
    requires forall i :: 0 <= i < 20 ==> answers[i].Yes?
    ensures Inv(After(w, Start(command)))
    ensures Performed(After(w, Start(command)), lives, answers).outcome == Expected(w, command)
  {
    StepKeepsInv(w, Start(command));
    CommandsSucceed(After(w, Start(command)), lives, answers);
  }
}
