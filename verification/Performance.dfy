/**
 * How a pair, submit, retry or status command turns out: from where it is, how many durable effects
 * the process lives to make, and what it is answered, step by step.
 */
module Performance {
  import opened Common
  import O = Outbox
  import opened Pairing

  /** Lost is granted but not heard of; No is every refusal; FileEdited is found by a look at a local file. */
  datatype Answer = Yes | Lost | No | FileEdited

  datatype Outcome = Recovered | Paired | Refused | NoCredential | FileChanged | Stopped | Finished

  datatype Ending = Ending(world: World, outcome: Outcome, lives: nat, answers: seq<Answer>)

  datatype Stride = Onward(world: World, lives: nat, answers: seq<Answer>) | Ended(end: Ending)

  function First(answers: seq<Answer>): Answer {
    if answers == [] then No else answers[0]
  }

  function Rest(answers: seq<Answer>): seq<Answer> {
    if answers == [] then [] else answers[1..]
  }

  /** What it means that a command ends after this effect. */
  function Last(pc: Pc): Outcome {
    match pc
    case DropReplacement(_, _) => Outcome.Recovered
    case DropCompletion(_) => Outcome.Recovered
    case PairedDropReplacement => Paired
    case PairedDropCompletion => Paired
    case _ => Finished
  }

  /** An effect on disk or keyring; the process may be killed before. */
  function Durable(w: World, lives: nat, answers: seq<Answer>): Stride
    requires w.pc.Some? && Local(w.pc.value)
  {
    if lives == 0 then Ended(Ending(End(w), Stopped, 0, answers))
    else if Gone(w).pc.None? then Ended(Ending(Gone(w), Last(w.pc.value), lives - 1, answers))
    else Onward(Gone(w), lives - 1, answers)
  }

  /** A step that changes nothing outside the process. */
  function Internal(v: World, lives: nat, answers: seq<Answer>): Stride {
    if v.pc.None? then Ended(Ending(v, Refused, lives, answers)) else Onward(v, lives, answers)
  }

  /** retry prepares the manifest again before anything else. */
  function Prepared(v: World, lives: nat, answers: seq<Answer>): Stride {
    match First(answers)
    case Yes => Onward(v, lives, Rest(answers))
    case FileEdited => Ended(Ending(End(v.(entry := None)), FileChanged, lives, Rest(answers)))
    case _ => Ended(Ending(End(v), Stopped, lives, Rest(answers)))
  }

  function Granted(w: World, answer: Answer): World
    requires w.pc.Some? && (w.pc.value.CallPair? || (w.pc.value.CallRefresh? && w.keyring.Some?))
  {
    if answer.No? || answer.FileEdited? then End(w)
    else if w.pc.value.CallPair? then After(w, Grant(answer.Yes?))
    else After(w, Rotate(answer.Yes?))
  }

  function Called(w: World, lives: nat, answers: seq<Answer>): Stride
    requires w.pc.Some? && (w.pc.value.CallPair? || (w.pc.value.CallRefresh? && w.keyring.Some?))
  {
    var v := Granted(w, First(answers));
    if v.pc.None? then Ended(Ending(v, Stopped, lives, Rest(answers))) else Onward(v, lives, Rest(answers))
  }

  function NextPhase(phase: O.Phase): O.Phase {
    match phase
    case CREATE => O.UPLOAD
    case UPLOAD => O.SUBMIT
    case _ => O.EVIDENCE
  }

  function Advanced(e: Document, device: nat): Document {
    e.(phase := NextPhase(e.phase), device := if e.phase == O.CREATE then Some(device) else e.device)
  }

  /** One phase of the document, or its end. */
  function Worked(w: World, device: nat, lives: nat, answers: seq<Answer>): Stride
    requires w.entry.Some?
  {
    if lives == 0 then Ended(Ending(End(w), Stopped, 0, answers))
    else if w.entry.value.phase == O.EVIDENCE then
      Ended(Ending(End(w.(entry := None)), Finished, lives - 1, answers))
    else WorkedAlive(w, device, lives - 1, answers)
  }

  function WorkedAlive(w: World, device: nat, lives: nat, answers: seq<Answer>): Stride
    requires w.entry.Some?
  {
    if First(answers) == FileEdited && w.entry.value.phase == O.UPLOAD then
      Ended(Ending(End(w.(entry := None)), FileChanged, lives, Rest(answers)))
    else if First(answers) == Yes then
      Onward(w.(entry := Some(Advanced(w.entry.value, device))), lives, Rest(answers))
    else
      Ended(Ending(End(w), Stopped, lives, Rest(answers)))
  }

  function StrideOf(w: World, lives: nat, answers: seq<Answer>): Stride
    requires Inv(w) && w.pc.Some?
  {
    match w.pc.value
    case Begin(command) => Internal(Begun(w, command), lives, answers)
    case Recovered(command) =>
      var v := AfterRecovery(w, command);
      if command.Retry? && v.pc == Some(CallRefresh(true)) then Prepared(v, lives, answers)
      else Internal(v, lives, answers)
    case Marking =>
      if Marked(w).pc.None? then Internal(Marked(w), lives, answers) else Durable(w, lives, answers)
    case CallPair(_) => Called(w, lives, answers)
    case CallRefresh(_) =>
      if w.keyring.None? then Ended(Ending(End(w), NoCredential, lives, answers)) else Called(w, lives, answers)
    case Working(device) => Worked(w, device, lives, answers)
    case _ => Durable(w, lives, answers)
  }

  // ----- every command ends -----

  function PhaseRank(phase: O.Phase): nat {
    match phase
    case CREATE => 4
    case UPLOAD => 3
    case SUBMIT => 2
    case EVIDENCE => 1
  }

  /** More than the strides that are left. */
  function Rank(w: World): nat {
    if w.pc.None? then 0
    else match w.pc.value
      case Begin(_) => 20
      case DropEntry(_) => 19
      case DropReplacement(_, _) => 18
      case Recovered(_) => 17
      case DropCompletion(_) => 16
      case Marking => 15
      case CallPair(_) => 14
      case SaveCredential(_, _) => 13
      case PairedDropEntry => 12
      case PairedDropReplacement => 11
      case PairedDropCompletion => 11
      case SaveEntry(_) => 10
      case CallRefresh(_) => 9
      case SaveRotated(_, _) => 8
      case Working(_) => if w.entry.Some? then PhaseRank(w.entry.value.phase) else 1
      case Printing => 1
  }

  lemma WorkedOk(w: World, device: nat, lives: nat, answers: seq<Answer>)
    requires Inv(w) && w.pc == Some(Working(device)) && Worked(w, device, lives, answers).Onward?
    ensures Inv(Worked(w, device, lives, answers).world)
  {
  }

  lemma CalledOk(w: World, lives: nat, answers: seq<Answer>)
    requires Inv(w) && w.pc.Some? && (w.pc.value.CallPair? || (w.pc.value.CallRefresh? && w.keyring.Some?))
    ensures Called(w, lives, answers).Onward? ==>
              Inv(Called(w, lives, answers).world) && Rank(Called(w, lives, answers).world) < Rank(w)
  {
    if First(answers).Yes? {
      StepKeepsInv(w, if w.pc.value.CallPair? then Grant(true) else Rotate(true));
    }
  }

  lemma DurableOk(w: World, lives: nat, answers: seq<Answer>)
    requires Inv(w) && w.pc.Some? && Local(w.pc.value) && !w.pc.value.Begin? && !w.pc.value.Recovered?
    ensures Durable(w, lives, answers).Onward? ==>
              Inv(Durable(w, lives, answers).world) && Rank(Durable(w, lives, answers).world) < Rank(w)
  {
    GoKeepsInv(w);
  }

  lemma StrideOk(w: World, lives: nat, answers: seq<Answer>)
    requires Inv(w) && w.pc.Some?
    ensures var s := StrideOf(w, lives, answers);
      s.Onward? ==> Inv(s.world) && s.world.pc.Some? && Rank(s.world) < Rank(w)
  {
    match w.pc.value
    case Begin(command) => BeginKeepsInv(w, command);
    case Recovered(command) => RecoveryKeepsInv(w, command);
    case CallPair(_) => CalledOk(w, lives, answers);
    case CallRefresh(_) =>
      if w.keyring.Some? {
        CalledOk(w, lives, answers);
      }
    case Working(device) =>
      if Worked(w, device, lives, answers).Onward? {
        WorkedOk(w, device, lives, answers);
      }
    case _ => DurableOk(w, lives, answers);
  }

  function Performed(w: World, lives: nat, answers: seq<Answer>): Ending
    requires Inv(w) && w.pc.Some?
    decreases Rank(w)
  {
    StrideOk(w, lives, answers);
    match StrideOf(w, lives, answers)
    case Ended(end) => end
    case Onward(v, left, others) => Performed(v, left, others)
  }

  /** What an effect leaves to do. */
  predicate Leads(v: World, lives: nat, answers: seq<Answer>, last: Outcome, end: Ending) {
    if v.pc.None? then end == Ending(v, last, lives, answers)
    else Inv(v) && Performed(v, lives, answers) == end
  }

  lemma DurableOne(w: World, lives: nat, answers: seq<Answer>)
    requires Inv(w) && w.pc.Some? && Local(w.pc.value) && !w.pc.value.Begin? && !w.pc.value.Recovered?
    requires w.pc.value.Marking? ==> Marked(w).pc.Some?
    ensures var end := Performed(w, lives, answers);
      if lives == 0 then end == Ending(End(w), Stopped, 0, answers)
      else Leads(Gone(w), lives - 1, answers, Last(w.pc.value), end)
  {
    DurableOk(w, lives, answers);
  }

  lemma CalledOne(w: World, lives: nat, answers: seq<Answer>)
    requires Inv(w) && w.pc.Some? && (w.pc.value.CallPair? || (w.pc.value.CallRefresh? && w.keyring.Some?))
    ensures Leads(Granted(w, First(answers)), lives, Rest(answers), Stopped, Performed(w, lives, answers))
  {
    CalledOk(w, lives, answers);
  }

  predicate StrideLeads(s: Stride, end: Ending) {
    match s
    case Ended(reached) => end == reached
    case Onward(v, left, others) => Inv(v) && v.pc.Some? && end == Performed(v, left, others)
  }

  lemma WorkedOne(w: World, device: nat, lives: nat, answers: seq<Answer>)
    requires Inv(w) && w.pc == Some(Working(device))
    ensures StrideLeads(Worked(w, device, lives, answers), Performed(w, lives, answers))
  {
    if Worked(w, device, lives, answers).Onward? {
      WorkedOk(w, device, lives, answers);
    }
  }

  /** The steps that only look: where a command begins, what follows recovery, evidence in the way. */
  lemma InternalOne(w: World, lives: nat, answers: seq<Answer>)
    requires Inv(w) && w.pc.Some? && StrideOf(w, lives, answers) == Internal(Gone(w), lives, answers)
    requires Local(w.pc.value)
    ensures Leads(Gone(w), lives, answers, Refused, Performed(w, lives, answers))
  {
    StrideOk(w, lives, answers);
  }

  /** retry after recovery, with a document to go on with. */
  lemma PreparedOne(w: World, lives: nat, answers: seq<Answer>)
    requires Inv(w) && w.pc == Some(Pc.Recovered(Retry)) && w.entry.Some? && w.entry.value.phase != O.EVIDENCE
    ensures var v, end := w.(pc := Some(CallRefresh(true))), Performed(w, lives, answers);
      && Gone(w) == v && Inv(v)
      && match First(answers)
         case Yes => end == Performed(v, lives, Rest(answers))
         case FileEdited => end == Ending(End(v.(entry := None)), FileChanged, lives, Rest(answers))
         case _ => end == Ending(End(v), Stopped, lives, Rest(answers))
  {
    RecoveryKeepsInv(w, Retry);
  }
}
