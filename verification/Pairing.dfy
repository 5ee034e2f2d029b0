/**
 * Pairing a workstation again, next to submit, retry and status: durable effects one at a time, with
 * a crash possible between any two of them. One process at a time holds the operation lock.
 */
module Pairing {
  import opened Common
  import opened Outbox

  /** A refresh credential of a device; serials never repeat. */
  datatype Token = Token(device: nat, serial: nat)

  /** The outbox document as far as pairing is concerned: the device whose job its remote ids name. */
  datatype Document = Document(name: nat, phase: Phase, device: Option<nat>)

  /** The stored fingerprint of the credential at the time, if there was one, and the document to replace. */
  datatype ReplacementMarker = ReplacementMarker(before: Option<Token>, name: nat)

  datatype Command = Pair | Submit(name: nat) | Retry | Status

  /** The next durable effect of the running command. */
  datatype Pc =
    | Begin(command: Command)
    | DropEntry(command: Command)
    | DropReplacement(command: Command, replaced: bool)
    | Recovered(command: Command)
    | DropCompletion(done: bool)
    | Marking
    | CallPair(replace: bool)
    | SaveCredential(replace: bool, token: Token)
    | PairedDropEntry
    | PairedDropReplacement
    | PairedDropCompletion
    | SaveEntry(name: nat)
    | CallRefresh(resume: bool)
    | SaveRotated(resume: bool, token: Token)
    | Working(device: nat)
    | Printing

  /** devices and serials are the server's counters; stored says that the pairing behind a marker took effect. */
  datatype World = World(
    entry: Option<Document>,
    replacement: Option<ReplacementMarker>,
    completion: Option<Option<Token>>,
    keyring: Option<Token>,
    devices: nat,
    serials: nat,
    stored: bool,
    pc: Option<Pc>)

  const FIRST := World(None, None, None, None, 0, 0, false, None)

  datatype Move =
    | Start(command: Command)
    | Go
    | Grant(answered: bool)
    | Rotate(answered: bool)
    | Others
    | Bind
    | Progress(phase: Phase)
    | Discard
    | Finish
    | Crash

  function CredentialWasReplaced(before: Option<Token>, current: Option<Token>): bool {
    (before.None? && current.Some?) || (before.Some? && current.Some? && current != before)
  }

  function At(w: World, pc: Pc): World {
    w.(pc := Some(pc))
  }

  function End(w: World): World {
    w.(pc := None)
  }

  // ----- the local steps, named after the functions they belong to -----

  /** What a command finds first: another command's marker, or a clear way. */
  function Begun(w: World, command: Command): World {
    if !command.Pair? && w.completion.Some? then End(w)
    else if w.replacement.None? then At(w, Recovered(command))
    else
      var marker := w.replacement.value;
      var replaced := CredentialWasReplaced(marker.before, w.keyring);
      if replaced && w.entry.Some? && w.entry.value.name == marker.name then At(w, DropEntry(command))
      else At(w, DropReplacement(command, replaced))
  }

  function AfterRecovery(w: World, command: Command): World {
    match command
    case Pair =>
      if w.completion.Some? then At(w, DropCompletion(CredentialWasReplaced(w.completion.value, w.keyring)))
      else At(w, Marking)
    case Submit(name) => if w.entry.Some? then End(w) else At(w, SaveEntry(name))
    case Retry =>
      if w.entry.None? then End(w)
      else if w.entry.value.phase == EVIDENCE then At(w, Printing)
      else At(w, CallRefresh(true))
    case Status => At(w, CallRefresh(false))
  }

  function Marked(w: World): World {
    if w.entry.None? then
      w.(completion := Some(w.keyring), stored := false, pc := Some(CallPair(false)))
    else if w.entry.value.phase == EVIDENCE then End(w)
    else
      w.(replacement := Some(ReplacementMarker(w.keyring, w.entry.value.name)), stored := false,
         pc := Some(CallPair(true)))
  }

  function Gone(w: World): World
    requires w.pc.Some?
  {
    match w.pc.value
    case Begin(command) => Begun(w, command)
    case DropEntry(command) => At(w.(entry := None), DropReplacement(command, true))
    case DropReplacement(command, replaced) =>
      var v := w.(replacement := None);
      if command.Pair? && replaced then End(v) else At(v, Recovered(command))
    case Recovered(command) => AfterRecovery(w, command)
    case DropCompletion(done) =>
      var v := w.(completion := None);
      if done then End(v) else At(v, Marking)
    case Marking => Marked(w)
    case SaveCredential(replace, token) =>
      At(w.(keyring := Some(token), stored := true), if replace then PairedDropEntry else PairedDropCompletion)
    case PairedDropEntry => At(w.(entry := None), PairedDropReplacement)
    case PairedDropReplacement => End(w.(replacement := None))
    case PairedDropCompletion => End(w.(completion := None))
    case SaveEntry(name) => At(w.(entry := Some(Document(name, CREATE, None))), CallRefresh(true))
    case SaveRotated(resume, token) =>
      var v := w.(keyring := Some(token));
      if resume then At(v, Working(token.device)) else End(v)
    case Printing => End(w.(entry := None))
    case CallPair(_) => w
    case CallRefresh(_) => w
    case Working(_) => w
  }

  predicate Local(pc: Pc) {
    !pc.CallPair? && !pc.CallRefresh? && !pc.Working?
  }

  predicate May(w: World, m: Move) {
    match m
    case Start(_) => w.pc.None?
    case Go => w.pc.Some? && Local(w.pc.value)
    case Grant(_) => w.pc.Some? && w.pc.value.CallPair?
    case Rotate(_) => w.pc.Some? && w.pc.value.CallRefresh? && w.keyring.Some?
    case Others => true
    case Bind => w.pc.Some? && w.pc.value.Working? && w.entry.Some? && w.entry.value.phase == CREATE
    case Progress(phase) =>
      w.pc.Some? && w.pc.value.Working? && w.entry.Some? && w.entry.value.phase in {UPLOAD, SUBMIT}
          && phase in {UPLOAD, SUBMIT, EVIDENCE}
    case Discard =>
      && w.pc.Some? && (w.pc.value.Working? || w.pc.value == CallRefresh(true))
      && w.entry.Some? && w.entry.value.phase != EVIDENCE
    case Finish => w.pc.Some? && w.pc.value.Working? && w.entry.Some? && w.entry.value.phase == EVIDENCE
    case Crash => w.pc.Some?
  }

  /**
   * Others is a pairing or rotation elsewhere. Crash is also every refusal, failure and unanswered call:
   * the process ends, the disk stays.
   */
  function After(w: World, m: Move): World
    requires May(w, m)
  {
    match m
    case Start(command) => At(w, Begin(command))
    case Go => Gone(w)
    case Grant(answered) =>
      w.(devices := w.devices + 1,
         serials := w.serials + 1,
         pc := if answered then Some(SaveCredential(w.pc.value.replace, Token(w.devices, w.serials))) else None)
    case Rotate(answered) =>
      w.(serials := w.serials + 1,
         pc := if answered then Some(SaveRotated(w.pc.value.resume, Token(w.keyring.value.device, w.serials)))
               else None)
    case Others => w.(devices := w.devices + 1, serials := w.serials + 1)
    case Bind => w.(entry := Some(w.entry.value.(phase := UPLOAD, device := Some(w.pc.value.device))))
    case Progress(phase) => w.(entry := Some(w.entry.value.(phase := phase)))
    case Discard => End(w.(entry := None))
    case Finish => End(w.(entry := None))
    case Crash => End(w)
  }

  // ----- what holds at every moment -----

  /** The credential a marker remembers. */
  function Remembered(w: World): Option<Option<Token>> {
    if w.replacement.Some? then Some(w.replacement.value.before) else w.completion
  }

  predicate MarkersInv(w: World) {
    && (w.replacement.Some? ==> w.completion.None?)
    && (w.completion.Some? ==> w.entry.None?)
    && (w.replacement.Some? && w.entry.Some? ==>
          w.entry.value.name == w.replacement.value.name && w.entry.value.phase != EVIDENCE)
  }

  predicate Known(w: World, token: Token) {
    token.device < w.devices && token.serial < w.serials
  }

  /** A marker compares as replaced exactly when the pairing it was written for has stored its credential. */
  predicate CredentialInv(w: World) {
    && (w.keyring.Some? ==> Known(w, w.keyring.value))
    && (Remembered(w).Some? && Remembered(w).value.Some? ==> Known(w, Remembered(w).value.value))
    && (Remembered(w).Some? ==>
          if w.stored then CredentialWasReplaced(Remembered(w).value, w.keyring) else w.keyring == Remembered(w).value)
  }

  /** The keyring is the device of the document, unless a pairing has replaced it and its marker says so. */
  predicate BindingInv(w: World) {
    && (w.entry.Some? ==> (w.entry.value.device.None? <==> w.entry.value.phase == CREATE))
    && (w.entry.Some? && w.entry.value.device.Some? ==>
          || (w.replacement.Some? && w.stored)
          || (w.keyring.Some? && w.keyring.value.device == w.entry.value.device.value))
  }

  predicate NoMarkers(w: World) {
    w.replacement.None? && w.completion.None?
  }

  predicate Clear(w: World, command: Command) {
    w.replacement.None? && (!command.Pair? ==> w.completion.None?)
  }

  predicate PcInv(w: World, pc: Pc) {
    match pc
    case Begin(_) => true
    case DropEntry(command) => w.replacement.Some? && w.stored
    case DropReplacement(command, replaced) =>
      w.replacement.Some? && replaced == w.stored && (replaced ==> w.entry.None?)
    case Recovered(command) => Clear(w, command)
    case DropCompletion(done) => w.replacement.None? && w.completion.Some? && done == w.stored
    case Marking => NoMarkers(w)
    case CallPair(replace) => !w.stored && if replace then w.replacement.Some? && w.entry.Some? else w.completion.Some?
    case SaveCredential(replace, token) =>
      && !w.stored
      && (if replace then w.replacement.Some? && w.entry.Some? else w.completion.Some?)
      && Known(w, token)
      && (w.keyring.Some? ==> w.keyring.value != token && w.keyring.value.device != token.device)
    case PairedDropEntry => w.replacement.Some? && w.stored
    case PairedDropReplacement => w.replacement.Some? && w.entry.None?
    case PairedDropCompletion => w.completion.Some?
    case SaveEntry(_) => NoMarkers(w) && w.entry.None?
    case CallRefresh(resume) => NoMarkers(w) && (resume ==> w.entry.Some?)
    case SaveRotated(resume, token) =>
      && NoMarkers(w) && Known(w, token) && w.keyring.Some? && w.keyring.value.device == token.device
      && (resume ==> w.entry.Some?)
    case Working(device) => NoMarkers(w) && w.keyring.Some? && w.keyring.value.device == device && w.entry.Some?
    case Printing => NoMarkers(w) && w.entry.Some? && w.entry.value.phase == EVIDENCE
  }

  predicate Inv(w: World) {
    && MarkersInv(w) && CredentialInv(w) && BindingInv(w)
    && (w.pc.Some? ==> PcInv(w, w.pc.value))
  }

  lemma StepKeepsInv(w: World, m: Move)
    requires Inv(w) && May(w, m)
    ensures Inv(After(w, m))
  {
    if m.Go? {
      GoKeepsInv(w);
    }
  }

  lemma BeginKeepsInv(w: World, command: Command)
    requires Inv(w) && w.pc == Some(Begin(command))
    ensures Inv(Begun(w, command))
  {
  }

  lemma RecoveryKeepsInv(w: World, command: Command)
    requires Inv(w) && w.pc == Some(Recovered(command))
    ensures Inv(AfterRecovery(w, command))
  {
  }

  lemma MarkingKeepsInv(w: World)
    requires Inv(w) && w.pc == Some(Marking)
    ensures Inv(Marked(w))
  {
  }

  lemma GoKeepsInv(w: World)
    requires Inv(w) && w.pc.Some? && Local(w.pc.value)
    ensures Inv(Gone(w))
  {
    match w.pc.value
    case Begin(command) => BeginKeepsInv(w, command);
    case Recovered(command) => RecoveryKeepsInv(w, command);
    case Marking => MarkingKeepsInv(w);
    case _ =>
  }

  // ----- whole runs -----

  predicate IsRun(worlds: seq<World>, moves: seq<Move>) {
    && |worlds| == |moves| + 1
    && worlds[0] == FIRST
    && forall i :: 0 <= i < |moves| ==> May(worlds[i], moves[i]) && worlds[i + 1] == After(worlds[i], moves[i])
  }

  lemma {:induction false} ReachableInv(worlds: seq<World>, moves: seq<Move>, i: nat)
    requires IsRun(worlds, moves) && i < |worlds|
    ensures Inv(worlds[i])
  {
    if i > 0 {
      ReachableInv(worlds, moves, i - 1);
      StepKeepsInv(worlds[i - 1], moves[i - 1]);
    }
  }

  /** A document with remote ids is only ever resumed with the credential of the device that made its job. */
  lemma ResumedByItsDevice(worlds: seq<World>, moves: seq<Move>, i: nat)
    requires IsRun(worlds, moves) && i < |worlds|
    requires var w := worlds[i]; w.pc.Some? && w.pc.value.Working? && w.entry.Some? && w.entry.value.device.Some?
    ensures worlds[i].entry.value.device.value == worlds[i].pc.value.device
  {
    ReachableInv(worlds, moves, i);
  }

  /** There is at most one marker; under one, no credential is rotated and no document is made or worked on. */
  lemma MarkersExcludeWork(worlds: seq<World>, moves: seq<Move>, i: nat)
    requires IsRun(worlds, moves) && i < |moves|
    ensures worlds[i].replacement.None? || worlds[i].completion.None?
    ensures moves[i].Rotate? || moves[i].Bind? || moves[i].Progress? ==> NoMarkers(worlds[i])
    ensures worlds[i].entry.None? && worlds[i + 1].entry.Some? ==> NoMarkers(worlds[i])
  {
    ReachableInv(worlds, moves, i);
  }

  /** So a marker whose fingerprint no longer matches means a completed pairing, and nothing else. */
  lemma ReplacedMeansPaired(worlds: seq<World>, moves: seq<Move>, i: nat)
    requires IsRun(worlds, moves) && i < |worlds| && Remembered(worlds[i]).Some?
    ensures CredentialWasReplaced(Remembered(worlds[i]).value, worlds[i].keyring) <==> worlds[i].stored
  {
    ReachableInv(worlds, moves, i);
  }

  /** Pairing and recovery never delete a document that holds evidence. */
  lemma EvidenceSurvivesPairing(worlds: seq<World>, moves: seq<Move>, i: nat)
    requires IsRun(worlds, moves) && i < |moves| && moves[i].Go?
    requires worlds[i].entry.Some? && worlds[i].entry.value.phase == EVIDENCE
    requires !worlds[i].pc.value.Printing?
    ensures worlds[i + 1].entry == worlds[i].entry
  {
    ReachableInv(worlds, moves, i);
  }

  // ----- what becomes of a rotated token -----

  /** The process died between the answer of rotation i and its save; a program counter names its own token. */
  predicate DiedUnsaved(worlds: seq<World>, moves: seq<Move>, i: nat, n: nat)
    requires i < |moves| && n < |worlds| == |moves| + 1
  {
    exists m :: i < m < n && moves[m].Crash? && worlds[m].pc == worlds[i + 1].pc
  }

  /** The keyring, and whatever is about to be saved there, is at least this new. */
  predicate Newer(w: World, serial: nat) {
    && w.keyring.Some? && serial <= w.keyring.value.serial && serial <= w.serials
    && (w.pc.Some? && w.pc.value.SaveRotated? ==> serial <= w.pc.value.token.serial)
    && (w.pc.Some? && w.pc.value.SaveCredential? ==> serial <= w.pc.value.token.serial)
  }

  lemma NewerStep(w: World, m: Move, serial: nat)
    requires Inv(w) && May(w, m) && Newer(w, serial)
    ensures Newer(After(w, m), serial)
  {
  }

  /** A rotated token of at least this serial waits to be saved. */
  predicate Unsaved(w: World, pc: Option<Pc>, serial: nat) {
    w.pc == pc && pc.Some? && pc.value.SaveRotated? && serial <= pc.value.token.serial && serial <= w.serials
  }

  lemma UnsavedStep(w: World, m: Move, pc: Option<Pc>, serial: nat)
    requires Inv(w) && May(w, m) && Unsaved(w, pc, serial)
    ensures m.Crash? || Unsaved(After(w, m), pc, serial) || Newer(After(w, m), serial)
  {
  }

  lemma RotatedUnsaved(w: World)
    requires May(w, Rotate(true))
    ensures Unsaved(After(w, Rotate(true)), After(w, Rotate(true)).pc, w.serials)
  {
  }

  lemma {:induction false} RotationIsSaved(worlds: seq<World>, moves: seq<Move>, i: nat, n: nat)
    requires IsRun(worlds, moves) && i < n < |worlds| && moves[i] == Rotate(true)
    ensures DiedUnsaved(worlds, moves, i, n) || Unsaved(worlds[n], worlds[i + 1].pc, worlds[i].serials)
            || Newer(worlds[n], worlds[i].serials)
    decreases n
  {
    if i + 1 == n {
      RotatedUnsaved(worlds[i]);
    } else {
      var w, m, pc, serial := worlds[n - 1], moves[n - 1], worlds[i + 1].pc, worlds[i].serials;
      RotationIsSaved(worlds, moves, i, n - 1);
      ReachableInv(worlds, moves, n - 1);
      if Newer(w, serial) {
        NewerStep(w, m, serial);
      } else if Unsaved(w, pc, serial) {
        UnsavedStep(w, m, pc, serial);
      }
    }
  }

  /**
   * A refresh token is sent a second time only after its first answer was lost, or came and the process
   * died before it saved the new one: the server accepts it once.
   */
  lemma TokenIsSpentOnce(worlds: seq<World>, moves: seq<Move>, i: nat, k: nat)
    requires IsRun(worlds, moves) && i < k < |moves| && moves[i].Rotate? && moves[k].Rotate?
    requires worlds[i].keyring == worlds[k].keyring
    ensures moves[i] == Rotate(false) || DiedUnsaved(worlds, moves, i, k)
  {
    if moves[i] == Rotate(true) {
      ReachableInv(worlds, moves, i);
      RotationIsSaved(worlds, moves, i, k);
    }
  }

  /** The local effects from here on, at most n of them, undisturbed. */
  function Undisturbed(w: World, n: nat): World
    decreases n
  {
    if n == 0 || w.pc.None? || !Local(w.pc.value) then w else Undisturbed(Gone(w), n - 1)
  }

  /**
   * A pairing that stored its credential is never lost: wherever the process died after that, the
   * next pair only clears up. It keeps the new credential and leaves no marker and no old document.
   */
  lemma CompletedPairingIsRecovered(worlds: seq<World>, moves: seq<Move>, i: nat)
    requires IsRun(worlds, moves) && i < |worlds|
    requires worlds[i].pc.None? && Remembered(worlds[i]).Some? && worlds[i].stored
    ensures Undisturbed(After(worlds[i], Start(Pair)), 4) ==
              worlds[i].(entry := None, replacement := None, completion := None)
  {
    ReachableInv(worlds, moves, i);
    var begun := Gone(After(worlds[i], Start(Pair)));
    if worlds[i].replacement.Some? {
      var dropped := if begun.pc.value.DropEntry? then Gone(begun) else begun;
      assert Undisturbed(Gone(dropped), 1) == Gone(dropped);
    } else {
      var recovered := Gone(begun);
      var dropped := Gone(recovered);
      assert Undisturbed(recovered, 2) == Undisturbed(dropped, 1);
    }
  }
}
