/** The pair, submit, retry and status commands, in their own order of effects. */
module Workstation {
  import opened Common
  import O = Outbox
  import opened Pairing
  import opened Performance

  datatype Recovery = NothingFound | Found(replaced: bool) | Killed

  ghost predicate Reaches(w: World, moves: seq<Move>, v: World)
    decreases |moves|
  {
    if moves == [] then v == w else Pairing.May(w, moves[0]) && Reaches(Pairing.After(w, moves[0]), moves[1..], v)
  }

  lemma {:induction false} ReachesFurther(w: World, moves: seq<Move>, v: World, m: Move)
    requires Reaches(w, moves, v) && Pairing.May(v, m)
    ensures Reaches(w, moves + [m], Pairing.After(v, m))
    decreases |moves|
  {
    if moves == [] {
      assert moves + [m] == [m] && [m][1..] == [];
    } else {
      ReachesFurther(Pairing.After(w, moves[0]), moves[1..], v, m);
      assert (moves + [m])[1..] == moves[1..] + [m];
    }
  }

  /**
   * One origin on one machine, and the server's counters. lives counts the durable effects until the
   * process is killed; answers is what it will hear. Every method is given the ending that these call
   * for, and either brings the command closer to it or has reached it.
   */
  class Station {
    var entry: Option<Document>
    var replacement: Option<ReplacementMarker>
    var completion: Option<Option<Token>>
    var keyring: Option<Token>
    var devices: nat
    var serials: nat
    var lives: nat
    var answers: seq<Answer>
    ghost var stored: bool
    ghost var first: World
    ghost var moves: seq<Move>

    constructor (lives: nat, answers: seq<Answer>)
      ensures InWorld(None) && first == FIRST && moves == []
    {
      entry, replacement, completion, keyring, devices, serials := None, None, None, None, 0, 0;
      this.lives, this.answers := lives, answers;
      stored, first, moves := false, FIRST, [];
    }

    ghost function Here(pc: Option<Pc>): World
      reads this
    {
      World(entry, replacement, completion, keyring, devices, serials, stored, pc)
    }

    /** Everything done so far is a run of the pairing machine that leads to this state and point. */
    ghost predicate InWorld(pc: Option<Pc>)
      reads this
    {
      Inv(first) && Reaches(first, moves, Here(pc)) && Inv(Here(pc))
    }

    /** At this point, with this ending ahead. */
    ghost predicate Due(pc: Pc, end: Ending)
      reads this
    {
      InWorld(Some(pc)) && Performed(Here(Some(pc)), lives, answers) == end
    }

    ghost predicate Over(outcome: Outcome, end: Ending)
      reads this
    {
      InWorld(None) && end == Ending(Here(None), outcome, lives, answers)
    }

    /** A durable effect has just been done: it was this move of the machine. */
    ghost method Note(was: World, m: Move)
      requires Inv(first) && Reaches(first, moves, was) && Inv(was) && Pairing.May(was, m)
      modifies this`moves
      ensures Reaches(first, moves, Pairing.After(was, m)) && Inv(Pairing.After(was, m))
    {
      ReachesFurther(first, moves, was, m);
      StepKeepsInv(was, m);
      moves := moves + [m];
    }

    /** Whether the process lives to the next durable effect, and what follows if it does. */
    method Survives(ghost pc: Pc, ghost end: Ending) returns (alive: bool)
      requires Due(pc, end) && Local(pc) && !pc.Begin? && !pc.Recovered?
      requires pc.Marking? ==> Marked(Here(Some(pc))).pc.Some?
      modifies this`lives, this`moves
      ensures alive ==> InWorld(Some(pc)) && Leads(Gone(Here(Some(pc))), lives, answers, Last(pc), end)
      ensures !alive ==> Over(Stopped, end)
    {
      DurableOne(Here(Some(pc)), lives, answers);
      alive := lives > 0;
      if alive {
        lives := lives - 1;
      } else {
        Note(Here(Some(pc)), Crash);
      }
    }

    method Ask() returns (a: Answer)
      modifies this`answers
      ensures a == First(old(answers)) && answers == Rest(old(answers))
    {
      if answers == [] {
        return No;
      }
      a := answers[0];
      answers := answers[1..];
    }

    // ----- single effects -----

    method UnlinkEntry(ghost command: Command, ghost end: Ending) returns (alive: bool)
      requires Due(DropEntry(command), end)
      modifies this`entry, this`lives, this`moves
      ensures if alive then entry.None? && Due(DropReplacement(command, true), end) else Over(Stopped, end)
    {
      alive := Survives(DropEntry(command), end);
      if alive {
        ghost var was := Here(Some(DropEntry(command)));
        entry := None;
        Note(was, Go);
      }
    }

    method UnlinkReplacement(ghost command: Command, ghost replaced: bool, ghost end: Ending) returns (alive: bool)
      requires Due(DropReplacement(command, replaced), end)
      modifies this`replacement, this`lives, this`moves
      ensures !alive ==> Over(Stopped, end)
      ensures alive ==> replacement.None?
      ensures alive ==>
                if command.Pair? && replaced then Over(Outcome.Recovered, end) else Due(Pc.Recovered(command), end)
    {
      alive := Survives(DropReplacement(command, replaced), end);
      if alive {
        ghost var was := Here(Some(DropReplacement(command, replaced)));
        replacement := None;
        Note(was, Go);
      }
    }

    method UnlinkCompletion(ghost done: bool, ghost end: Ending) returns (alive: bool)
      requires Due(DropCompletion(done), end)
      modifies this`completion, this`lives, this`moves
      ensures !alive ==> Over(Stopped, end)
      ensures alive ==> completion.None? && if done then Over(Outcome.Recovered, end) else Due(Marking, end)
    {
      alive := Survives(DropCompletion(done), end);
      if alive {
        ghost var was := Here(Some(DropCompletion(done)));
        completion := None;
        Note(was, Go);
      }
    }

    // ----- the shared beginnings -----

    /** Takes a step that only looks, and that does not refuse the command. */
    ghost method Look(pc: Pc, next: Pc, end: Ending)
      requires Due(pc, end) && Local(pc) && Gone(Here(Some(pc))) == Here(Some(next))
      requires StrideOf(Here(Some(pc)), lives, answers) == Internal(Gone(Here(Some(pc))), lives, answers)
      modifies this`moves
      ensures Due(next, end)
    {
      InternalOne(Here(Some(pc)), lives, answers);
      Note(Here(Some(pc)), Go);
    }

    ghost method LookAndRefuse(pc: Pc, end: Ending)
      requires Due(pc, end) && Local(pc) && Gone(Here(Some(pc))) == Here(None)
      requires StrideOf(Here(Some(pc)), lives, answers) == Internal(Gone(Here(Some(pc))), lives, answers)
      modifies this`moves
      ensures Over(Refused, end)
    {
      InternalOne(Here(Some(pc)), lives, answers);
      Note(Here(Some(pc)), Go);
    }

    /** Clears up after an interrupted replacement; pair itself keeps the marker until it has reported. */
    method RecoverReplacement(command: Command, ghost end: Ending) returns (r: Recovery)
      requires Due(Begin(command), end) && (command.Pair? || completion.None?)
      modifies this`entry, this`replacement, this`lives, this`moves
      ensures r.NothingFound? <==> old(replacement).None?
      ensures r.NothingFound? ==> entry == old(entry)
      ensures r.Found? ==>
                && old(replacement).Some?
                && r.replaced == CredentialWasReplaced(old(replacement).value.before, keyring)
                && entry == (if r.replaced then None else old(entry))
      ensures r.Killed? ==> Over(Stopped, end)
      ensures !r.Killed? ==>
                if command.Pair? && r == Found(true) then Due(DropReplacement(Pair, true), end)
                else Due(Pc.Recovered(command), end)
    {
      if replacement.None? {
        Look(Begin(command), Pc.Recovered(command), end);
        return NothingFound;
      }
      var marker := replacement.value;
      var replaced := CredentialWasReplaced(marker.before, keyring);
      if replaced && entry.Some? && entry.value.name == marker.name {
        Look(Begin(command), DropEntry(command), end);
        var alive := UnlinkEntry(command, end);
        if !alive {
          return Killed;
        }
      } else {
        Look(Begin(command), DropReplacement(command, replaced), end);
      }
      if replaced && command.Pair? {
        return Found(true);
      }
      var alive := UnlinkReplacement(command, replaced, end);
      r := if alive then Found(replaced) else Killed;
    }

    /** Clears up after an interrupted first pairing; pair keeps the marker until it has reported. */
    method RecoverInitialPair(ghost end: Ending) returns (r: Recovery)
      requires Due(Pc.Recovered(Pair), end)
      modifies this`completion, this`lives, this`moves
      ensures r.NothingFound? ==> old(completion).None?
      ensures r.Found? ==> old(completion).Some? && r.replaced == CredentialWasReplaced(old(completion).value, keyring)
      ensures r.Killed? ==> Over(Stopped, end)
      ensures !r.Killed? ==> if r == Found(true) then Due(DropCompletion(true), end) else Due(Marking, end)
    {
      if completion.None? {
        Look(Pc.Recovered(Pair), Marking, end);
        return NothingFound;
      }
      var replaced := CredentialWasReplaced(completion.value, keyring);
      Look(Pc.Recovered(Pair), DropCompletion(replaced), end);
      if replaced {
        return Found(true);
      }
      var alive := UnlinkCompletion(false, end);
      r := if alive then Found(false) else Killed;
    }

    // ----- pair -----

    /** Remembers the present credential before asking for another one. */
    method SaveMarker(ghost end: Ending) returns (alive: bool)
      requires Due(Marking, end) && (entry.Some? ==> entry.value.phase != O.EVIDENCE)
      modifies this`replacement, this`completion, this`stored, this`lives, this`moves
      ensures if alive then Due(CallPair(entry.Some?), end) else Over(Stopped, end)
    {
      alive := Survives(Marking, end);
      if alive {
        ghost var was := Here(Some(Marking));
        if entry.Some? {
          replacement := Some(ReplacementMarker(keyring, entry.value.name));
        } else {
          completion := Some(keyring);
        }
        stored := false;
        Note(was, Go);
      }
    }

    /** Asks the server for a new device: refused, granted without an answer, or granted. */
    method CallForPair(replace: bool, ghost end: Ending) returns (token: Option<Token>)
      requires Due(CallPair(replace), end)
      modifies this`devices, this`serials, this`answers, this`moves
      ensures token.Some? ==>
                token.value == Token(old(devices), old(serials)) && Due(SaveCredential(replace, token.value), end)
      ensures token.None? ==> Over(Stopped, end)
    {
      ghost var was := Here(Some(CallPair(replace)));
      CalledOne(was, lives, answers);
      var answer := Ask();
      if answer.No? || answer.FileEdited? {
        Note(was, Crash);
        return None;
      }
      var granted := Token(devices, serials);
      devices, serials := devices + 1, serials + 1;
      Note(was, Grant(answer.Yes?));
      token := if answer.Yes? then Some(granted) else None;
    }

    /** From here on the pairing counts. */
    method StoreCredential(replace: bool, token: Token, ghost end: Ending) returns (alive: bool)
      requires Due(SaveCredential(replace, token), end)
      modifies this`keyring, this`stored, this`lives, this`moves
      ensures alive ==> keyring == Some(token) && Due(if replace then PairedDropEntry else PairedDropCompletion, end)
      ensures !alive ==> Over(Stopped, end)
    {
      alive := Survives(SaveCredential(replace, token), end);
      if alive {
        ghost var was := Here(Some(SaveCredential(replace, token)));
        keyring, stored := Some(token), true;
        Note(was, Go);
      }
    }

    /** The last effect of a first pairing. */
    method FinishFirstPair(ghost end: Ending) returns (alive: bool)
      requires Due(PairedDropCompletion, end)
      modifies this`completion, this`lives, this`moves
      ensures alive ==> Over(Paired, end) && entry.None? && replacement.None? && completion.None?
      ensures !alive ==> Over(Stopped, end)
    {
      alive := Survives(PairedDropCompletion, end);
      if alive {
        ghost var was := Here(Some(PairedDropCompletion));
        completion := None;
        Note(was, Go);
      }
    }

    method UnlinkReplaced(ghost end: Ending) returns (alive: bool)
      requires Due(PairedDropEntry, end)
      modifies this`entry, this`lives, this`moves
      ensures if alive then entry.None? && Due(PairedDropReplacement, end) else Over(Stopped, end)
    {
      alive := Survives(PairedDropEntry, end);
      if alive {
        ghost var was := Here(Some(PairedDropEntry));
        entry := None;
        Note(was, Go);
      }
    }

    /** The last effects of a replacement: the document goes before its marker. */
    method FinishReplacement(ghost end: Ending) returns (alive: bool)
      requires Due(PairedDropEntry, end)
      modifies this`entry, this`replacement, this`lives, this`moves
      ensures alive ==> Over(Paired, end) && entry.None? && replacement.None? && completion.None?
      ensures !alive ==> Over(Stopped, end)
    {
      alive := UnlinkReplaced(end);
      if !alive {
        return;
      }
      alive := Survives(PairedDropReplacement, end);
      if alive {
        ghost var was := Here(Some(PairedDropReplacement));
        replacement := None;
        Note(was, Go);
      }
    }

    /** The pairing proper, once nothing of an earlier one is left. */
    method PairFromHere(ghost end: Ending) returns (r: Outcome)
      requires Due(Marking, end)
      modifies this`entry, this`replacement, this`completion, this`keyring, this`stored
      modifies this`devices, this`serials, this`lives, this`answers, this`moves
      ensures Over(r, end)
      ensures r == Paired ==>
                && entry.None? && replacement.None? && completion.None?
                && keyring == Some(Token(old(devices), old(serials)))
      ensures old(entry.Some? && entry.value.phase == O.EVIDENCE) ==>
                r == Refused && entry == old(entry) && keyring == old(keyring)
      ensures r == Paired || r == Stopped || (r == Refused && old(entry.Some? && entry.value.phase == O.EVIDENCE))
    {
      if entry.Some? && entry.value.phase == O.EVIDENCE {
        LookAndRefuse(Marking, end);
        return Refused;
      }
      var replace := entry.Some?;
      var alive := SaveMarker(end);
      if !alive {
        return Stopped;
      }
      var token := CallForPair(replace, end);
      if token.None? {
        return Stopped;
      }
      alive := StoreCredential(replace, token.value, end);
      if !alive {
        return Stopped;
      }
      if replace {
        alive := FinishReplacement(end);
      } else {
        alive := FinishFirstPair(end);
      }
      r := if alive then Paired else Stopped;
    }

    method PairOrReport(ghost end: Ending) returns (r: Outcome)
      requires Due(Pc.Recovered(Pair), end)
      modifies this`entry, this`replacement, this`completion, this`keyring, this`stored
      modifies this`devices, this`serials, this`lives, this`answers, this`moves
      ensures Over(r, end)
      ensures r == Paired || r == Outcome.Recovered ==> entry.None? && replacement.None? && completion.None?
      ensures r == Paired ==> keyring == Some(Token(old(devices), old(serials)))
      ensures r == Outcome.Recovered ==>
                keyring == old(keyring) && devices == old(devices) && old(completion).Some? && old(stored)
      ensures old(entry.Some? && entry.value.phase == O.EVIDENCE) ==>
                (r == Refused || r == Stopped) && entry == old(entry) && keyring == old(keyring)
    {
      var found := RecoverInitialPair(end);
      if found.Killed? {
        return Stopped;
      }
      if found == Found(true) {
        var alive := UnlinkCompletion(true, end);
        return if alive then Outcome.Recovered else Stopped;
      }
      r := PairFromHere(end);
    }

    /**
     * Pairs, or finishes the pairing that was interrupted. Result, state, lives and answers left are
     * exactly what the starting point calls for. Success leaves no marker, no document and the
     * credential of the new device; a document with evidence stays, and nothing is paired over it.
     */
    method PairAgain() returns (r: Outcome)
      requires InWorld(None)
      modifies this`entry, this`replacement, this`completion, this`keyring, this`stored
      modifies this`devices, this`serials, this`lives, this`answers, this`moves
      ensures Over(r, old(Performed(Here(Some(Begin(Pair))), lives, answers)))
      ensures r == Paired || r == Outcome.Recovered ==> entry.None? && replacement.None? && completion.None?
      ensures r == Paired ==> keyring == Some(Token(old(devices), old(serials)))
      ensures r == Outcome.Recovered ==>
                && keyring == old(keyring) && devices == old(devices)
                && (old(replacement).Some? || old(completion).Some?) && old(stored)
      ensures old(entry.Some? && entry.value.phase == O.EVIDENCE) ==>
                (r == Refused || r == Stopped) && entry == old(entry) && keyring == old(keyring)
    {
      ghost var end := Performed(Here(Some(Begin(Pair))), lives, answers);
      Note(Here(None), Start(Pair));
      var found := RecoverReplacement(Pair, end);
      if found.Killed? {
        return Stopped;
      }
      if found == Found(true) {
        var alive := UnlinkReplacement(Pair, true, end);
        return if alive then Outcome.Recovered else Stopped;
      }
      r := PairOrReport(end);
    }

    // ----- submit, retry and status -----

    /** The device of the credential, whatever its serial. */
    function KeyringDevice(): Option<nat>
      reads this
    {
      if keyring.Some? then Some(keyring.value.device) else None
    }

    /** Asks for a rotated credential: refused, granted without an answer, or granted for the same device. */
    method CallForRotation(resume: bool, ghost end: Ending) returns (token: Option<Token>)
      requires Due(CallRefresh(resume), end) && keyring.Some?
      modifies this`serials, this`answers, this`moves
      ensures token.Some? ==>
                token.value == Token(keyring.value.device, old(serials)) && Due(SaveRotated(resume, token.value), end)
      ensures token.None? ==> Over(Stopped, end)
    {
      ghost var was := Here(Some(CallRefresh(resume)));
      CalledOne(was, lives, answers);
      var answer := Ask();
      if answer.No? || answer.FileEdited? {
        Note(was, Crash);
        return None;
      }
      var granted := Token(keyring.value.device, serials);
      serials := serials + 1;
      Note(was, Rotate(answer.Yes?));
      token := if answer.Yes? then Some(granted) else None;
    }

    method StoreRotated(resume: bool, token: Token, ghost end: Ending) returns (alive: bool)
      requires Due(SaveRotated(resume, token), end)
      modifies this`keyring, this`lives, this`moves
      ensures alive ==> keyring == Some(token)
      ensures alive ==> if resume then Due(Working(token.device), end) else Over(Finished, end)
      ensures !alive ==> keyring == old(keyring) && Over(Stopped, end)
    {
      alive := Survives(SaveRotated(resume, token), end);
      if alive {
        ghost var was := Here(Some(SaveRotated(resume, token)));
        keyring := Some(token);
        Note(was, Go);
      }
    }

    /** Rotates the credential; the access token that comes with it is the device's. */
    method Refresh(resume: bool, ghost end: Ending) returns (stop: Option<Outcome>, device: nat)
      requires Due(CallRefresh(resume), end)
      modifies this`keyring, this`serials, this`lives, this`answers, this`moves
      ensures KeyringDevice() == old(KeyringDevice())
      ensures stop.Some? ==> Over(stop.value, end)
      ensures stop.Some? ==> stop.value == Stopped || (stop.value == NoCredential && keyring.None?)
      ensures stop.None? ==>
                && keyring == Some(Token(device, old(serials)))
                && if resume then Due(Working(device), end) else Over(Finished, end)
    {
      if keyring.None? {
        Note(Here(Some(CallRefresh(resume))), Crash);
        return Some(NoCredential), 0;
      }
      var token := CallForRotation(resume, end);
      if token.None? {
        return Some(Stopped), 0;
      }
      var alive := StoreRotated(resume, token.value, end);
      return if alive then None else Some(Stopped), token.value.device;
    }

    /** Saves the document with its next phase; a job that was just created is this device's. */
    method SavePhase(ghost device: nat)
      requires InWorld(Some(Working(device))) && entry.Some? && entry.value.phase != O.EVIDENCE
      modifies this`entry, this`moves
      ensures InWorld(Some(Working(device))) && entry == Some(Advanced(old(entry).value, device))
    {
      ghost var was := Here(Some(Working(device)));
      match entry.value.phase {
        case CREATE =>
          entry := Some(entry.value.(phase := O.UPLOAD, device := Some(keyring.value.device)));
          Note(was, Bind);
        case UPLOAD =>
          entry := Some(entry.value.(phase := O.SUBMIT));
          Note(was, Progress(O.SUBMIT));
        case SUBMIT =>
          entry := Some(entry.value.(phase := O.EVIDENCE));
          Note(was, Progress(O.EVIDENCE));
      }
    }

    /** One phase of the document; an edited file discards it. */
    method Advance(ghost device: nat, ghost end: Ending) returns (stop: Option<Outcome>)
      requires Due(Working(device), end) && entry.Some? && entry.value.phase != O.EVIDENCE
      modifies this`entry, this`lives, this`answers, this`moves
      ensures stop.None? ==> Due(Working(device), end) && entry == Some(Advanced(old(entry).value, device))
      ensures stop.Some? ==> Over(stop.value, end)
      ensures stop.Some? ==>
                (stop.value == FileChanged && entry.None?) || (stop.value == Stopped && entry == old(entry))
    {
      WorkedOne(Here(Some(Working(device))), device, lives, answers);
      if lives == 0 {
        Note(Here(Some(Working(device))), Crash);
        return Some(Stopped);
      }
      lives := lives - 1;
      stop := HearAndSave(device, end);
    }

    method HearAndSave(ghost device: nat, ghost end: Ending) returns (stop: Option<Outcome>)
      requires InWorld(Some(Working(device))) && entry.Some? && entry.value.phase != O.EVIDENCE
      requires StrideLeads(WorkedAlive(Here(Some(Working(device))), device, lives, answers), end)
      modifies this`entry, this`answers, this`moves
      ensures stop.None? ==> Due(Working(device), end) && entry == Some(Advanced(old(entry).value, device))
      ensures stop.Some? ==> Over(stop.value, end)
      ensures stop.Some? ==>
                (stop.value == FileChanged && entry.None?) || (stop.value == Stopped && entry == old(entry))
    {
      ghost var was := Here(Some(Working(device)));
      var answer := Ask();
      if answer.FileEdited? && entry.value.phase == O.UPLOAD {
        entry := None;
        Note(was, Pairing.Discard);
        return Some(FileChanged);
      }
      if !answer.Yes? {
        Note(was, Crash);
        return Some(Stopped);
      }
      SavePhase(device);
      stop := None;
    }

    method DeleteFinished(ghost device: nat, ghost end: Ending) returns (alive: bool)
      requires Due(Working(device), end) && entry.Some? && entry.value.phase == O.EVIDENCE
      modifies this`entry, this`lives, this`moves
      ensures alive ==> entry.None? && Over(Finished, end)
      ensures !alive ==> entry == old(entry) && Over(Stopped, end)
    {
      ghost var was := Here(Some(Working(device)));
      WorkedOne(was, device, lives, answers);
      alive := lives > 0;
      if alive {
        lives := lives - 1;
        entry := None;
        Note(was, Finish);
      } else {
        Note(was, Crash);
      }
    }

    /** Carries the document to its evidence and deletes it; all of it as the one device. */
    method ResumeAs(device: nat, ghost end: Ending) returns (r: Outcome)
      requires Due(Working(device), end) && entry.Some? && entry.value.phase != O.EVIDENCE
      modifies this`entry, this`lives, this`answers, this`moves
      ensures Over(r, end)
      ensures (r == Finished || r == FileChanged ==> entry.None?) && (r == Stopped ==> entry.Some?)
      ensures r == Finished || r == FileChanged || r == Stopped
      ensures entry.Some? && entry.value.device.Some? ==> entry.value.device.value == device
    {
      while entry.Some? && entry.value.phase != O.EVIDENCE
        invariant Due(Working(device), end) && entry.Some?
        decreases match entry.value.phase case CREATE => 3 case UPLOAD => 2 case SUBMIT => 1 case EVIDENCE => 0
      {
        var stop := Advance(device, end);
        if stop.Some? {
          return stop.value;
        }
      }
      var alive := DeleteFinished(device, end);
      r := if alive then Finished else Stopped;
    }

    /** What submit, retry and status begin with; none of them goes past an unfinished first pairing. */
    method BeginWork(command: Command, ghost end: Ending) returns (stop: Option<Outcome>)
      requires Due(Begin(command), end) && !command.Pair?
      modifies this`entry, this`replacement, this`lives, this`moves
      ensures stop.None? ==>
                && Due(Pc.Recovered(command), end)
                && entry == (if old(replacement).Some? && old(stored) then None else old(entry))
      ensures stop.Some? ==> Over(stop.value, end)
      ensures stop == Some(Refused) <==> completion.Some?
      ensures stop == Some(Refused) ==> entry == old(entry) && replacement == old(replacement)
      ensures stop.Some? ==> stop.value == Refused || stop.value == Stopped
    {
      if completion.Some? {
        LookAndRefuse(Begin(command), end);
        return Some(Refused);
      }
      var found := RecoverReplacement(command, end);
      stop := if found.Killed? then Some(Stopped) else None;
    }

    /** A document that is bound to a device is carried on with that device's credential. */
    method WorkFromHere(ghost end: Ending) returns (r: Outcome)
      requires Due(CallRefresh(true), end) && entry.Some? && entry.value.phase != O.EVIDENCE
      modifies this`entry, this`keyring, this`serials, this`lives, this`answers, this`moves
      ensures Over(r, end)
      ensures KeyringDevice() == old(KeyringDevice())
      ensures r == Finished ==> entry.None?
      ensures r == Finished && old(entry).value.device.Some? ==> KeyringDevice() == old(entry).value.device
      ensures r != Refused && r != Paired && r != Outcome.Recovered
    {
      var stop, device := Refresh(true, end);
      if stop.Some? {
        return stop.value;
      }
      r := ResumeAs(device, end);
    }

    method CreateEntry(name: nat, ghost end: Ending) returns (alive: bool)
      requires Due(SaveEntry(name), end)
      modifies this`entry, this`lives, this`moves
      ensures alive ==> entry == Some(Document(name, O.CREATE, None)) && Due(CallRefresh(true), end)
      ensures !alive ==> Over(Stopped, end)
    {
      alive := Survives(SaveEntry(name), end);
      if alive {
        ghost var was := Here(Some(SaveEntry(name)));
        entry := Some(Document(name, O.CREATE, None));
        Note(was, Go);
      }
    }

    /** Needs a clear outbox; finishing leaves neither document nor marker. */
    method SubmitPackage(name: nat) returns (r: Outcome)
      requires InWorld(None)
      modifies this`entry, this`replacement, this`keyring, this`serials, this`lives, this`answers, this`moves
      ensures Over(r, old(Performed(Here(Some(Begin(Submit(name)))), lives, answers)))
      ensures KeyringDevice() == old(KeyringDevice())
      ensures r == Finished ==>
                && entry.None? && replacement.None? && completion.None?
                && old(entry.None? || (replacement.Some? && stored))
      ensures r == Refused ==> entry == old(entry) && keyring == old(keyring) && (completion.Some? || entry.Some?)
    {
      ghost var end := Performed(Here(Some(Begin(Submit(name)))), lives, answers);
      Note(Here(None), Start(Submit(name)));
      var stop := BeginWork(Submit(name), end);
      if stop.Some? {
        return stop.value;
      }
      r := SubmitFromHere(name, end);
    }

    method SubmitFromHere(name: nat, ghost end: Ending) returns (r: Outcome)
      requires Due(Pc.Recovered(Submit(name)), end)
      modifies this`entry, this`keyring, this`serials, this`lives, this`answers, this`moves
      ensures Over(r, end)
      ensures KeyringDevice() == old(KeyringDevice())
      ensures r == Finished ==> entry.None? && old(entry).None?
      ensures r == Refused ==> entry == old(entry) && keyring == old(keyring) && entry.Some?
    {
      if entry.Some? {
        LookAndRefuse(Pc.Recovered(Submit(name)), end);
        return Refused;
      }
      Look(Pc.Recovered(Submit(name)), SaveEntry(name), end);
      var alive := CreateEntry(name, end);
      if !alive {
        return Stopped;
      }
      r := WorkFromHere(end);
    }

    method PrintEvidence(ghost end: Ending) returns (alive: bool)
      requires Due(Printing, end)
      modifies this`entry, this`lives, this`moves
      ensures if alive then entry.None? && Over(Finished, end) else Over(Stopped, end)
    {
      alive := Survives(Printing, end);
      if alive {
        ghost var was := Here(Some(Printing));
        entry := None;
        Note(was, Go);
      }
    }

    /** Prepares the manifest again; an edited file discards the document. */
    method PrepareAgain(ghost end: Ending) returns (stop: Option<Outcome>)
      requires Due(Pc.Recovered(Retry), end) && entry.Some? && entry.value.phase != O.EVIDENCE
      modifies this`entry, this`answers, this`moves
      ensures stop.None? ==> Due(CallRefresh(true), end) && entry == old(entry)
      ensures stop.Some? ==> Over(stop.value, end)
      ensures stop.Some? ==>
                (stop.value == FileChanged && entry.None?) || (stop.value == Stopped && entry == old(entry))
    {
      PreparedOne(Here(Some(Pc.Recovered(Retry))), lives, answers);
      Note(Here(Some(Pc.Recovered(Retry))), Go);
      ghost var was := Here(Some(CallRefresh(true)));
      var answer := Ask();
      if answer.FileEdited? {
        entry := None;
        Note(was, Pairing.Discard);
        return Some(FileChanged);
      }
      if !answer.Yes? {
        Note(was, Crash);
        return Some(Stopped);
      }
      stop := None;
    }

    /** Resumes the one document there is, as the device it is bound to, or not at all. */
    method RetryPackage() returns (r: Outcome)
      requires InWorld(None)
      modifies this`entry, this`replacement, this`keyring, this`serials, this`lives, this`answers, this`moves
      ensures Over(r, old(Performed(Here(Some(Begin(Retry))), lives, answers)))
      ensures KeyringDevice() == old(KeyringDevice())
      ensures r == Finished ==> old(entry).Some? && entry.None?
      ensures r == Finished && old(entry).value.device.Some? ==> KeyringDevice() == old(entry).value.device
      ensures r == Refused ==> keyring == old(keyring)
    {
      ghost var end := Performed(Here(Some(Begin(Retry))), lives, answers);
      Note(Here(None), Start(Retry));
      var stop := BeginWork(Retry, end);
      if stop.Some? {
        return stop.value;
      }
      r := RetryFromHere(end);
    }

    method RetryFromHere(ghost end: Ending) returns (r: Outcome)
      requires Due(Pc.Recovered(Retry), end)
      modifies this`entry, this`keyring, this`serials, this`lives, this`answers, this`moves
      ensures Over(r, end)
      ensures KeyringDevice() == old(KeyringDevice())
      ensures r == Finished ==> old(entry).Some? && entry.None?
      ensures r == Finished && old(entry).value.device.Some? ==> KeyringDevice() == old(entry).value.device
      ensures r == Refused ==> keyring == old(keyring)
    {
      if entry.None? {
        LookAndRefuse(Pc.Recovered(Retry), end);
        return Refused;
      }
      if entry.value.phase == O.EVIDENCE {
        Look(Pc.Recovered(Retry), Printing, end);
        var alive := PrintEvidence(end);
        return if alive then Finished else Stopped;
      }
      var stop := PrepareAgain(end);
      if stop.Some? {
        return stop.value;
      }
      r := WorkFromHere(end);
    }

    /** Clears up, rotates, and leaves every document that is not obsolete. */
    method ReadStatus() returns (r: Outcome)
      requires InWorld(None)
      modifies this`entry, this`replacement, this`keyring, this`serials, this`lives, this`answers, this`moves
      ensures Over(r, old(Performed(Here(Some(Begin(Status))), lives, answers)))
      ensures KeyringDevice() == old(KeyringDevice())
      ensures r == Finished ==>
                && entry == (if old(replacement.Some? && stored) then None else old(entry))
                && replacement.None? && completion.None?
      ensures r == Refused ==> completion.Some? && entry == old(entry) && keyring == old(keyring)
    {
      ghost var end := Performed(Here(Some(Begin(Status))), lives, answers);
      Note(Here(None), Start(Status));
      var stop := BeginWork(Status, end);
      if stop.Some? {
        return stop.value;
      }
      r := StatusFromHere(end);
    }

    method StatusFromHere(ghost end: Ending) returns (r: Outcome)
      requires Due(Pc.Recovered(Status), end)
      modifies this`keyring, this`serials, this`lives, this`answers, this`moves
      ensures Over(r, end)
      ensures KeyringDevice() == old(KeyringDevice())
      ensures r == Finished || r == NoCredential || r == Stopped
    {
      Look(Pc.Recovered(Status), CallRefresh(false), end);
      var stop, device := Refresh(false, end);
      r := if stop.Some? then stop.value else Finished;
    }
  }
}
