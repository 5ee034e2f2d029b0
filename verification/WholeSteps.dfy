/** Every step of the whole is a step of the joint machine and one that pairing allows. */
module WholeSteps {
  import opened Common
  import opened Rows
  import opened Outbox
  import opened OutboxProgress
  import opened OutboxRuns
  import L = Lifecycle
  import I = LifecycleInvariant
  import P = Pairing
  import opened Resume
  import opened ResumeInvariant
  import opened ResumeSteps
  import opened ResumeStorage
  import opened Whole

  // ----- the joint machine -----

  /** What the joint machine keeps, storage included. */
  ghost predicate Sound(x: Joint) {
    JointInv(x) && StorageHolds(x)
  }

  lemma MoveKeeps(x: Joint, m: Move)
    requires Sound(x) && Possible(x, m)
    ensures L.JobsKnown(x.server) && Sound(Next(x, m)) && I.Grows(x.server, Next(x, m).server)
  {
    JointStep(x, m);
    StorageHoldsStep(x, m);
  }

  lemma QuietKeeps(x: Joint, ev: Event)
    requires Sound(x) && Outbox.May(x.connector, ev) && !ev.Send? && !ev.Receive?
    ensures Sound(WithConnector(x, Outbox.After(x.connector, ev)))
  {
    MoveKeeps(x, Local(ev));
    QuietIs(x, ev);
  }

  lemma QuietIs(x: Joint, ev: Event)
    requires L.JobsKnown(x.server) && Possible(x, Local(ev)) && !ev.Send?
    ensures Next(x, Local(ev)) == WithConnector(x, Outbox.After(x.connector, ev))
  {
  }

  lemma ActingKeeps(x: Joint, d: nat)
    requires Sound(x) && (d in x.own || HasNoJobs(x, d))
    ensures Sound(Acting(x, d))
  {
    MoveKeeps(x, ActAs(d));
    ActingIs(x, d);
  }

  lemma ActingIs(x: Joint, d: nat)
    requires L.JobsKnown(x.server) && Possible(x, ActAs(d))
    ensures Next(x, ActAs(d)) == Acting(x, d)
  {
  }

  lemma NewDocumentKeeps(x: Joint, key: nat, m: Manifest)
    requires Sound(x) && x.connector.pc.Idle? && x.connector.disk.None? && ManifestOk(m)
    ensures var c := Outbox.After(x.connector, BeginSubmit(key, m));
      Outbox.May(c, Save) && Sound(WithConnector(x, Outbox.After(c, Save)))
  {
    QuietKeeps(x, BeginSubmit(key, m));
    var y := WithConnector(x, Outbox.After(x.connector, BeginSubmit(key, m)));
    InitialOk(key, m);
    QuietKeeps(y, Save);
  }

  lemma PrintKeeps(x: Joint)
    requires Sound(x) && x.connector.pc.Idle? && x.connector.disk.Some? && x.connector.disk.value.phase == EVIDENCE
    ensures var c := Outbox.After(x.connector, BeginRetry);
      Outbox.May(c, Finish) && Sound(WithConnector(x, Outbox.After(c, Finish)))
  {
    QuietKeeps(x, BeginRetry);
    QuietKeeps(WithConnector(x, Outbox.After(x.connector, BeginRetry)), Finish);
  }

  lemma TakenUpKeeps(x: Joint, d: nat, resume: bool)
    requires Sound(x) && d in x.own
    ensures Sound(WithConnector(Acting(x, d), TakenUp(x.connector, resume)))
  {
    ActingKeeps(x, d);
    var y := Acting(x, d);
    if resume && y.connector.pc.Idle? && y.connector.disk.Some? {
      QuietKeeps(y, BeginRetry);
    }
  }

  lemma InterruptedKeeps(x: Joint)
    requires Sound(x)
    ensures Sound(WithConnector(x, Interrupted(x.connector)))
  {
    if !x.connector.pc.Idle? {
      QuietKeeps(x, Interrupt);
    }
  }

  lemma NewDeviceHasNoJobs(s: Whole)
    requires DevicesKnown(s)
    ensures HasNoJobs(s.x, s.devices)
  {
  }

  lemma JobsAreKnown(s: Whole)
    requires WholeInv(s)
    ensures L.JobsKnown(s.x.server)
  {
    assert forall j :: j in s.x.server.jobs ==> I.RowOk(s.x.server.files, s.x.server.jobs[j]);
  }

  lemma TakenUpIsOwn(s: Whole)
    requires P.Inv(Seen(s)) && DevicesKnown(s) && Can(s, TakeUp)
    ensures s.pc.value.token.device in s.x.own
  {
    assert P.PcInv(Seen(s), s.pc.value);
  }

  lemma NewDocumentPart(s: Whole, m: Manifest)
    requires Sound(s.x) && Can(s, NewDocument(m)) && L.JobsKnown(s.x.server)
    ensures Sound(NewJoint(s, NewDocument(m)))
  {
    NewDocumentKeeps(s.x, s.pc.value.name, m);
  }

  lemma PrintPart(s: Whole)
    requires Sound(s.x) && Can(s, PrintDocument) && L.JobsKnown(s.x.server)
    ensures Sound(NewJoint(s, PrintDocument))
  {
    PrintKeeps(s.x);
  }

  lemma DiscardPart(s: Whole, a: Action)
    requires Sound(s.x) && Can(s, a) && L.JobsKnown(s.x.server) && (a.DropDocument? || a.DiscardEarly?)
    ensures Sound(NewJoint(s, a))
  {
    QuietKeeps(s.x, Discard);
  }

  lemma GrantPart(s: Whole, answered: bool)
    requires Sound(s.x) && DevicesKnown(s) && Can(s, Grant(answered)) && L.JobsKnown(s.x.server)
    ensures Sound(NewJoint(s, Grant(answered)))
  {
    NewDeviceHasNoJobs(s);
    ActingKeeps(s.x, s.devices);
  }

  lemma TakeUpPart(s: Whole)
    requires Sound(s.x) && P.Inv(Seen(s)) && DevicesKnown(s) && Can(s, TakeUp) && L.JobsKnown(s.x.server)
    ensures Sound(NewJoint(s, TakeUp))
  {
    TakenUpIsOwn(s);
    TakenUpKeeps(s.x, s.pc.value.token.device, s.pc.value.resume);
  }

  lemma EndPart(s: Whole, a: Action)
    requires Sound(s.x) && Can(s, a) && L.JobsKnown(s.x.server) && (a.Rotate? || a.Die?)
    ensures Sound(NewJoint(s, a))
  {
    InterruptedKeeps(s.x);
  }

  lemma MovePart(s: Whole, a: Action)
    requires Sound(s.x) && Can(s, a) && L.JobsKnown(s.x.server) && (a.Work? || a.Serve?)
    ensures Sound(NewJoint(s, a))
  {
    MoveKeeps(s.x, if a.Work? then Local(a.ev) else a.m);
  }

  lemma StillPart(s: Whole, a: Action)
    requires Can(s, a) && L.JobsKnown(s.x.server) && (a.Begin? || a.Clerk? || a.Others?)
    ensures NewJoint(s, a) == s.x
  {
  }

  lemma JointPart(s: Whole, a: Action)
    requires Sound(s.x) && P.Inv(Seen(s)) && DevicesKnown(s) && Can(s, a) && L.JobsKnown(s.x.server)
    ensures Sound(NewJoint(s, a))
  {
    match a
    case DropDocument => DiscardPart(s, a);
    case NewDocument(m) => NewDocumentPart(s, m);
    case PrintDocument => PrintPart(s);
    case Grant(answered) => GrantPart(s, answered);
    case Rotate(_) => EndPart(s, a);
    case TakeUp => TakeUpPart(s);
    case Work(_) => MovePart(s, a);
    case DiscardEarly => DiscardPart(s, a);
    case Die => EndPart(s, a);
    case Serve(_) => MovePart(s, a);
    case _ => StillPart(s, a);
  }

  // ----- what pairing sees -----

  /** A document whose job exists is seen as bound to the device of that job, whatever the server does. */
  lemma SeenUnmoved(x: Joint, m: Move)
    requires DocumentsAgree(x) && I.RowsInv(x.server) && I.JobInv(x.server)
    requires Possible(x, m) && !m.Local? && L.JobsKnown(x.server)
    ensures DocumentSeen(Next(x, m)) == DocumentSeen(x)
  {
    if x.connector.disk.Some? && x.connector.disk.value.job.Some? {
      OldJob(x, m, x.connector.disk.value.job.value);
    }
  }

  /** Pairing allows the step, and the document it sees moves as it says. */
  ghost predicate SeenWell(s: Whole, a: Action)
    requires Can(s, a) && L.JobsKnown(s.x.server)
  {
    match MoveSeen(s, a)
    case None => DocumentSeen(NewJoint(s, a)) == DocumentSeen(s.x)
    case Some(m) => P.May(Seen(s), m) && DocumentSeen(NewJoint(s, a)) == P.After(Seen(s), m).entry
  }

  lemma SavedSeen(s: Whole)
    requires P.Inv(Seen(s)) && SavesOwn(s.x.server.jobs, s.x.connector, s.x.device, s.pc)
    requires Can(s, Work(Save)) && L.JobsKnown(s.x.server)
    ensures SeenWell(s, Work(Save))
  {
    var e := s.x.connector.disk.value;
    assert P.BindingInv(Seen(s));
    assert Follows(e, s.x.connector.pc.next);
  }

  lemma WorkSeen(s: Whole, ev: Event)
    requires P.Inv(Seen(s)) && SavesOwn(s.x.server.jobs, s.x.connector, s.x.device, s.pc)
    requires Can(s, Work(ev)) && L.JobsKnown(s.x.server)
    ensures SeenWell(s, Work(ev))
  {
    if ev.Save? {
      SavedSeen(s);
    }
  }

  lemma ClerkSeen(s: Whole)
    requires Can(s, Clerk) && L.JobsKnown(s.x.server)
    ensures SeenWell(s, Clerk)
  {
  }

  lemma DocumentMoveSeen(s: Whole, a: Action)
    requires P.Inv(Seen(s)) && Can(s, a) && L.JobsKnown(s.x.server)
    requires a.DropDocument? || a.NewDocument? || a.PrintDocument? || a.DiscardEarly?
    ensures SeenWell(s, a)
  {
  }

  lemma CallSeen(s: Whole, a: Action)
    requires P.Inv(Seen(s)) && Can(s, a) && L.JobsKnown(s.x.server)
    requires a.Begin? || a.Grant? || a.Rotate? || a.TakeUp? || a.Die? || a.Others?
    ensures SeenWell(s, a)
  {
  }

  lemma SeenStep(s: Whole, a: Action)
    requires WholeInv(s) && StorageHolds(s.x) && Can(s, a) && L.JobsKnown(s.x.server)
    ensures SeenWell(s, a)
  {
    match a
    case Work(ev) => WorkSeen(s, ev);
    case Serve(m) => SeenUnmoved(s.x, m);
    case Clerk => ClerkSeen(s);
    case DropDocument => DocumentMoveSeen(s, a);
    case NewDocument(_) => DocumentMoveSeen(s, a);
    case PrintDocument => DocumentMoveSeen(s, a);
    case DiscardEarly => DocumentMoveSeen(s, a);
    case _ => CallSeen(s, a);
  }
}
