/** Over every run of pair, submit, retry and status next to the real server: requests go out as the owner. */
module WholeRuns {
  import opened Common
  import opened Rows
  import opened Outbox
  import opened OutboxProgress
  import opened OutboxRuns
  import L = Lifecycle
  import I = LifecycleInvariant
  import P = Pairing
  import R = LifecycleRuns
  import opened Resume
  import opened ResumeInvariant
  import opened ResumeSteps
  import opened ResumeStorage
  import opened Whole
  import opened WholeSteps

  ghost predicate Seeable(s: Whole, a: Action) {
    && Can(s, a) && L.JobsKnown(s.x.server)
    && (MoveSeen(s, a).Some? ==> P.May(Seen(s), MoveSeen(s, a).value))
  }

  /** The parts of the joint machine that a step of this workstation changes. */
  lemma NewParts(s: Whole, a: Action)
    requires Can(s, a) && L.JobsKnown(s.x.server)
    ensures NewJoint(s, a).connector == NewConnector(s, a)
    ensures NewJoint(s, a).device == NewDevice(s, a)
    ensures NewJoint(s, a).own == NewOwn(s, a)
    ensures !a.Serve? ==> NewJoint(s, a).server == s.x.server
  {
  }

  /** What a step other than the server's needs. */
  ghost predicate Here(s: Whole, a: Action) {
    && Can(s, a) && !a.Serve?
    && P.Inv(Seen(s))
    && (MoveSeen(s, a).Some? ==> P.May(Seen(s), MoveSeen(s, a).value))
  }

  lemma WorkInTime(s: Whole, ev: Event)
    requires Here(s, Work(ev))
    ensures InTime(NewConnector(s, Work(ev)), s.x.device, NewWorld(s, Work(ev)).pc)
  {
  }

  lemma DocumentInTime(s: Whole, a: Action)
    requires Here(s, a) && (a.NewDocument? || a.PrintDocument? || a.TakeUp? || a.DiscardEarly? || a.DropDocument?)
    requires InTime(s.x.connector, s.x.device, s.pc)
    ensures InTime(NewConnector(s, a), NewDevice(s, a), NewWorld(s, a).pc)
  {
  }

  lemma InTimeStep(s: Whole, a: Action)
    requires Here(s, a) && InTime(s.x.connector, s.x.device, s.pc)
    ensures InTime(NewConnector(s, a), NewDevice(s, a), NewWorld(s, a).pc)
  {
    if a.Work? {
      WorkInTime(s, a.ev);
    } else if a.NewDocument? || a.PrintDocument? || a.TakeUp? || a.DiscardEarly? || a.DropDocument? {
      DocumentInTime(s, a);
    }
  }

  // ----- devices -----

  lemma MoveKeepsCredentials(w: P.World, m: P.Move, own: set<nat>)
    requires P.Inv(w) && P.May(w, m) && CredentialsOwn(w, own)
    ensures CredentialsOwn(P.After(w, m), if m.Grant? then own + {w.devices} else own)
    ensures P.After(w, m).devices >= w.devices
  {
  }

  lemma CredentialsStep(s: Whole, a: Action)
    requires Here(s, a) && DevicesKnown(s)
    ensures CredentialsOwn(NewWorld(s, a), NewOwn(s, a)) && NewWorld(s, a).devices >= s.devices
  {
    if a.TakeUp? {
      TakenUpIsOwn(s);
      assert NewOwn(s, a) == s.x.own;
    }
    if MoveSeen(s, a).Some? {
      MoveKeepsCredentials(Seen(s), MoveSeen(s, a).value, s.x.own);
    }
  }

  /** A job that appears in a step of the server is of a device that the server knows. */
  lemma JobDevices(s: Whole, m: Move, j: nat)
    requires DevicesKnown(s) && ExchangeInv(s.x) && Can(s, Serve(m)) && L.JobsKnown(s.x.server)
    requires I.RowsInv(s.x.server) && I.JobInv(s.x.server)
    requires j in NextServer(s.x, m).jobs
    ensures NextServer(s.x, m).jobs[j].device < s.devices
  {
    if j in s.x.server.jobs {
      OldJob(s.x, m, j);
    } else if m.ServeNewJob? {
      assert Sent(m.d, m.request) in s.x.sent;
    }
  }

  // ----- requests -----

  /** While a command works, the job of the document belongs to the device whose credential it uses. */
  lemma WorksAsOwner(s: Whole)
    requires P.Inv(Seen(s)) && At(s, P.Working(s.x.device))
    requires s.x.connector.disk.Some? && EntryAgrees(s.x.server, s.x.mine, s.x.connector.disk.value)
    ensures var e := s.x.connector.disk.value;
      e.job.Some? ==> JobOf(s.x, s.x.device, e.job.value)
  {
    assert P.BindingInv(Seen(s)) && P.PcInv(Seen(s), P.Working(s.x.device));
  }

  lemma WantedByOwner(x: Joint, e: Entry, request: Request)
    requires EntryOk(e) && EntryAgrees(x.server, x.mine, e) && Wants(e, request)
    requires e.job.Some? ==> JobOf(x, x.device, e.job.value)
    ensures SentByOwner(x, Sent(x.device, request))
  {
    if request.PutPart? || request.CompleteFile? {
      var i := Current(e.attachments);
      AtCurrent(e);
      var job := x.server.jobs[e.job.value];
      assert AttachmentAgrees(x.server, x.mine, job.attachments[i], e.attachments[i]);
      assert job.attachments[i] in job.attachments;
      assert request.file in L.FilesOf(job);
    }
  }

  /** Ownership does not change hands. */
  lemma OwnerKept(x: Joint, y: Joint, q: Sent)
    requires SentByOwner(x, q) && I.Grows(x.server, y.server)
    ensures SentByOwner(y, q)
  {
    match q.request
    case CreateJob(_, _) =>
    case SubmitJob(j) => assert I.JobGrows(x.server.jobs[j], y.server.jobs[j]);
    case _ =>
      var j :| JobOf(x, q.device, j) && q.request.file in L.FilesOf(x.server.jobs[j]);
      assert I.JobGrows(x.server.jobs[j], y.server.jobs[j]);
      assert JobOf(y, q.device, j) && q.request.file in L.FilesOf(y.server.jobs[j]);
  }

  lemma ServerPart(s: Whole, a: Action)
    requires WholeInv(s) && StorageHolds(s.x) && Can(s, a) && L.JobsKnown(s.x.server)
    ensures I.Grows(s.x.server, NewJoint(s, a).server)
  {
    if a.Serve? {
      MoveKeeps(s.x, a.m);
    } else {
      R.GrowsReflexive(s.x.server);
    }
  }

  lemma SentStep(s: Whole, a: Action)
    requires WholeInv(s) && StorageHolds(s.x) && Can(s, a) && L.JobsKnown(s.x.server)
    ensures AllSentByOwner(NewJoint(s, a))
  {
    ServerPart(s, a);
    var y := NewJoint(s, a);
    forall q | q in y.sent ensures SentByOwner(y, q) {
      if q !in s.x.sent {
        WorksAsOwner(s);
        WantedByOwner(s.x, s.x.connector.disk.value, q.request);
      }
      OwnerKept(s.x, y, q);
    }
  }

  // ----- what is about to be saved -----

  lemma ReceivedFollows(s: Whole, reply: Reply)
    requires WholeInv(s) && Can(s, Work(Receive(reply)))
    ensures var next := Updated(s.x.connector.disk.value, s.x.connector.pc.request, reply);
      && Follows(s.x.connector.disk.value, next)
      && next.job.Some? && JobOf(s.x, s.x.device, next.job.value)
  {
    var x, e, request := s.x, s.x.connector.disk.value, s.x.connector.pc.request;
    assert ReplyOk(x.server, x.mine, x.device, request, reply) by {
      assert Answer(x.device, request, reply) in x.answers;
    }
    WorksAsOwner(s);
  }

  lemma AdvanceFollows(s: Whole)
    requires WholeInv(s) && Can(s, Work(Advance))
    ensures var next := s.x.connector.disk.value.(phase := SUBMIT);
      && Follows(s.x.connector.disk.value, next)
      && next.job.Some? && JobOf(s.x, s.x.device, next.job.value)
  {
    WorksAsOwner(s);
  }

  lemma QuietSavesNothing(s: Whole, a: Action)
    requires Here(s, a) && !a.Work? && InTime(s.x.connector, s.x.device, s.pc)
    requires SavesOwn(s.x.server.jobs, s.x.connector, s.x.device, s.pc)
    ensures SavesOwn(s.x.server.jobs, NewConnector(s, a), NewDevice(s, a), NewWorld(s, a).pc)
  {
  }

  lemma ReceivedSavesOwn(s: Whole, reply: Reply)
    requires Here(s, Work(Receive(reply)))
    requires var next := Updated(s.x.connector.disk.value, s.x.connector.pc.request, reply);
      && Follows(s.x.connector.disk.value, next)
      && next.job.Some? && JobOf(s.x, s.x.device, next.job.value)
    ensures SavesOwn(s.x.server.jobs, NewConnector(s, Work(Receive(reply))), s.x.device,
                     NewWorld(s, Work(Receive(reply))).pc)
  {
  }

  lemma WorkSavesOwn(s: Whole, ev: Event)
    requires WholeInv(s) && Here(s, Work(ev))
    ensures SavesOwn(s.x.server.jobs, NewConnector(s, Work(ev)), s.x.device, NewWorld(s, Work(ev)).pc)
  {
    if ev.Receive? {
      ReceivedFollows(s, ev.reply);
      ReceivedSavesOwn(s, ev.reply);
    } else if ev.Advance? {
      AdvanceFollows(s);
    }
  }

  lemma SavesStep(s: Whole, a: Action)
    requires WholeInv(s) && Here(s, a)
    ensures SavesOwn(s.x.server.jobs, NewConnector(s, a), NewDevice(s, a), NewWorld(s, a).pc)
  {
    if a.Work? {
      WorkSavesOwn(s, a.ev);
    } else {
      QuietSavesNothing(s, a);
    }
  }

  lemma ServedDevices(s: Whole, m: Move)
    requires DevicesKnown(s) && ExchangeInv(s.x) && Can(s, Serve(m)) && L.JobsKnown(s.x.server)
    requires I.RowsInv(s.x.server) && I.JobInv(s.x.server)
    ensures forall j :: j in NextServer(s.x, m).jobs ==> NextServer(s.x, m).jobs[j].device < s.devices
  {
    forall j | j in NextServer(s.x, m).jobs ensures NextServer(s.x, m).jobs[j].device < s.devices {
      JobDevices(s, m, j);
    }
  }

  lemma ServedSaves(s: Whole, m: Move)
    requires SavesOwn(s.x.server.jobs, s.x.connector, s.x.device, s.pc)
    requires Can(s, Serve(m)) && L.JobsKnown(s.x.server) && I.RowsInv(s.x.server) && I.JobInv(s.x.server)
    ensures SavesOwn(NextServer(s.x, m).jobs, s.x.connector, s.x.device, s.pc)
  {
    var c := s.x.connector;
    if c.pc.Saving? && c.pc.next.job.Some? && c.pc.next.job.value in s.x.server.jobs {
      OldJob(s.x, m, c.pc.next.job.value);
    }
  }

  lemma ServedStep(s: Whole, m: Move)
    requires WholeInv(s) && Can(s, Serve(m)) && L.JobsKnown(s.x.server)
    ensures DevicesKnown(NextWhole(s, Serve(m)))
    ensures SavesOwn(NextServer(s.x, m).jobs, s.x.connector, s.x.device, s.pc)
  {
    ServedDevices(s, m);
    ServedSaves(s, m);
  }

  // ----- whole runs -----

  lemma HereStep(s: Whole, a: Action)
    requires WholeInv(s) && Here(s, a) && L.JobsKnown(s.x.server)
    ensures var t := NextWhole(s, a);
      && InTime(t.x.connector, t.x.device, t.pc) && DevicesKnown(t)
      && SavesOwn(t.x.server.jobs, t.x.connector, t.x.device, t.pc)
  {
    NewParts(s, a);
    InTimeStep(s, a);
    CredentialsStep(s, a);
    SavesStep(s, a);
  }

  lemma SeenNext(s: Whole, a: Action)
    requires Seeable(s, a) && SeenWell(s, a) && P.Inv(Seen(s))
    ensures Seen(NextWhole(s, a)) == NewWorld(s, a)
    ensures P.Inv(Seen(NextWhole(s, a)))
  {
    if MoveSeen(s, a).Some? {
      P.StepKeepsInv(Seen(s), MoveSeen(s, a).value);
    }
  }

  lemma WholeStep(s: Whole, a: Action)
    requires WholeInv(s) && StorageHolds(s.x) && Can(s, a)
    ensures Seeable(s, a) && WholeInv(NextWhole(s, a)) && StorageHolds(NextWhole(s, a).x)
  {
    JobsAreKnown(s);
    JointPart(s, a);
    SeenStep(s, a);
    SeenNext(s, a);
    SentStep(s, a);
    if a.Serve? {
      ServedStep(s, a.m);
    } else {
      HereStep(s, a);
    }
  }

  ghost predicate Steps(s: Whole, a: Action, t: Whole) {
    Seeable(s, a) && t == NextWhole(s, a)
  }

  ghost predicate IsRun(states: seq<Whole>, actions: seq<Action>) {
    && |states| == |actions| + 1
    && states[0] == NEW
    && forall i :: 0 <= i < |actions| ==> Steps(states[i], actions[i], states[i + 1])
  }

  ghost predicate Good(s: Whole) {
    WholeInv(s) && StorageHolds(s.x)
  }

  lemma StepsKeepGood(s: Whole, a: Action, t: Whole)
    requires Steps(s, a, t) && Good(s)
    ensures Good(t)
  {
    WholeStep(s, a);
  }

  lemma NewIsGood()
    ensures Good(NEW)
  {
  }

  lemma {:induction false} GoodAllAlong(states: seq<Whole>, i: nat)
    requires i < |states| && Good(states[0])
    requires forall k :: 0 <= k < i && Good(states[k]) ==> Good(states[k + 1])
    ensures Good(states[i])
  {
    if i > 0 {
      GoodAllAlong(states, i - 1);
    }
  }

  lemma ReachableInv(states: seq<Whole>, actions: seq<Action>, i: nat)
    requires IsRun(states, actions) && i < |states|
    ensures WholeInv(states[i]) && StorageHolds(states[i].x)
  {
    NewIsGood();
    forall k | 0 <= k < i && Good(states[k]) ensures Good(states[k + 1]) {
      StepsKeepGood(states[k], actions[k], states[k + 1]);
    }
    GoodAllAlong(states, i);
  }

  /**
   * Every request that names a job, or a file of one, was sent with a credential of the device that
   * owns the job: over any run of pair, submit, retry and status, with crashes, re-pairing, and late,
   * lost and repeated requests.
   */
  lemma RequestsAreTheOwners(states: seq<Whole>, actions: seq<Action>, i: nat, q: Sent)
    requires IsRun(states, actions) && i < |states| && q in states[i].x.sent
    ensures SentByOwner(states[i].x, q)
  {
    ReachableInv(states, actions, i);
  }

  /** A command at work uses the credential in the keyring. */
  lemma CredentialFollowsKeyring(states: seq<Whole>, actions: seq<Action>, i: nat)
    requires IsRun(states, actions) && i < |states|
    requires states[i].pc.Some? && states[i].pc.value.Working?
    ensures states[i].keyring.Some? && states[i].x.device == states[i].keyring.value.device
  {
    ReachableInv(states, actions, i);
    assert P.PcInv(Seen(states[i]), states[i].pc.value);
  }

  /** Pairing's rules are never in the way of a step: what can happen, pairing allows. */
  lemma PairingAllows(states: seq<Whole>, actions: seq<Action>, i: nat, a: Action)
    requires IsRun(states, actions) && i < |states| && Can(states[i], a)
    ensures L.JobsKnown(states[i].x.server)
    ensures MoveSeen(states[i], a).Some? ==> P.May(Seen(states[i]), MoveSeen(states[i], a).value)
  {
    ReachableInv(states, actions, i);
    WholeStep(states[i], a);
  }
}
