/**
 * Pairing and import together: the commands of one workstation, its document, markers and keyring,
 * next to the real server. The credential in use follows the keyring.
 */
module Whole {
  import opened Common
  import opened Rows
  import opened Outbox
  import opened OutboxProgress
  import opened OutboxRuns
  import L = Lifecycle
  import I = LifecycleInvariant
  import P = Pairing
  import opened Resume
  import opened ResumeInvariant
  import opened ResumeSteps

  datatype Whole = Whole(
    x: Joint,
    replacement: Option<P.ReplacementMarker>,
    completion: Option<Option<P.Token>>,
    keyring: Option<P.Token>,
    devices: nat,
    serials: nat,
    stored: bool,
    pc: Option<P.Pc>)

  const NEW := Whole(START, None, None, None, 0, 0, false, None)

  datatype Action =
    | Begin(command: P.Command)
    | Clerk
    | DropDocument
    | NewDocument(manifest: Manifest)
    | PrintDocument
    | Grant(answered: bool)
    | Rotate(answered: bool)
    | TakeUp
    | Work(ev: Event)
    | DiscardEarly
    | Die
    | Others
    | Serve(m: Move)

  // ----- what pairing sees of it -----

  /** The device whose job the document names. */
  function DeviceOf(x: Joint, e: Entry): Option<nat> {
    if e.job.Some? && e.job.value in x.server.jobs then Some(x.server.jobs[e.job.value].device) else None
  }

  function DocumentSeen(x: Joint): Option<P.Document> {
    if x.connector.disk.None? then None
    else
      var e := x.connector.disk.value;
      Some(P.Document(e.key, e.phase, DeviceOf(x, e)))
  }

  function Seen(s: Whole): P.World {
    P.World(DocumentSeen(s.x), s.replacement, s.completion, s.keyring, s.devices, s.serials, s.stored, s.pc)
  }

  // ----- the steps -----

  /** The local effects of pairing that leave the document alone. */
  predicate ClerkPc(pc: P.Pc) {
    || pc.Begin? || pc.DropReplacement? || pc.Recovered? || pc.DropCompletion? || pc.Marking?
    || pc.SaveCredential? || pc.PairedDropReplacement? || pc.PairedDropCompletion?
  }

  predicate WorkEvent(ev: Event) {
    ev.Send? || ev.Receive? || ev.Advance? || ev.Save? || ev.Finish? || ev.Discard?
  }

  predicate At(s: Whole, pc: P.Pc) {
    s.pc == Some(pc)
  }

  ghost predicate Can(s: Whole, a: Action) {
    match a
    case Begin(_) => s.pc.None?
    case Clerk => s.pc.Some? && ClerkPc(s.pc.value)
    case DropDocument => s.pc.Some? && (s.pc.value.DropEntry? || s.pc.value.PairedDropEntry?)
        && Outbox.May(s.x.connector, Discard)
    case NewDocument(m) =>
      && s.pc.Some? && s.pc.value.SaveEntry? && ManifestOk(m)
      && s.x.connector.pc.Idle? && s.x.connector.disk.None?
    case PrintDocument =>
      && At(s, P.Printing) && s.x.connector.pc.Idle?
      && s.x.connector.disk.Some? && s.x.connector.disk.value.phase == EVIDENCE
    case Grant(_) => s.pc.Some? && s.pc.value.CallPair?
    case Rotate(_) => s.pc.Some? && s.pc.value.CallRefresh? && s.keyring.Some?
    case TakeUp => s.pc.Some? && s.pc.value.SaveRotated?
    case Work(ev) => At(s, P.Working(s.x.device)) && WorkEvent(ev) && Possible(s.x, Local(ev))
    case DiscardEarly => At(s, P.CallRefresh(true)) && Outbox.May(s.x.connector, Discard)
    case Die => s.pc.Some?
    case Others => true
    case Serve(m) =>
      && !m.Local? && !m.ActAs? && Possible(s.x, m)
      && (m.Elsewhere? && m.a.CreateJob? ==> m.a.device < s.devices)
  }

  function WithConnector(x: Joint, c: Connector): Joint {
    x.(connector := c)
  }

  function Acting(x: Joint, device: nat): Joint {
    x.(device := device, own := x.own + {device})
  }

  function Interrupted(c: Connector): Connector {
    if c.pc.Idle? then c else Outbox.After(c, Interrupt)
  }

  function TakenUp(c: Connector, resume: bool): Connector {
    if resume && c.pc.Idle? && c.disk.Some? then Outbox.After(c, BeginRetry) else c
  }

  function NewConnector(s: Whole, a: Action): Connector
    requires Can(s, a)
  {
    var c := s.x.connector;
    match a
    case DropDocument => Outbox.After(c, Discard)
    case NewDocument(m) =>
      InitialOk(s.pc.value.name, m);
      Outbox.After(Outbox.After(c, BeginSubmit(s.pc.value.name, m)), Save)
    case PrintDocument => Outbox.After(Outbox.After(c, BeginRetry), Finish)
    case Rotate(answered) => if answered then c else Interrupted(c)
    case TakeUp => TakenUp(c, s.pc.value.resume)
    case Work(ev) => Outbox.After(c, ev)
    case DiscardEarly => Outbox.After(c, Discard)
    case Die => Interrupted(c)
    case _ => c
  }

  function NewDevice(s: Whole, a: Action): nat
    requires Can(s, a)
  {
    match a
    case Grant(_) => s.devices
    case TakeUp => s.pc.value.token.device
    case _ => s.x.device
  }

  function NewOwn(s: Whole, a: Action): set<nat>
    requires Can(s, a)
  {
    if a.Grant? || a.TakeUp? then s.x.own + {NewDevice(s, a)} else s.x.own
  }

  function NewJoint(s: Whole, a: Action): Joint
    requires L.JobsKnown(s.x.server) && Can(s, a)
  {
    match a
    case Work(ev) => Next(s.x, Local(ev))
    case Serve(m) => Next(s.x, m)
    case _ => s.x.(device := NewDevice(s, a), own := NewOwn(s, a), connector := NewConnector(s, a))
  }

  /** The move that pairing sees, if any. */
  function MoveSeen(s: Whole, a: Action): Option<P.Move>
    requires Can(s, a)
  {
    match a
    case Begin(command) => Some(P.Start(command))
    case Clerk => Some(P.Go)
    case DropDocument => Some(P.Go)
    case NewDocument(_) => Some(P.Go)
    case PrintDocument => Some(P.Go)
    case TakeUp => Some(P.Go)
    case Grant(answered) => Some(P.Grant(answered))
    case Rotate(answered) => Some(P.Rotate(answered))
    case Work(ev) =>
      if ev.Save? then
        Some(if s.x.connector.disk.Some? && s.x.connector.disk.value.phase == CREATE then P.Bind
             else P.Progress(s.x.connector.pc.next.phase))
      else if ev.Finish? then Some(P.Finish)
      else if ev.Discard? then Some(P.Discard)
      else None
    case DiscardEarly => Some(P.Discard)
    case Die => Some(P.Crash)
    case Others => Some(P.Others)
    case Serve(_) => None
  }

  /** Markers, keyring and program counter, which move as pairing says. */
  function NewWorld(s: Whole, a: Action): P.World
    requires Can(s, a)
    requires MoveSeen(s, a).Some? ==> P.May(Seen(s), MoveSeen(s, a).value)
  {
    if MoveSeen(s, a).None? then Seen(s) else P.After(Seen(s), MoveSeen(s, a).value)
  }

  function NextWhole(s: Whole, a: Action): Whole
    requires L.JobsKnown(s.x.server) && Can(s, a)
    requires MoveSeen(s, a).Some? ==> P.May(Seen(s), MoveSeen(s, a).value)
  {
    var w := NewWorld(s, a);
    Whole(NewJoint(s, a), w.replacement, w.completion, w.keyring, w.devices, w.serials, w.stored, w.pc)
  }

  // ----- what holds at every moment -----

  /** How far the connector is at each point of a command. */
  predicate InTime(c: Connector, device: nat, at: Option<P.Pc>) {
    match at
    case None => c.pc.Idle?
    case Some(pc) =>
      if pc.Working? then device == pc.device && !c.pc.Idle?
      else if pc == P.CallRefresh(true) || (pc.SaveRotated? && pc.resume) then c.pc.Idle? || c.pc.Ready?
      else c.pc.Idle?
  }

  /** The credentials of this workstation belong to devices of its own, and the server knows every device. */
  ghost predicate DevicesKnown(s: Whole) {
    && CredentialsOwn(Seen(s), s.x.own)
    && (forall j :: j in s.x.server.jobs ==> s.x.server.jobs[j].device < s.devices)
  }

  predicate CredentialsOwn(w: P.World, own: set<nat>) {
    && (w.keyring.Some? ==> w.keyring.value.device in own)
    && (w.pc.Some? && w.pc.value.SaveCredential? ==> w.pc.value.token.device in own)
    && (forall d <- own :: d < w.devices)
  }

  /** A request that names a job, or a file of one, carries the credential of the device that owns the job. */
  ghost predicate SentByOwner(x: Joint, q: Sent) {
    match q.request
    case CreateJob(_, _) => true
    case PutPart(f, _, _) => FileOf(x, q.device, f)
    case CompleteFile(f, _) => FileOf(x, q.device, f)
    case SubmitJob(j) => JobOf(x, q.device, j)
  }

  ghost predicate AllSentByOwner(x: Joint) {
    forall q :: q in x.sent ==> SentByOwner(x, q)
  }

  /** The next document is the present one carried on: same key, same job, next phase. */
  predicate Follows(e: Entry, next: Entry) {
    && next.key == e.key
    && (e.job.Some? ==> next.job == e.job)
    && (match e.phase
        case CREATE => next.phase == UPLOAD
        case UPLOAD => next.phase == UPLOAD || next.phase == SUBMIT
        case SUBMIT => next.phase == EVIDENCE
        case EVIDENCE => false)
  }

  /** While a command works, what it is about to save follows the disk and belongs to its device. */
  predicate SavesOwn(jobs: map<nat, JobRow>, c: Connector, device: nat, at: Option<P.Pc>) {
    at.Some? && at.value.Working? && c.pc.Saving? ==>
      && c.disk.Some?
      && Follows(c.disk.value, c.pc.next)
      && c.pc.next.job.Some? && c.pc.next.job.value in jobs
      && jobs[c.pc.next.job.value].device == device
  }

  ghost predicate WholeInv(s: Whole) {
    && JointInv(s.x)
    && P.Inv(Seen(s))
    && InTime(s.x.connector, s.x.device, s.pc)
    && DevicesKnown(s) && AllSentByOwner(s.x)
    && SavesOwn(s.x.server.jobs, s.x.connector, s.x.device, s.pc)
  }
}
