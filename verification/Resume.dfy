/**
 * The connector and the server together. A request that was sent may be executed late, more than
 * once or never, and an answer may be lost; the rest of the server moves on meanwhile.
 */
module Resume {
  import opened Common
  import opened Rows
  import opened Parts
  import opened Outbox
  import L = Lifecycle

  /** A request with the device whose credential it carries. */
  datatype Sent = Sent(device: nat, request: Request)

  datatype Answer = Answer(device: nat, request: Request, reply: Reply)

  /**
   * device is the one whose credential is in use, own all that this workstation was ever paired as,
   * mine the files of their jobs, multipart the parts that storage holds for those of them that are
   * not yet put together.
   */
  datatype Joint = Joint(
    device: nat,
    own: set<nat>,
    server: L.System,
    multipart: map<nat, map<nat, Bytes>>,
    mine: set<nat>,
    sent: set<Sent>,
    answers: set<Answer>,
    connector: Connector)

  datatype Move =
    | Local(ev: Event)
    | Elsewhere(a: L.Action)
    | ActAs(device: nat)
    | ServeNewJob(d: nat, request: Request, j: nat, files: seq<nat>)
    | ServeJobView(d: nat, request: Request, j: nat)
    | ServePut(d: nat, request: Request)
    | ServeCompleted(d: nat, request: Request)
    | ServeAssembly(d: nat, request: Request, lost: bool)
    | ServeSubmit(d: nat, request: Request, permitted: bool)
    | AbortMultipart(f: nat)

  const START := Joint(0, {}, L.INITIAL, map[], {}, {}, {}, FRESH)

  // ----- the rows a package becomes -----

  /** The job was made from this manifest: the same base, kinds, sizes and digests, in its order. */
  predicate Served(files: map<nat, FileRow>, job: JobRow, m: Manifest) {
    && job.base == m.base
    && |job.attachments| == |m.items|
    && forall i :: 0 <= i < |m.items| ==>
         var a := job.attachments[i];
         && a.kind == m.items[i].kind
         && a.file in files
         && files[a.file].size == m.items[i].size
         && files[a.file].sha256 == m.items[i].sha256
  }

  function Attached(items: seq<Item>, files: seq<nat>): seq<Attachment>
    requires |items| == |files|
  {
    seq(|items|, i requires 0 <= i < |items| => Attachment(items[i].kind, files[i]))
  }

  function OfKind(attachments: seq<Attachment>, kind: AttachmentKind): seq<Attachment> {
    if attachments == [] then []
    else (if attachments[0].kind == kind then [attachments[0]] else []) + OfKind(attachments[1..], kind)
  }

  /** A job view lists the attachments by the stored name of their kind. */
  function ViewOrder(attachments: seq<Attachment>): seq<Attachment> {
    OfKind(attachments, K3_RAW) + OfKind(attachments, ORIGINAL) + OfKind(attachments, REVISED)
  }

  function Listed(files: map<nat, FileRow>, job: JobRow): seq<AttachmentView> {
    var ordered := ViewOrder(job.attachments);
    seq(|ordered|, i requires 0 <= i < |ordered| =>
      AttachmentView(ordered[i].kind, ordered[i].file,
                     if ordered[i].file in files then files[ordered[i].file].state else Failed))
  }

  // ----- storage -----

  /** The parts named, in ascending order, are all there with these etags. */
  predicate PartsMatch(parts: seq<Piece>, stored: map<nat, Bytes>) {
    PartNumbersSorted(parts) && forall p :: p in parts ==> p.number in stored && p.etag == Sha256(stored[p.number])
  }

  function WithPart(stored: map<nat, Bytes>, number: nat, content: Bytes): map<nat, Bytes> {
    stored[number := content]
  }

  function Assembled(parts: seq<Piece>, stored: map<nat, Bytes>): Bytes
    requires PartsMatch(parts, stored)
  {
    Flatten(seq(|parts|, i requires 0 <= i < |parts| => assert parts[i] in parts; stored[parts[i].number]))
  }

  // ----- the step relation -----

  /** Nobody else completes these devices' uploads, submits their jobs or binds their files. */
  predicate Foreign(x: Joint, a: L.Action) {
    match a
    case CompleteLost(f, _) => f !in x.mine
    case Complete(f, _) => f !in x.mine
    case CreateJob(_, device, _, _, attachments) =>
      device !in x.own && forall i :: 0 <= i < |attachments| ==> attachments[i].file !in x.mine
    case LockForSubmit(j, _) => j in x.server.jobs && x.server.jobs[j].device !in x.own
    case _ => true
  }

  predicate OwnJob(x: Joint, j: nat) {
    j in x.server.jobs && x.server.jobs[j].device in x.own
  }

  predicate JobOf(x: Joint, d: nat, j: nat) {
    j in x.server.jobs && x.server.jobs[j].device == d
  }

  /** The file is attached to a job of the device; the server checks this on every attachment request. */
  ghost predicate FileOf(x: Joint, d: nat, f: nat) {
    f in x.server.files && exists j :: JobOf(x, d, j) && f in L.FilesOf(x.server.jobs[j])
  }

  ghost predicate HasNoJobs(x: Joint, d: nat) {
    forall j :: !JobOf(x, d, j)
  }

  /** A file provisioned for a new job: declared as the manifest says, in no job, nothing assembled for it. */
  predicate FreshUpload(x: Joint, f: nat, item: Item) {
    && f in x.server.files
    && f !in x.mine
    && f !in x.server.objects
    && (x.server.files[f].state == Uploading
        || (x.server.files[f].state == Failed && x.server.files[f].scanResult == Some(UploadExpired)))
    && (x.server.files[f].state == Uploading ==> x.server.files[f].scanResult.None?)
    && x.server.files[f].size == item.size
    && x.server.files[f].sha256 == item.sha256
  }

  function NewJob(d: nat, request: Request, j: nat, files: seq<nat>): L.Action
    requires request.CreateJob? && |files| == |request.manifest.items|
  {
    L.CreateJob(j, d, request.key, request.manifest.base, Attached(request.manifest.items, files))
  }

  function AssemblyAction(x: Joint, request: Request, lost: bool): L.Action
    requires request.CompleteFile? && request.file in x.multipart
    requires PartsMatch(request.parts, x.multipart[request.file])
  {
    var content := Assembled(request.parts, x.multipart[request.file]);
    if lost then L.CompleteLost(request.file, content) else L.Complete(request.file, content)
  }

  ghost predicate Possible(x: Joint, m: Move) {
    match m
    case Local(ev) =>
      && May(x.connector, ev)
      && (ev.Send? ==> x.device in x.own)
      && (ev.Receive? ==> Answer(x.device, x.connector.pc.request, ev.reply) in x.answers)
    case ActAs(d) => d in x.own || HasNoJobs(x, d)
    case Elsewhere(a) => L.Enabled(x.server, a) && Foreign(x, a)
    case ServeNewJob(d, request, j, files) =>
      && Sent(d, request) in x.sent && request.CreateJob?
      && |files| == |request.manifest.items|
      && (forall i :: 0 <= i < |files| ==> FreshUpload(x, files[i], request.manifest.items[i]))
      && Distinct(files)
      && L.Enabled(x.server, NewJob(d, request, j, files))
    case ServeJobView(d, request, j) =>
      && Sent(d, request) in x.sent && request.CreateJob? && JobOf(x, d, j)
      && x.server.jobs[j].key == request.key
      && Served(x.server.files, x.server.jobs[j], request.manifest)
    case ServePut(d, request) => Sent(d, request) in x.sent && request.PutPart? && request.file in x.multipart
    case ServeCompleted(d, request) =>
      && Sent(d, request) in x.sent && request.CompleteFile?
      && FileOf(x, d, request.file) && x.server.files[request.file].state != Uploading
    case ServeAssembly(d, request, _) =>
      && Sent(d, request) in x.sent && request.CompleteFile?
      && FileOf(x, d, request.file) && x.server.files[request.file].state == Uploading
      && request.file in x.multipart && PartsMatch(request.parts, x.multipart[request.file])
    case ServeSubmit(d, request, permitted) =>
      && Sent(d, request) in x.sent && request.SubmitJob? && JobOf(x, d, request.job)
      && L.Enabled(x.server, L.LockForSubmit(request.job, permitted))
    case AbortMultipart(f) => f in x.mine && f in x.server.files && x.server.files[f].state != Uploading
  }

  /** What the server does in a move, if anything. */
  function ServerAction(x: Joint, m: Move): Option<L.Action>
    requires Possible(x, m)
  {
    match m
    case Elsewhere(a) => Some(a)
    case ServeNewJob(d, request, j, files) => Some(NewJob(d, request, j, files))
    case ServeAssembly(_, request, lost) => Some(AssemblyAction(x, request, lost))
    case ServeSubmit(_, request, permitted) => Some(L.LockForSubmit(request.job, permitted))
    case _ => None
  }

  function NextServer(x: Joint, m: Move): L.System
    requires L.JobsKnown(x.server) && Possible(x, m)
  {
    var a := ServerAction(x, m);
    if a.Some? then L.Apply(x.server, a.value) else x.server
  }

  function NextMultipart(x: Joint, m: Move): map<nat, map<nat, Bytes>>
    requires Possible(x, m)
  {
    match m
    case ServeNewJob(_, _, _, files) =>
      x.multipart + map f | f in files && f in x.server.files && x.server.files[f].state == Uploading :: map[]
    case ServePut(_, request) =>
      x.multipart[request.file := WithPart(x.multipart[request.file], request.number, request.content)]
    case ServeAssembly(_, request, _) => x.multipart - {request.file}
    case AbortMultipart(f) => x.multipart - {f}
    case _ => x.multipart
  }

  function EvidenceOf(j: nat, job: JobRow): Evidence {
    Evidence(j, job.status, job.code)
  }

  /** The answers a move gives; the result of a submit is known when its transaction commits. */
  function NewAnswers(x: Joint, m: Move): set<Answer>
    requires Possible(x, m)
  {
    match m
    case ServeJobView(d, request, j) =>
      {Answer(d, request, JobView(j, x.server.jobs[j].status, Listed(x.server.files, x.server.jobs[j])))}
    case ServePut(d, request) => {Answer(d, request, Stored(Sha256(request.content)))}
    case ServeCompleted(d, request) => {Answer(d, request, Completed)}
    case Elsewhere(a) =>
      if a.CommitJob? && x.server.locks[a.j].holder.ByDevice?
         && L.NextJobs(x.server, a)[a.j].status != JobUploading then
        {Answer(x.server.jobs[a.j].device, SubmitJob(a.j), Submitted(EvidenceOf(a.j, L.NextJobs(x.server, a)[a.j])))}
      else {}
    case _ => {}
  }

  function Next(x: Joint, m: Move): Joint
    requires L.JobsKnown(x.server) && Possible(x, m)
  {
    Joint(
      if m.ActAs? then m.device else x.device,
      if m.ActAs? then x.own + {m.device} else x.own,
      NextServer(x, m),
      NextMultipart(x, m),
      if m.ServeNewJob? then x.mine + (set f | f in m.files) else x.mine,
      if m.Local? && m.ev.Send? then x.sent + {Sent(x.device, m.ev.request)} else x.sent,
      x.answers + NewAnswers(x, m),
      if m.Local? then After(x.connector, m.ev) else x.connector)
  }
}
