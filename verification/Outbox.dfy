/** The connector's one durable document per origin, and the command that works through it. */
module Outbox {
  import opened Common
  import opened Rows
  import opened Parts

  // ----- the document -----

  datatype Piece = Piece(number: nat, etag: Digest<Bytes>)

  datatype Phase = CREATE | UPLOAD | SUBMIT | EVIDENCE

  /** One attachment as it was declared; its digest names the bytes that were hashed. */
  datatype Item = Item(kind: AttachmentKind, size: nat, sha256: Digest<Bytes>)

  datatype Manifest = Manifest(base: Option<Digest<Bytes>>, items: seq<Item>)

  /** The remote identifiers of an attachment are one value: attachment, file and upload match one to one. */
  datatype AttachmentDoc = AttachmentDoc(
    item: Item,
    partSha256s: seq<Digest<Bytes>>,
    remote: Option<nat>,
    completedParts: seq<Piece>,
    completed: bool)

  datatype Evidence = Evidence(job: nat, status: JobStatus, code: Option<ResultCode>)

  datatype Entry = Entry(
    key: nat,
    fingerprint: Digest<Manifest>,
    job: Option<nat>,
    phase: Phase,
    attachments: seq<AttachmentDoc>,
    evidence: Option<Evidence>)

  function Total(att: AttachmentDoc): nat {
    TotalParts(att.item.size)
  }

  // ----- what every load and save checks -----

  predicate PartNumbersSorted(parts: seq<Piece>) {
    forall i, k :: 0 <= i < k < |parts| ==> parts[i].number < parts[k].number
  }

  predicate AttachmentValid(att: AttachmentDoc) {
    && 1 <= att.item.size <= ATTACHMENT_MAX_BYTES
    && 1 <= |att.partSha256s| <= 13
    && PartNumbersSorted(att.completedParts)
    && (forall p :: p in att.completedParts ==> 1 <= p.number <= Total(att))
    && |att.partSha256s| == Total(att)
    && (att.completed ==> |att.completedParts| == Total(att))
  }

  predicate EvidenceValid(evidence: Evidence) {
    && evidence.status != JobUploading
    && (evidence.status in {Rejected, Conflict} <==> evidence.code.Some?)
  }

  predicate PhaseConsistent(e: Entry) {
    && (if e.phase == CREATE then
          && e.job.None?
          && forall a :: a in e.attachments ==> a.remote.None? && a.completedParts == [] && !a.completed
        else
          e.job.Some? && forall a :: a in e.attachments ==> a.remote.Some?)
    && (e.phase in {SUBMIT, EVIDENCE} ==> forall a :: a in e.attachments ==> a.completed)
    && (if e.phase == EVIDENCE then
          e.evidence.Some? && e.job == Some(e.evidence.value.job) && EvidenceValid(e.evidence.value)
        else e.evidence.None?)
  }

  predicate KindsDistinct(attachments: seq<AttachmentDoc>) {
    forall i, k :: 0 <= i < k < |attachments| ==> attachments[i].item.kind != attachments[k].item.kind
  }

  predicate EntryValid(e: Entry) {
    && 1 <= |e.attachments| <= 3
    && (forall a :: a in e.attachments ==> AttachmentValid(a))
    && KindsDistinct(e.attachments)
    && PhaseConsistent(e)
  }

  // ----- preparation -----

  /** What preparation establishes: bounded files, declared with the size and digest of bytes really read. */
  predicate ManifestOk(m: Manifest) {
    && 1 <= |m.items| <= 3
    && (forall i, k :: 0 <= i < k < |m.items| ==> m.items[i].kind != m.items[k].kind)
    && (forall item :: item in m.items ==>
          && 1 <= item.size <= ATTACHMENT_MAX_BYTES
          && item.size == |item.sha256.preimage|)
  }

  function PartDigests(item: Item): seq<Digest<Bytes>> {
    Digests(PartsOf(item.sha256.preimage))
  }

  function InitialAttachment(item: Item): AttachmentDoc {
    AttachmentDoc(item, PartDigests(item), None, [], false)
  }

  function InitialEntry(key: nat, m: Manifest): Entry {
    Entry(key, Sha256(m), None, CREATE,
          seq(|m.items|, i requires 0 <= i < |m.items| => InitialAttachment(m.items[i])), None)
  }

  // ----- the requests and how the command chooses them -----

  datatype Request =
    | CreateJob(key: nat, manifest: Manifest)
    | PutPart(file: nat, number: nat, content: Bytes)
    | CompleteFile(file: nat, parts: seq<Piece>)
    | SubmitJob(job: nat)

  datatype AttachmentView = AttachmentView(kind: AttachmentKind, file: nat, state: FileState)

  datatype Reply =
    | JobView(job: nat, status: JobStatus, attachments: seq<AttachmentView>)
    | Stored(etag: Digest<Bytes>)
    | Completed
    | Submitted(evidence: Evidence)

  /** The attachment the upload loop is at: the first that is not completed. */
  function Current(attachments: seq<AttachmentDoc>): (i: nat)
    ensures i <= |attachments|
    ensures forall k :: 0 <= k < i ==> attachments[k].completed
    ensures i < |attachments| ==> !attachments[i].completed
  {
    if attachments == [] || !attachments[0].completed then 0 else 1 + Current(attachments[1..])
  }

  predicate HasPart(parts: seq<Piece>, number: nat) {
    exists p :: p in parts && p.number == number
  }

  /** The first part number from n on that is not recorded. */
  function NextPart(att: AttachmentDoc, n: nat): (next: nat)
    requires n <= Total(att) + 1
    ensures n <= next <= Total(att) + 1
    ensures forall k :: n <= k < next ==> HasPart(att.completedParts, k)
    ensures next <= Total(att) ==> !HasPart(att.completedParts, next)
    decreases Total(att) + 1 - n
  {
    if n > Total(att) || !HasPart(att.completedParts, n) then n else NextPart(att, n + 1)
  }

  /** Whether this is the next request for an attachment; a part must pass the length and digest check. */
  predicate AttachmentWants(att: AttachmentDoc, request: Request) {
    var n := NextPart(att, 1);
    if n <= Total(att) then
      && request.PutPart? && att.remote == Some(request.file) && request.number == n
      && |att.partSha256s| >= n
      && AcceptedAsPart(request.content, n, att.item.size, att.partSha256s[n - 1])
    else
      att.remote.Some? && request == CompleteFile(att.remote.value, att.completedParts)
  }

  predicate Wants(e: Entry, request: Request) {
    match e.phase
    case CREATE => request == CreateJob(e.key, e.fingerprint.preimage)
    case UPLOAD => Current(e.attachments) < |e.attachments|
        && AttachmentWants(e.attachments[Current(e.attachments)], request)
    case SUBMIT => e.job.Some? && request == SubmitJob(e.job.value)
    case EVIDENCE => false
  }

  // ----- the replies and what they change -----

  /** The echo checks on a created job: fresh, with this package's kinds in this order and distinct files. */
  predicate AcceptsView(e: Entry, view: Reply)
    requires view.JobView?
  {
    && |view.attachments| == |e.attachments|
    && (forall i :: 0 <= i < |e.attachments| ==> view.attachments[i].kind == e.attachments[i].item.kind)
    && view.status == JobUploading
    && (forall v :: v in view.attachments ==> v.state == Uploading)
    && (forall i, k :: 0 <= i < k < |view.attachments| ==> view.attachments[i].file != view.attachments[k].file)
  }

  /** Whether the command goes on with this reply; every other one ends it. */
  predicate Accepts(e: Entry, request: Request, reply: Reply) {
    match request
    case CreateJob(_, _) => reply.JobView? && AcceptsView(e, reply)
    case PutPart(_, _, _) => reply.Stored?
    case CompleteFile(_, _) => reply.Completed?
    case SubmitJob(job) => reply.Submitted? && reply.evidence.job == job && EvidenceValid(reply.evidence)
  }

  function ByKind(attachments: seq<AttachmentView>, kind: AttachmentKind): Option<nat> {
    if attachments == [] then None
    else if attachments[|attachments| - 1].kind == kind then Some(attachments[|attachments| - 1].file)
    else ByKind(attachments[..|attachments| - 1], kind)
  }

  function BindCreatedJob(e: Entry, view: Reply): Entry
    requires view.JobView?
  {
    e.(job := Some(view.job),
       phase := UPLOAD,
       attachments := seq(|e.attachments|, i requires 0 <= i < |e.attachments| =>
         e.attachments[i].(remote := ByKind(view.attachments, e.attachments[i].item.kind))))
  }

  /** Appends a part and sorts again. */
  function Inserted(parts: seq<Piece>, p: Piece): seq<Piece> {
    if parts == [] || parts[|parts| - 1].number <= p.number then parts + [p]
    else Inserted(parts[..|parts| - 1], p) + [parts[|parts| - 1]]
  }

  function WithAttachment(e: Entry, i: nat, att: AttachmentDoc): Entry
    requires i < |e.attachments|
  {
    e.(attachments := e.attachments[i := att])
  }

  function Updated(e: Entry, request: Request, reply: Reply): Entry
    requires Wants(e, request) && Accepts(e, request, reply)
  {
    match request
    case CreateJob(_, _) => BindCreatedJob(e, reply)
    case PutPart(_, number, _) =>
      var i := Current(e.attachments);
      var att := e.attachments[i];
      WithAttachment(e, i, att.(completedParts := Inserted(att.completedParts, Piece(number, reply.etag))))
    case CompleteFile(_, _) =>
      var i := Current(e.attachments);
      WithAttachment(e, i, e.attachments[i].(completed := true))
    case SubmitJob(_) => e.(phase := EVIDENCE, evidence := Some(reply.evidence))
  }

  // ----- the command as a machine over its durable effects -----

  datatype Pc = Idle | Ready | Waiting(request: Request) | Saving(next: Entry)

  /** One origin: its document, the running command, and what this document has issued and suffered. */
  datatype Connector = Connector(disk: Option<Entry>, pc: Pc, issued: seq<Request>, interrupted: nat)

  const FRESH := Connector(None, Idle, [], 0)

  datatype Event =
    | BeginSubmit(key: nat, manifest: Manifest)
    | BeginRetry
    | Send(request: Request)
    | Receive(reply: Reply)
    | Advance
    | Save
    | Finish
    | Discard
    | Interrupt

  predicate May(c: Connector, ev: Event) {
    match ev
    case BeginSubmit(_, m) => c.pc.Idle? && c.disk.None? && ManifestOk(m)
    case BeginRetry => c.pc.Idle? && c.disk.Some?
    case Send(request) => c.pc.Ready? && c.disk.Some? && Wants(c.disk.value, request)
    case Receive(reply) =>
      c.pc.Waiting? && c.disk.Some? && Wants(c.disk.value, c.pc.request) && Accepts(c.disk.value, c.pc.request, reply)
    case Advance =>
      c.pc.Ready? && c.disk.Some? && c.disk.value.phase == UPLOAD
          && Current(c.disk.value.attachments) == |c.disk.value.attachments|
    case Save => c.pc.Saving? && EntryValid(c.pc.next)
    case Finish => c.pc.Ready? && c.disk.Some? && c.disk.value.phase == EVIDENCE
    case Discard => !c.pc.Waiting? && !c.pc.Saving? && c.disk.Some? && c.disk.value.phase != EVIDENCE
    case Interrupt => !c.pc.Idle?
  }

  /** Discard is a changed local file, or a pairing that replaced the device. */
  function After(c: Connector, ev: Event): Connector
    requires May(c, ev)
  {
    match ev
    case BeginSubmit(key, m) => Connector(None, Saving(InitialEntry(key, m)), [], 0)
    case BeginRetry => c.(pc := Ready)
    case Send(request) => c.(pc := Waiting(request), issued := c.issued + [request])
    case Receive(reply) => c.(pc := Saving(Updated(c.disk.value, c.pc.request, reply)))
    case Advance => c.(pc := Saving(c.disk.value.(phase := SUBMIT)))
    case Save => c.(disk := Some(c.pc.next), pc := Ready)
    case Finish => c.(disk := None, pc := Idle)
    case Discard => c.(disk := None, pc := Idle)
    case Interrupt => c.(pc := Idle, interrupted := c.interrupted + 1)
  }
}
