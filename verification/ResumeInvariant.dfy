/** What every move of the connector, the server and the network between them keeps. */
module ResumeInvariant {
  import opened Common
  import opened Rows
  import opened Parts
  import opened Outbox
  import opened OutboxProgress
  import opened OutboxRuns
  import L = Lifecycle
  import I = LifecycleInvariant
  import opened Resume

  // ----- the files of this workstation's jobs -----

  /** The bytes that were hashed when the file was prepared. */
  function Original(row: FileRow): Bytes {
    row.sha256.preimage
  }

  predicate DeclaredTruly(row: FileRow) {
    row.size == |Original(row)| && 1 <= row.size <= ATTACHMENT_MAX_BYTES
  }

  predicate Harmless(result: ScanResult) {
    result != SizeMismatch && result != HashMismatch
  }

  /** The object, once there is one, is the original; no result blames its size or digest. */
  predicate FileIntact(row: FileRow, stored: Option<Bytes>) {
    && DeclaredTruly(row)
    && (stored.Some? ==> stored.value == Original(row))
    && (row.scanResult.Some? ==> Harmless(row.scanResult.value))
  }

  predicate IsPart(row: FileRow, number: nat, content: Bytes) {
    && 1 <= number <= |PartsOf(Original(row))|
    && content == PartsOf(Original(row))[number - 1]
  }

  ghost predicate PartsIntact(row: FileRow, stored: map<nat, Bytes>) {
    forall n :: n in stored ==> IsPart(row, n, stored[n])
  }

  ghost predicate MineInv(x: Joint) {
    && (forall f :: f in x.mine ==> f in x.server.files && FileIntact(x.server.files[f], L.Stored(x.server, f)))
    && (forall f :: f in x.multipart ==>
          f in x.mine && f in x.server.files && PartsIntact(x.server.files[f], x.multipart[f]))
  }

  /** No worker is about to store a digest mismatch for one of these files. */
  ghost predicate WorkersInv(x: Joint) {
    forall d :: d in x.server.deliveries && x.server.deliveries[d].file in x.mine ==>
      x.server.deliveries[d].pc.Scanned? ==> Harmless(x.server.deliveries[d].pc.result)
  }

  ghost predicate OneJobPerKey(jobs: map<nat, JobRow>) {
    forall j, k :: j in jobs && k in jobs && jobs[j].device == jobs[k].device && jobs[j].key == jobs[k].key ==> j == k
  }

  // ----- requests, answers and documents against the server -----

  predicate IsPiece(row: FileRow, p: Piece) {
    && 1 <= p.number <= |PartsOf(Original(row))|
    && p.etag == Sha256(PartsOf(Original(row))[p.number - 1])
  }

  /** These pieces name every part of the original, in order. */
  predicate NamesAll(row: FileRow, parts: seq<Piece>) {
    && |parts| == |PartsOf(Original(row))|
    && NumberedFromOne(parts)
    && forall p :: p in parts ==> IsPiece(row, p)
  }

  ghost predicate AllLeftUploading(s: L.System, job: JobRow) {
    forall a :: a in job.attachments ==> a.file in s.files && s.files[a.file].state != Uploading
  }

  ghost predicate RequestOk(s: L.System, mine: set<nat>, r: Request) {
    match r
    case CreateJob(_, m) => ManifestOk(m)
    case PutPart(f, number, content) => f in mine && f in s.files && IsPart(s.files[f], number, content)
    case CompleteFile(f, parts) => f in mine && f in s.files && NamesAll(s.files[f], parts)
    case SubmitJob(j) => j in s.jobs && AllLeftUploading(s, s.jobs[j])
  }

  /** A final result is the job's for good; any result means that the job was submitted. */
  predicate EvidenceAgrees(evidence: Evidence, job: JobRow) {
    && job.status != JobUploading
    && EvidenceValid(evidence)
    && (TerminalStatus(evidence.status) ==> job.status == evidence.status && job.code == evidence.code)
  }

  predicate ViewAgrees(files: map<nat, FileRow>, mine: set<nat>, job: JobRow, attachments: seq<AttachmentView>) {
    var ordered := ViewOrder(job.attachments);
    && |attachments| == |ordered|
    && forall i :: 0 <= i < |ordered| ==>
         attachments[i].kind == ordered[i].kind && attachments[i].file == ordered[i].file && ordered[i].file in mine
  }

  ghost predicate ReplyOk(s: L.System, mine: set<nat>, device: nat, r: Request, reply: Reply) {
    match r
    case CreateJob(key, m) => reply.JobView? ==>
      && reply.job in s.jobs && s.jobs[reply.job].device == device && s.jobs[reply.job].key == key
      && Served(s.files, s.jobs[reply.job], m)
      && ViewAgrees(s.files, mine, s.jobs[reply.job], reply.attachments)
    case PutPart(_, _, content) => reply.Stored? ==> reply.etag == Sha256(content)
    case CompleteFile(f, _) => reply.Completed? ==> f in s.files && s.files[f].state != Uploading
    case SubmitJob(j) => reply.Submitted? ==> j in s.jobs && EvidenceAgrees(reply.evidence, s.jobs[j])
  }

  /** What an attachment of a document may rely on: its file was made for it, and has left UPLOADING once completed. */
  predicate AttachmentAgrees(s: L.System, mine: set<nat>, a: Attachment, att: AttachmentDoc) {
    && att.remote == Some(a.file)
    && a.kind == att.item.kind
    && a.file in mine && a.file in s.files
    && s.files[a.file].size == att.item.size && s.files[a.file].sha256 == att.item.sha256
    && (att.completed ==> s.files[a.file].state != Uploading)
    && forall p :: p in att.completedParts ==> IsPiece(s.files[a.file], p)
  }

  ghost predicate EntryAgrees(s: L.System, mine: set<nat>, e: Entry) {
    e.job.Some? ==>
      && e.job.value in s.jobs
      && var job := s.jobs[e.job.value];
      && job.key == e.key && job.base == e.fingerprint.preimage.base
      && |job.attachments| == |e.attachments|
      && (forall i :: 0 <= i < |e.attachments| ==> AttachmentAgrees(s, mine, job.attachments[i], e.attachments[i]))
      && (e.evidence.Some? ==> EvidenceAgrees(e.evidence.value, job))
  }

  ghost predicate ExchangeInv(x: Joint) {
    && (forall s :: s in x.sent ==> s.device in x.own && RequestOk(x.server, x.mine, s.request))
    && (forall a :: a in x.answers ==> ReplyOk(x.server, x.mine, a.device, a.request, a.reply))
  }

  ghost predicate DocumentsAgree(x: Joint) {
    && (x.connector.disk.Some? ==> EntryAgrees(x.server, x.mine, x.connector.disk.value))
    && (x.connector.pc.Saving? ==> EntryAgrees(x.server, x.mine, x.connector.pc.next))
  }

  /** The files of these devices' jobs are this workstation's. */
  ghost predicate OwnFiles(x: Joint) {
    forall j :: OwnJob(x, j) ==> forall a :: a in x.server.jobs[j].attachments ==> a.file in x.mine
  }

  ghost predicate JointInv(x: Joint) {
    && I.Inv(x.server)
    && ConnectorInv(x.connector)
    && OneJobPerKey(x.server.jobs)
    && OwnFiles(x) && MineInv(x) && WorkersInv(x) && ExchangeInv(x) && DocumentsAgree(x)
  }

  // ----- nothing of this is undone by a server that moves on -----

  lemma RequestKept(s: L.System, t: L.System, mine: set<nat>, more: set<nat>, r: Request)
    requires I.Grows(s, t) && mine <= more && RequestOk(s, mine, r)
    ensures RequestOk(t, more, r)
  {
    match r
    case CreateJob(_, _) =>
    case PutPart(f, _, _) => assert I.FileGrows(s.files[f], t.files[f]);
    case CompleteFile(f, _) => assert I.FileGrows(s.files[f], t.files[f]);
    case SubmitJob(j) =>
      assert I.JobGrows(s.jobs[j], t.jobs[j]);
      forall a | a in t.jobs[j].attachments ensures a.file in t.files && t.files[a.file].state != Uploading {
        assert I.FileGrows(s.files[a.file], t.files[a.file]);
      }
  }

  lemma ServedKept(s: L.System, t: L.System, j: nat, m: Manifest)
    requires I.Grows(s, t) && j in s.jobs && Served(s.files, s.jobs[j], m)
    ensures Served(t.files, t.jobs[j], m)
  {
    var job := s.jobs[j];
    assert I.JobGrows(job, t.jobs[j]);
    forall i | 0 <= i < |m.items|
      ensures I.FileGrows(s.files[job.attachments[i].file], t.files[job.attachments[i].file])
    {
    }
  }

  lemma ReplyKept(s: L.System, t: L.System, mine: set<nat>, more: set<nat>, device: nat, r: Request, reply: Reply)
    requires I.Grows(s, t) && mine <= more && ReplyOk(s, mine, device, r, reply)
    ensures ReplyOk(t, more, device, r, reply)
  {
    match r
    case CreateJob(_, m) =>
      if reply.JobView? {
        ServedKept(s, t, reply.job, m);
        assert I.JobGrows(s.jobs[reply.job], t.jobs[reply.job]);
      }
    case PutPart(_, _, _) =>
    case CompleteFile(f, _) =>
      if reply.Completed? {
        assert I.FileGrows(s.files[f], t.files[f]);
      }
    case SubmitJob(j) =>
      if reply.Submitted? {
        assert I.JobGrows(s.jobs[j], t.jobs[j]);
      }
  }

  lemma AttachmentKept(s: L.System, t: L.System, mine: set<nat>, more: set<nat>, a: Attachment, att: AttachmentDoc)
    requires I.Grows(s, t) && mine <= more && AttachmentAgrees(s, mine, a, att)
    ensures AttachmentAgrees(t, more, a, att)
  {
    assert I.FileGrows(s.files[a.file], t.files[a.file]);
  }

  lemma EntryKept(s: L.System, t: L.System, mine: set<nat>, more: set<nat>, e: Entry)
    requires I.Grows(s, t) && mine <= more && EntryAgrees(s, mine, e)
    ensures EntryAgrees(t, more, e)
  {
    if e.job.Some? {
      var job := s.jobs[e.job.value];
      assert I.JobGrows(job, t.jobs[e.job.value]);
      forall i | 0 <= i < |e.attachments|
        ensures AttachmentAgrees(t, more, t.jobs[e.job.value].attachments[i], e.attachments[i])
      {
        AttachmentKept(s, t, mine, more, job.attachments[i], e.attachments[i]);
      }
    }
  }
}
