/** Each request the connector sends and each document it builds agree with the server. */
module ResumeExchange {
  import opened Common
  import opened Rows
  import opened Parts
  import opened Outbox
  import opened OutboxProgress
  import opened OutboxRuns
  import L = Lifecycle
  import I = LifecycleInvariant
  import opened Resume
  import opened ResumeInvariant

  // ----- the order of a job view -----

  lemma {:induction false} OfKindMembers(attachments: seq<Attachment>, kind: AttachmentKind)
    ensures forall a :: a in OfKind(attachments, kind) ==> a in attachments && a.kind == kind
  {
    if attachments != [] {
      OfKindMembers(attachments[1..], kind);
    }
  }

  lemma ViewOrderMembers(attachments: seq<Attachment>)
    ensures forall a :: a in ViewOrder(attachments) ==> a in attachments
  {
    OfKindMembers(attachments, K3_RAW);
    OfKindMembers(attachments, ORIGINAL);
    OfKindMembers(attachments, REVISED);
  }

  /** If the kinds of the view come in the order of the manifest, so do its attachments. */
  lemma ViewInOrder(attachments: seq<Attachment>)
    requires AttachmentKindsDistinct(attachments)
    requires var ordered := ViewOrder(attachments);
      |ordered| == |attachments| && forall i :: 0 <= i < |ordered| ==> ordered[i].kind == attachments[i].kind
    ensures ViewOrder(attachments) == attachments
  {
    var ordered := ViewOrder(attachments);
    ViewOrderMembers(attachments);
    forall i | 0 <= i < |ordered| ensures ordered[i] == attachments[i] {
      assert ordered[i] in attachments;
    }
  }

  /** Preparation sorts ORIGINAL before REVISED before K3_RAW, and insists on exactly one K3_RAW. */
  predicate PreparedOrder(attachments: seq<Attachment>) {
    && attachments != []
    && attachments[|attachments| - 1].kind == K3_RAW
    && (forall i :: 0 <= i < |attachments| - 1 ==> attachments[i].kind != K3_RAW)
    && (forall i, k :: 0 <= i < k < |attachments| ==> attachments[i].kind != REVISED || attachments[k].kind == K3_RAW)
    && AttachmentKindsDistinct(attachments)
  }

  lemma {:induction false} OfKindFinds(attachments: seq<Attachment>, i: nat)
    requires i < |attachments|
    ensures attachments[i] in OfKind(attachments, attachments[i].kind)
  {
    if i > 0 {
      OfKindFinds(attachments[1..], i - 1);
    }
  }

  lemma EchoOrder(attachments: seq<Attachment>)
    requires PreparedOrder(attachments)
    ensures ViewOrder(attachments) == attachments <==> |attachments| == 1
  {
    var last := |attachments| - 1;
    OfKindFinds(attachments, last);
    OfKindMembers(attachments, K3_RAW);
    assert ViewOrder(attachments)[0] == OfKind(attachments, K3_RAW)[0];
    if |attachments| == 1 {
      var none := attachments[1..];
      assert none == [];
      assert OfKind(none, K3_RAW) == OfKind(none, ORIGINAL) == OfKind(none, REVISED) == [];
      assert OfKind(attachments, K3_RAW) == attachments;
    } else {
      assert ViewOrder(attachments)[0].kind == K3_RAW != attachments[0].kind;
    }
  }

  /**
   * The echo check of the connector compares the kinds in order, but the server lists them by name:
   * whenever the job is viewed, it is accepted exactly when the package holds nothing besides its K3_RAW,
   * and neither the job nor that file has left UPLOADING.
   */
  lemma OnlySingleAttachmentsAreAccepted(e: Entry, files: map<nat, FileRow>, j: nat, job: JobRow)
    requires Describes(e) && Served(files, job, e.fingerprint.preimage)
    requires PreparedOrder(job.attachments)
    ensures AcceptsView(e, JobView(j, job.status, Listed(files, job))) <==>
              |e.attachments| == 1 && job.status == JobUploading && NewlyUploading(files, job)
  {
    EchoOrder(job.attachments);
    var ordered := ViewOrder(job.attachments);
    var view := Listed(files, job);
    if AcceptsView(e, JobView(j, job.status, view)) {
      forall i | 0 <= i < |ordered| ensures ordered[i].kind == job.attachments[i].kind {
        assert view[i].kind == ordered[i].kind == e.attachments[i].item.kind;
      }
      ViewInOrder(job.attachments);
    }
    if |job.attachments| == 1 {
      var file := job.attachments[0].file;
      assert view == [AttachmentView(job.attachments[0].kind, file, files[file].state)];
    }
  }

  const PAIR_OF_FILES := Manifest(None, [Item(ORIGINAL, 1, Sha256([1])), Item(K3_RAW, 1, Sha256([2]))])

  const PAIR_ROWS := map[0 := FileRow(Uploading, None, 1, Sha256([1]), 0),
                         1 := FileRow(Uploading, None, 1, Sha256([2]), 0)]

  const PAIR_JOB :=
    JobRow(0, 0, None, [Attachment(ORIGINAL, 0), Attachment(K3_RAW, 1)], JobUploading, None, None, 0, 0)

  /** A package of an original and its result, as prepared and newly created, is such a refused one. */
  lemma OriginalAndResultAreRefused()
    ensures ManifestOk(PAIR_OF_FILES)
    ensures EntryOk(InitialEntry(0, PAIR_OF_FILES))
    ensures Served(PAIR_ROWS, PAIR_JOB, PAIR_OF_FILES)
    ensures PreparedOrder(PAIR_JOB.attachments) && NewlyUploading(PAIR_ROWS, PAIR_JOB)
    ensures !AcceptsView(InitialEntry(0, PAIR_OF_FILES), JobView(0, JobUploading, Listed(PAIR_ROWS, PAIR_JOB)))
  {
    var e := InitialEntry(0, PAIR_OF_FILES);
    InitialOk(0, PAIR_OF_FILES);
    assert PAIR_JOB.attachments[0].kind == ORIGINAL;
    OnlySingleAttachmentsAreAccepted(e, PAIR_ROWS, 0, PAIR_JOB);
    assert |e.attachments| == 2;
  }

  predicate NewlyUploading(files: map<nat, FileRow>, job: JobRow) {
    forall i :: 0 <= i < |job.attachments| ==>
        job.attachments[i].file in files && files[job.attachments[i].file].state == Uploading
  }

  // ----- what is sent -----

  /** What the current attachment's documents say about its file. */
  lemma CurrentFile(s: L.System, mine: set<nat>, e: Entry)
    requires EntryOk(e) && EntryAgrees(s, mine, e) && e.phase == UPLOAD && Current(e.attachments) < |e.attachments|
    ensures var att := e.attachments[Current(e.attachments)];
      && att.remote.Some? && att.remote.value in mine && att.remote.value in s.files
      && var row := s.files[att.remote.value];
      && Total(att) == |PartsOf(Original(row))|
      && att.partSha256s == Digests(PartsOf(Original(row)))
      && att.item.size == |Original(row)|
      && (forall p :: p in att.completedParts ==> IsPiece(row, p))
  {
    var i := Current(e.attachments);
    var att := e.attachments[i];
    assert att in e.attachments;
    assert AttachmentAgrees(s, mine, s.jobs[e.job.value].attachments[i], att);
    assert e.fingerprint.preimage.items[i] in e.fingerprint.preimage.items;
    CountParts(Original(s.files[att.remote.value]));
  }

  lemma SentOk(s: L.System, mine: set<nat>, e: Entry, request: Request)
    requires EntryOk(e) && EntryAgrees(s, mine, e) && Wants(e, request)
    ensures RequestOk(s, mine, request)
  {
    match e.phase
    case CREATE =>
    case UPLOAD =>
      CurrentFile(s, mine, e);
      AtCurrent(e);
    case SUBMIT => SubmitIsComplete(s, mine, e);
  }

  /** A document that may be submitted has only attachments that left UPLOADING. */
  lemma SubmitIsComplete(s: L.System, mine: set<nat>, e: Entry)
    requires EntryOk(e) && EntryAgrees(s, mine, e) && e.phase == SUBMIT
    ensures e.job.Some? && e.job.value in s.jobs && AllLeftUploading(s, s.jobs[e.job.value])
  {
    var job := s.jobs[e.job.value];
    forall a | a in job.attachments ensures a.file in s.files && s.files[a.file].state != Uploading {
      var i :| 0 <= i < |job.attachments| && job.attachments[i] == a;
      assert e.attachments[i] in e.attachments;
      assert AttachmentAgrees(s, mine, a, e.attachments[i]);
    }
  }

  // ----- what is received -----

  lemma BoundAgrees(s: L.System, mine: set<nat>, device: nat, e: Entry, request: Request, reply: Reply)
    requires EntryOk(e) && request.CreateJob? && Wants(e, request) && Accepts(e, request, reply)
    requires ReplyOk(s, mine, device, request, reply)
    requires reply.job in s.jobs && AttachmentKindsDistinct(s.jobs[reply.job].attachments)
    ensures EntryAgrees(s, mine, Updated(e, request, reply))
  {
    var job := s.jobs[reply.job];
    var b := Updated(e, request, reply);
    BindOk(e, reply);
    ViewInOrder(job.attachments);
    forall i | 0 <= i < |e.attachments| ensures AttachmentAgrees(s, mine, job.attachments[i], b.attachments[i]) {
      assert e.attachments[i] in e.attachments;
      assert reply.attachments[i].file == job.attachments[i].file;
    }
  }

  lemma ReplacedAgrees(s: L.System, mine: set<nat>, e: Entry, i: nat, att: AttachmentDoc)
    requires EntryAgrees(s, mine, e) && e.job.Some? && i < |e.attachments|
    requires AttachmentAgrees(s, mine, s.jobs[e.job.value].attachments[i], att)
    ensures EntryAgrees(s, mine, WithAttachment(e, i, att))
  {
    var w := WithAttachment(e, i, att);
    var job := s.jobs[e.job.value];
    forall k | 0 <= k < |w.attachments| ensures AttachmentAgrees(s, mine, job.attachments[k], w.attachments[k]) {
      assert AttachmentAgrees(s, mine, job.attachments[k], e.attachments[k]) || k == i;
    }
  }

  lemma StoredAgrees(s: L.System, mine: set<nat>, device: nat, e: Entry, request: Request, reply: Reply)
    requires EntryOk(e) && EntryAgrees(s, mine, e) && request.PutPart?
    requires Wants(e, request) && Accepts(e, request, reply)
    requires RequestOk(s, mine, request) && ReplyOk(s, mine, device, request, reply)
    ensures EntryAgrees(s, mine, Updated(e, request, reply))
  {
    var i := Current(e.attachments);
    var att := e.attachments[i];
    AtCurrent(e);
    RecordedPartOk(att, reply.etag);
    assert AttachmentAgrees(s, mine, s.jobs[e.job.value].attachments[i], att);
    ReplacedAgrees(s, mine, e, i,
                   att.(completedParts := Inserted(att.completedParts, Piece(request.number, reply.etag))));
  }

  lemma CompletedAgrees(s: L.System, mine: set<nat>, device: nat, e: Entry, request: Request, reply: Reply)
    requires EntryOk(e) && EntryAgrees(s, mine, e) && request.CompleteFile?
    requires Wants(e, request) && Accepts(e, request, reply)
    requires ReplyOk(s, mine, device, request, reply)
    ensures EntryAgrees(s, mine, Updated(e, request, reply))
  {
    var i := Current(e.attachments);
    var att := e.attachments[i];
    AtCurrent(e);
    assert AttachmentAgrees(s, mine, s.jobs[e.job.value].attachments[i], att);
    ReplacedAgrees(s, mine, e, i, att.(completed := true));
  }

  lemma UpdatedAgrees(s: L.System, mine: set<nat>, device: nat, e: Entry, request: Request, reply: Reply)
    requires I.RowsInv(s)
    requires EntryOk(e) && EntryAgrees(s, mine, e)
    requires Wants(e, request) && Accepts(e, request, reply)
    requires RequestOk(s, mine, request) && ReplyOk(s, mine, device, request, reply)
    ensures EntryAgrees(s, mine, Updated(e, request, reply))
  {
    match request
    case CreateJob(_, _) =>
      assert I.RowOk(s.files, s.jobs[reply.job]);
      BoundAgrees(s, mine, device, e, request, reply);
    case PutPart(_, _, _) => StoredAgrees(s, mine, device, e, request, reply);
    case CompleteFile(_, _) => CompletedAgrees(s, mine, device, e, request, reply);
    case SubmitJob(_) =>
      var u := Updated(e, request, reply);
      assert u.attachments == e.attachments && u.job == e.job;
  }
}
