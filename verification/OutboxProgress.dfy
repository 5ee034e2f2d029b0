/** What every document of the connector looks like, over whole runs with crashes anywhere. */
module OutboxProgress {
  import opened Common
  import opened Rows
  import opened Parts
  import opened Outbox

  // ----- the shape of reachable documents -----

  predicate NumberedFromOne(parts: seq<Piece>) {
    forall i :: 0 <= i < |parts| ==> parts[i].number == i + 1
  }

  predicate Untouched(att: AttachmentDoc) {
    att.completedParts == [] && !att.completed
  }

  /** Completed attachments, then one whose recorded parts are exactly 1 to k, then untouched ones. */
  predicate Shaped(attachments: seq<AttachmentDoc>) {
    && (forall i :: 0 <= i < |attachments| && i <= Current(attachments) ==>
          NumberedFromOne(attachments[i].completedParts))
    && (forall i :: Current(attachments) < i < |attachments| ==> Untouched(attachments[i]))
  }

  predicate RemotesDistinct(attachments: seq<AttachmentDoc>) {
    forall i, k :: 0 <= i < k < |attachments| && attachments[i].remote.Some? ==>
        attachments[i].remote != attachments[k].remote
  }

  /** The document still declares what was prepared. */
  predicate Describes(e: Entry) {
    var m := e.fingerprint.preimage;
    && ManifestOk(m)
    && |e.attachments| == |m.items|
    && forall i :: 0 <= i < |m.items| ==>
          e.attachments[i].item == m.items[i] && e.attachments[i].partSha256s == PartDigests(m.items[i])
  }

  predicate EntryOk(e: Entry) {
    EntryValid(e) && Describes(e) && Shaped(e.attachments) && RemotesDistinct(e.attachments)
  }

  lemma InitialOk(key: nat, m: Manifest)
    requires ManifestOk(m)
    ensures EntryOk(InitialEntry(key, m))
  {
    var e := InitialEntry(key, m);
    forall a | a in e.attachments ensures AttachmentValid(a) && a == InitialAttachment(a.item) {
      var i :| 0 <= i < |e.attachments| && e.attachments[i] == a;
      assert m.items[i] in m.items;
      PartsReassemble(a.item.sha256.preimage);
      CountParts(a.item.sha256.preimage);
    }
  }

  /** With parts 1 to k recorded, the loop goes on with part k + 1. */
  lemma NextPartFollows(att: AttachmentDoc, n: nat)
    requires NumberedFromOne(att.completedParts) && |att.completedParts| <= Total(att)
    requires 1 <= n <= |att.completedParts| + 1
    ensures NextPart(att, n) == |att.completedParts| + 1
    decreases |att.completedParts| + 1 - n
  {
    if n <= |att.completedParts| {
      assert att.completedParts[n - 1] in att.completedParts;
      NextPartFollows(att, n + 1);
    } else {
      assert !HasPart(att.completedParts, n);
    }
  }

  lemma ByKindFinds(attachments: seq<AttachmentView>, i: nat)
    requires i < |attachments|
    requires forall k, m :: 0 <= k < m < |attachments| ==> attachments[k].kind != attachments[m].kind
    ensures ByKind(attachments, attachments[i].kind) == Some(attachments[i].file)
  {
    if i < |attachments| - 1 {
      ByKindFinds(attachments[..|attachments| - 1], i);
    }
  }

  lemma BoundAttachments(e: Entry, view: Reply)
    requires KindsDistinct(e.attachments) && view.JobView? && AcceptsView(e, view)
    ensures forall i :: 0 <= i < |e.attachments| ==>
              BindCreatedJob(e, view).attachments[i] == e.attachments[i].(remote := Some(view.attachments[i].file))
  {
    var b := BindCreatedJob(e, view);
    forall i | 0 <= i < |e.attachments|
      ensures b.attachments[i] == e.attachments[i].(remote := Some(view.attachments[i].file))
    {
      ByKindFinds(view.attachments, i);
    }
  }

  lemma BoundValid(e: Entry, view: Reply)
    requires EntryValid(e) && e.phase == CREATE && view.JobView? && AcceptsView(e, view)
    ensures EntryValid(BindCreatedJob(e, view))
    ensures forall a :: a in BindCreatedJob(e, view).attachments ==> Untouched(a)
  {
    var b := BindCreatedJob(e, view);
    BoundAttachments(e, view);
    forall i | 0 <= i < |e.attachments| ensures AttachmentValid(b.attachments[i]) && Untouched(b.attachments[i]) {
      assert e.attachments[i] in e.attachments;
    }
  }

  lemma BindOk(e: Entry, view: Reply)
    requires EntryOk(e) && e.phase == CREATE && view.JobView? && AcceptsView(e, view)
    ensures EntryOk(BindCreatedJob(e, view))
    ensures forall i :: 0 <= i < |e.attachments| ==>
              BindCreatedJob(e, view).attachments[i] == e.attachments[i].(remote := Some(view.attachments[i].file))
  {
    BoundAttachments(e, view);
    BoundValid(e, view);
    assert Current(BindCreatedJob(e, view).attachments) == 0;
  }

  predicate SameDeclaration(x: AttachmentDoc, y: AttachmentDoc) {
    x.item == y.item && x.partSha256s == y.partSha256s && x.remote == y.remote
  }

  lemma ReplacedValid(e: Entry, i: nat, att: AttachmentDoc)
    requires EntryValid(e) && e.phase == UPLOAD && i < |e.attachments|
    requires SameDeclaration(e.attachments[i], att) && AttachmentValid(att)
    ensures EntryValid(WithAttachment(e, i, att))
  {
    assert e.attachments[i] in e.attachments;
  }

  lemma ReplacedDescribes(e: Entry, i: nat, att: AttachmentDoc)
    requires Describes(e) && RemotesDistinct(e.attachments) && i < |e.attachments|
    requires SameDeclaration(e.attachments[i], att)
    ensures var w := WithAttachment(e, i, att);
      Describes(w) && RemotesDistinct(w.attachments)
  {
  }

  lemma CurrentIs(attachments: seq<AttachmentDoc>, i: nat)
    requires i <= |attachments|
    requires forall k :: 0 <= k < i ==> attachments[k].completed
    requires i < |attachments| ==> !attachments[i].completed
    ensures Current(attachments) == i
  {
  }

  /** Working on the current attachment keeps the shape. */
  lemma ReplacedShaped(attachments: seq<AttachmentDoc>, att: AttachmentDoc)
    requires Shaped(attachments) && Current(attachments) < |attachments|
    requires NumberedFromOne(att.completedParts)
    ensures Shaped(attachments[Current(attachments) := att])
    ensures Current(attachments[Current(attachments) := att]) == Current(attachments) + if att.completed then 1 else 0
  {
    var i := Current(attachments);
    CurrentIs(attachments[i := att], if att.completed then i + 1 else i);
  }

  lemma ReplacedOk(e: Entry, att: AttachmentDoc)
    requires EntryOk(e) && e.phase == UPLOAD && Current(e.attachments) < |e.attachments|
    requires SameDeclaration(e.attachments[Current(e.attachments)], att)
    requires AttachmentValid(att) && NumberedFromOne(att.completedParts)
    ensures EntryOk(WithAttachment(e, Current(e.attachments), att))
  {
    ReplacedValid(e, Current(e.attachments), att);
    ReplacedDescribes(e, Current(e.attachments), att);
    ReplacedShaped(e.attachments, att);
  }

  /** What the upload loop knows about the attachment it is at. */
  lemma AtCurrent(e: Entry)
    requires EntryOk(e) && e.phase == UPLOAD && Current(e.attachments) < |e.attachments|
    ensures var att := e.attachments[Current(e.attachments)];
      && AttachmentValid(att) && NumberedFromOne(att.completedParts) && att.remote.Some?
      && |att.completedParts| <= Total(att)
      && NextPart(att, 1) == |att.completedParts| + 1
  {
    var att := e.attachments[Current(e.attachments)];
    assert att in e.attachments;
    if att.completedParts != [] {
      assert att.completedParts[|att.completedParts| - 1] in att.completedParts;
    }
    NextPartFollows(att, 1);
  }

  lemma RecordedPartOk(att: AttachmentDoc, etag: Digest<Bytes>)
    requires AttachmentValid(att) && NumberedFromOne(att.completedParts)
    requires |att.completedParts| < Total(att) && !att.completed
    ensures var p := Piece(|att.completedParts| + 1, etag);
      && Inserted(att.completedParts, p) == att.completedParts + [p]
      && AttachmentValid(att.(completedParts := Inserted(att.completedParts, p)))
      && NumberedFromOne(Inserted(att.completedParts, p))
  {
  }

  /** Every update of the command leads from a document in order to a document in order. */
  lemma UpdatedOk(e: Entry, request: Request, reply: Reply)
    requires EntryOk(e) && Wants(e, request) && Accepts(e, request, reply)
    ensures EntryOk(Updated(e, request, reply))
  {
    if request.CreateJob? {
      BindOk(e, reply);
    } else if request.PutPart? {
      var att := e.attachments[Current(e.attachments)];
      AtCurrent(e);
      RecordedPartOk(att, reply.etag);
      ReplacedOk(e, att.(completedParts := Inserted(att.completedParts, Piece(request.number, reply.etag))));
    } else if request.CompleteFile? {
      AtCurrent(e);
      ReplacedOk(e, e.attachments[Current(e.attachments)].(completed := true));
    } else {
      assert Updated(e, request, reply).attachments == e.attachments;
    }
  }
}
