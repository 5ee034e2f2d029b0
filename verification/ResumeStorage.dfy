/** Storage still holds every part it acknowledged, until it puts the upload together or drops it. */
module ResumeStorage {
  import opened Common
  import opened Rows
  import opened Parts
  import opened Outbox
  import opened OutboxProgress
  import opened OutboxRuns
  import L = Lifecycle
  import I = LifecycleInvariant
  import opened Resume
  import opened ResumeInvariant
  import opened ResumeExchange
  import opened ResumeSteps

  /** Part n of file f is there, unless the upload of f is over. */
  predicate Holds(multipart: map<nat, map<nat, Bytes>>, f: nat, n: nat) {
    f in multipart ==> n in multipart[f]
  }

  predicate HoldsAll(multipart: map<nat, map<nat, Bytes>>, f: nat, parts: seq<Piece>) {
    forall p :: p in parts ==> Holds(multipart, f, p.number)
  }

  predicate HoldsDocument(multipart: map<nat, map<nat, Bytes>>, e: Entry) {
    forall i :: 0 <= i < |e.attachments| && e.attachments[i].remote.Some? ==>
      HoldsAll(multipart, e.attachments[i].remote.value, e.attachments[i].completedParts)
  }

  predicate HoldsRequested(multipart: map<nat, map<nat, Bytes>>, r: Request) {
    r.CompleteFile? ==> HoldsAll(multipart, r.file, r.parts)
  }

  predicate HoldsAnswered(multipart: map<nat, map<nat, Bytes>>, a: Answer) {
    a.request.PutPart? && a.reply.Stored? ==> Holds(multipart, a.request.file, a.request.number)
  }

  ghost predicate StorageHolds(x: Joint) {
    && (forall a :: a in x.answers && a.request.PutPart? ==>
          Sent(a.device, a.request) in x.sent && HoldsAnswered(x.multipart, a))
    && (forall q :: q in x.sent ==> HoldsRequested(x.multipart, q.request))
    && (x.connector.disk.Some? ==> HoldsDocument(x.multipart, x.connector.disk.value))
    && (x.connector.pc.Saving? ==> HoldsDocument(x.multipart, x.connector.pc.next))
  }

  /** Uploads never lose a part, and one that is over does not start again; f is known to be ours. */
  predicate Persists(before: map<nat, map<nat, Bytes>>, after: map<nat, map<nat, Bytes>>, mine: set<nat>) {
    forall f :: f in mine && f in after ==> f in before && before[f].Keys <= after[f].Keys
  }

  lemma MultipartPersists(x: Joint, m: Move)
    requires Possible(x, m)
    ensures Persists(x.multipart, NextMultipart(x, m), x.mine)
  {
  }

  /** The parts of a document, of a complete call and of an acknowledged PUT belong to this workstation's files. */
  lemma DocumentKept(x: Joint, m: Move, e: Entry)
    requires Possible(x, m) && EntryValid(e) && EntryAgrees(x.server, x.mine, e)
    requires HoldsDocument(x.multipart, e)
    ensures HoldsDocument(NextMultipart(x, m), e)
  {
    MultipartPersists(x, m);
    forall i | 0 <= i < |e.attachments| && e.attachments[i].remote.Some?
      ensures HoldsAll(NextMultipart(x, m), e.attachments[i].remote.value, e.attachments[i].completedParts)
    {
      var att := e.attachments[i];
      assert att in e.attachments;
      assert AttachmentAgrees(x.server, x.mine, x.server.jobs[e.job.value].attachments[i], att);
      assert HoldsAll(x.multipart, att.remote.value, att.completedParts);
    }
  }

  lemma RequestKept(x: Joint, m: Move, r: Request)
    requires Possible(x, m) && RequestOk(x.server, x.mine, r) && HoldsRequested(x.multipart, r)
    ensures HoldsRequested(NextMultipart(x, m), r)
  {
    MultipartPersists(x, m);
  }

  lemma AnswerKept(x: Joint, m: Move, a: Answer)
    requires Possible(x, m) && RequestOk(x.server, x.mine, a.request) && HoldsAnswered(x.multipart, a)
    ensures HoldsAnswered(NextMultipart(x, m), a)
  {
    MultipartPersists(x, m);
  }

  /** A complete call names what its document records. */
  lemma SentHolds(multipart: map<nat, map<nat, Bytes>>, e: Entry, r: Request)
    requires HoldsDocument(multipart, e) && Wants(e, r)
    ensures HoldsRequested(multipart, r)
  {
  }

  lemma UpdatedHolds(multipart: map<nat, map<nat, Bytes>>, e: Entry, d: nat, r: Request, reply: Reply)
    requires EntryOk(e) && HoldsDocument(multipart, e) && Wants(e, r) && Accepts(e, r, reply)
    requires HoldsAnswered(multipart, Answer(d, r, reply))
    ensures HoldsDocument(multipart, Updated(e, r, reply))
  {
    if r.CreateJob? {
      BindOk(e, reply);
      forall i | 0 <= i < |e.attachments| ensures e.attachments[i].completedParts == [] {
        assert e.attachments[i] in e.attachments;
      }
    } else if r.PutPart? || r.CompleteFile? {
      var i := Current(e.attachments);
      var att := e.attachments[i];
      AtCurrent(e);
      assert HoldsAll(multipart, att.remote.value, att.completedParts);
      if r.PutPart? {
        RecordedPartOk(att, reply.etag);
      }
    }
  }

  lemma LocalHolds(x: Joint, ev: Event)
    requires ConnectorInv(x.connector) && StorageHolds(x) && Possible(x, Local(ev))
    ensures var c := After(x.connector, ev);
      && (ev.Send? ==> HoldsRequested(x.multipart, ev.request))
      && (c.disk.Some? ==> HoldsDocument(x.multipart, c.disk.value))
      && (c.pc.Saving? ==> HoldsDocument(x.multipart, c.pc.next))
  {
    if ev.Send? {
      SentHolds(x.multipart, x.connector.disk.value, ev.request);
    } else if ev.Receive? {
      UpdatedHolds(x.multipart, x.connector.disk.value, x.device, x.connector.pc.request, ev.reply);
    }
  }

  lemma AnswersHold(x: Joint, m: Move, a: Answer)
    requires ExchangeInv(x) && StorageHolds(x) && Possible(x, m)
    requires a in x.answers + NewAnswers(x, m) && a.request.PutPart?
    ensures Sent(a.device, a.request) in x.sent && HoldsAnswered(NextMultipart(x, m), a)
  {
    if a in x.answers {
      AnswerKept(x, m, a);
    }
  }

  lemma RequestsHold(x: Joint, m: Move, d: nat, r: Request)
    requires JointInv(x) && StorageHolds(x) && Possible(x, m)
    requires Sent(d, r) in x.sent || m == Local(Send(r))
    ensures HoldsRequested(NextMultipart(x, m), r)
  {
    if Sent(d, r) in x.sent {
      RequestKept(x, m, r);
    } else {
      LocalHolds(x, m.ev);
    }
  }

  lemma DocumentsHold(x: Joint, m: Move)
    requires JointInv(x) && StorageHolds(x) && Possible(x, m)
    ensures var c := if m.Local? then After(x.connector, m.ev) else x.connector;
      && (c.disk.Some? ==> HoldsDocument(NextMultipart(x, m), c.disk.value))
      && (c.pc.Saving? ==> HoldsDocument(NextMultipart(x, m), c.pc.next))
  {
    if m.Local? {
      LocalHolds(x, m.ev);
    } else {
      if x.connector.disk.Some? {
        DocumentKept(x, m, x.connector.disk.value);
      }
      if x.connector.pc.Saving? {
        DocumentKept(x, m, x.connector.pc.next);
      }
    }
  }

  lemma StorageHoldsStep(x: Joint, m: Move)
    requires JointInv(x) && StorageHolds(x) && Possible(x, m) && L.JobsKnown(x.server)
    ensures StorageHolds(Next(x, m))
  {
    forall a | a in x.answers + NewAnswers(x, m) && a.request.PutPart?
      ensures Sent(a.device, a.request) in x.sent && HoldsAnswered(NextMultipart(x, m), a)
    {
      AnswersHold(x, m, a);
    }
    forall q | q in Next(x, m).sent ensures HoldsRequested(NextMultipart(x, m), q.request) {
      RequestsHold(x, m, q.device, q.request);
    }
    DocumentsHold(x, m);
  }
}
