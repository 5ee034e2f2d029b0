/** What the connector does over many commands, whatever the server answers and wherever it is interrupted. */
module OutboxRuns {
  import opened Common
  import opened Rows
  import opened Parts
  import opened Outbox
  import opened OutboxProgress

  /** How many parts the document records as stored. */
  function Recorded(attachments: seq<AttachmentDoc>): nat {
    if attachments == [] then 0 else |attachments[0].completedParts| + Recorded(attachments[1..])
  }

  function AllParts(attachments: seq<AttachmentDoc>): nat {
    if attachments == [] then 0 else Total(attachments[0]) + AllParts(attachments[1..])
  }

  function PutsIn(issued: seq<Request>): nat {
    if issued == [] then 0
    else PutsIn(issued[..|issued| - 1]) + if issued[|issued| - 1].PutPart? then 1 else 0
  }

  lemma {:induction false} RecordedReplace(attachments: seq<AttachmentDoc>, i: nat, att: AttachmentDoc)
    requires i < |attachments|
    ensures Recorded(attachments[i := att]) + |attachments[i].completedParts| ==
              Recorded(attachments) + |att.completedParts|
  {
    if i == 0 {
      assert attachments[0 := att][1..] == attachments[1..];
    } else {
      RecordedReplace(attachments[1..], i - 1, att);
      assert attachments[i := att][1..] == attachments[1..][i - 1 := att];
    }
  }

  lemma {:induction false} RecordedSame(xs: seq<AttachmentDoc>, ys: seq<AttachmentDoc>)
    requires |xs| == |ys| && forall i :: 0 <= i < |xs| ==> xs[i].completedParts == ys[i].completedParts
    ensures Recorded(xs) == Recorded(ys)
  {
    if xs != [] {
      RecordedSame(xs[1..], ys[1..]);
    }
  }

  lemma {:induction false} NothingRecorded(attachments: seq<AttachmentDoc>)
    requires forall i :: 0 <= i < |attachments| ==> attachments[i].completedParts == []
    ensures Recorded(attachments) == 0
  {
    if attachments != [] {
      NothingRecorded(attachments[1..]);
    }
  }

  lemma {:induction false} RecordedAtMostAll(attachments: seq<AttachmentDoc>)
    requires forall i :: 0 <= i < |attachments| ==> |attachments[i].completedParts| <= Total(attachments[i])
    ensures Recorded(attachments) <= AllParts(attachments)
    ensures forall i :: 0 <= i < |attachments| && |attachments[i].completedParts| < Total(attachments[i]) ==>
              Recorded(attachments) < AllParts(attachments)
  {
    if attachments != [] {
      RecordedAtMostAll(attachments[1..]);
      forall i | 0 <= i < |attachments| && |attachments[i].completedParts| < Total(attachments[i])
        ensures Recorded(attachments) < AllParts(attachments)
      {
        assert i > 0 ==> attachments[1..][i - 1] == attachments[i];
      }
    }
  }

  function OnDisk(c: Connector): nat {
    if c.disk.Some? then Recorded(c.disk.value.attachments) else 0
  }

  /** A part sent but not yet recorded on disk by the running command. */
  function InFlight(c: Connector): nat {
    match c.pc
    case Waiting(request) => if request.PutPart? then 1 else 0
    case Saving(next) => if Recorded(next.attachments) > OnDisk(c) then Recorded(next.attachments) - OnDisk(c) else 0
    case _ => 0
  }

  /** Every part of the attachment stored as file f is recorded. */
  predicate AllRecorded(attachments: seq<AttachmentDoc>, f: nat) {
    exists i :: 0 <= i < |attachments| && attachments[i].remote == Some(f)
        && |attachments[i].completedParts| == Total(attachments[i])
  }

  ghost predicate CompletesAreFull(issued: seq<Request>, attachments: seq<AttachmentDoc>) {
    forall r :: r in issued && r.CompleteFile? ==> AllRecorded(attachments, r.file)
  }

  predicate NoPutAfterComplete(issued: seq<Request>) {
    forall i, k :: 0 <= i < k < |issued| && issued[i].CompleteFile? && issued[k].PutPart? ==>
        issued[i].file != issued[k].file
  }

  predicate Working(c: Connector) {
    match c.pc
    case Idle => true
    case Ready => c.disk.Some?
    case Waiting(request) => c.disk.Some? && Wants(c.disk.value, request)
    case Saving(next) => EntryOk(next)
  }

  ghost predicate DocumentInv(c: Connector) {
    (c.disk.Some? ==> EntryOk(c.disk.value)) && Working(c)
  }

  ghost predicate IssueInv(c: Connector) {
    && NoPutAfterComplete(c.issued)
    && (c.disk.Some? ==> CompletesAreFull(c.issued, c.disk.value.attachments))
    && (c.pc.Saving? ==> CompletesAreFull(c.issued, c.pc.next.attachments))
  }

  predicate HasDocument(c: Connector) {
    c.disk.Some? || c.pc.Saving?
  }

  ghost predicate BudgetInv(c: Connector) {
    && (HasDocument(c) ==> PutsIn(c.issued) <= OnDisk(c) + c.interrupted + InFlight(c))
    && (c.pc.Saving? ==> OnDisk(c) <= Recorded(c.pc.next.attachments) <= OnDisk(c) + 1)
  }

  ghost predicate ConnectorInv(c: Connector) {
    DocumentInv(c) && IssueInv(c) && BudgetInv(c)
  }

  lemma AdvanceOk(e: Entry)
    requires EntryOk(e) && e.phase == UPLOAD && Current(e.attachments) == |e.attachments|
    ensures EntryOk(e.(phase := SUBMIT))
  {
  }

  lemma DocumentStep(c: Connector, ev: Event)
    requires DocumentInv(c) && May(c, ev)
    ensures DocumentInv(After(c, ev))
  {
    match ev
    case BeginSubmit(key, m) => InitialOk(key, m);
    case Receive(reply) => UpdatedOk(c.disk.value, c.pc.request, reply);
    case Advance => AdvanceOk(c.disk.value);
    case _ =>
  }

  /** How one accepted reply moves the record: only a stored part adds to it. */
  lemma UpdatedRecords(e: Entry, request: Request, reply: Reply)
    requires EntryOk(e) && Wants(e, request) && Accepts(e, request, reply)
    ensures Recorded(Updated(e, request, reply).attachments) ==
              Recorded(e.attachments) + if request.PutPart? then 1 else 0
  {
    if request.CreateJob? {
      BindOk(e, reply);
      RecordedSame(e.attachments, Updated(e, request, reply).attachments);
    } else if request.PutPart? {
      var i := Current(e.attachments);
      var att := e.attachments[i];
      AtCurrent(e);
      RecordedPartOk(att, reply.etag);
      RecordedReplace(e.attachments, i,
                      att.(completedParts := Inserted(att.completedParts, Piece(request.number, reply.etag))));
    } else if request.CompleteFile? {
      var i := Current(e.attachments);
      RecordedReplace(e.attachments, i, e.attachments[i].(completed := true));
    }
  }

  /** What is fully recorded stays so. */
  lemma UpdatedKeepsFull(e: Entry, request: Request, reply: Reply, f: nat)
    requires EntryOk(e) && Wants(e, request) && Accepts(e, request, reply)
    requires AllRecorded(e.attachments, f)
    ensures AllRecorded(Updated(e, request, reply).attachments, f)
  {
    var i :| 0 <= i < |e.attachments| && e.attachments[i].remote == Some(f)
        && |e.attachments[i].completedParts| == Total(e.attachments[i]);
    assert e.attachments[i] in e.attachments;
    if request.PutPart? {
      AtCurrent(e);
    }
    var u := Updated(e, request, reply);
    assert u.attachments[i].remote == Some(f) && |u.attachments[i].completedParts| == Total(u.attachments[i]);
  }

  /** A part is only ever sent for a file some part of which is still missing; a complete only when none is. */
  lemma WantsMeaning(e: Entry, request: Request)
    requires EntryOk(e) && Wants(e, request)
    ensures request.PutPart? ==> !AllRecorded(e.attachments, request.file)
    ensures request.CompleteFile? ==> AllRecorded(e.attachments, request.file)
  {
    if request.PutPart? || request.CompleteFile? {
      AtCurrent(e);
    }
  }

  lemma IssueStep(c: Connector, ev: Event)
    requires DocumentInv(c) && IssueInv(c) && May(c, ev)
    ensures IssueInv(After(c, ev))
  {
    if ev.Send? {
      WantsMeaning(c.disk.value, ev.request);
    } else if ev.Receive? {
      forall r | r in c.issued && r.CompleteFile? ensures AllRecorded(After(c, ev).pc.next.attachments, r.file) {
        UpdatedKeepsFull(c.disk.value, c.pc.request, ev.reply, r.file);
      }
    }
  }

  lemma BudgetStep(c: Connector, ev: Event)
    requires DocumentInv(c) && BudgetInv(c) && May(c, ev)
    ensures BudgetInv(After(c, ev))
  {
    if ev.Send? {
      assert (c.issued + [ev.request])[..|c.issued|] == c.issued;
    } else if ev.BeginSubmit? {
      NothingRecorded(InitialEntry(ev.key, ev.manifest).attachments);
    } else if ev.Receive? {
      UpdatedRecords(c.disk.value, c.pc.request, ev.reply);
    }
  }

  lemma ConnectorStep(c: Connector, ev: Event)
    requires ConnectorInv(c) && May(c, ev)
    ensures ConnectorInv(After(c, ev))
  {
    DocumentStep(c, ev);
    IssueStep(c, ev);
    BudgetStep(c, ev);
  }

  // ----- whole runs -----

  function Final(c: Connector, events: seq<Event>): Option<Connector>
    decreases |events|
  {
    if events == [] then Some(c)
    else if May(c, events[0]) then Final(After(c, events[0]), events[1..])
    else None
  }

  lemma {:induction false} RunKeepsInv(c: Connector, events: seq<Event>)
    requires ConnectorInv(c) && Final(c, events).Some?
    ensures ConnectorInv(Final(c, events).value)
    decreases |events|
  {
    if events != [] {
      ConnectorStep(c, events[0]);
      RunKeepsInv(After(c, events[0]), events[1..]);
    }
  }

  /**
   * Whatever was answered and interrupted: no save ever fails validation, and all documents have the
   * progress shape.
   */
  lemma EverySaveIsValid(events: seq<Event>)
    requires Final(FRESH, events).Some?
    ensures var c := Final(FRESH, events).value;
      && (c.pc.Saving? ==> EntryValid(c.pc.next) && Shaped(c.pc.next.attachments) && May(c, Save))
      && (c.disk.Some? ==> EntryValid(c.disk.value) && Shaped(c.disk.value.attachments))
  {
    RunKeepsInv(FRESH, events);
  }

  /** No part is sent for an attachment after its complete call, even when that call had no answer. */
  lemma CompletedUploadsAreLeftAlone(events: seq<Event>)
    requires Final(FRESH, events).Some?
    ensures NoPutAfterComplete(Final(FRESH, events).value.issued)
  {
    RunKeepsInv(FRESH, events);
  }

  /** The document as the running command has it. */
  function Latest(c: Connector): Entry
    requires HasDocument(c)
  {
    if c.pc.Saving? then c.pc.next else c.disk.value
  }

  /** Over all commands on one document, the parts sent are at most its parts plus the interrupted commands. */
  lemma RepeatedPartsAreInterruptions(events: seq<Event>)
    requires Final(FRESH, events).Some? && HasDocument(Final(FRESH, events).value)
    ensures var c := Final(FRESH, events).value;
      PutsIn(c.issued) <= AllParts(Latest(c).attachments) + c.interrupted
  {
    RunKeepsInv(FRESH, events);
    var c := Final(FRESH, events).value;
    var e := Latest(c);
    forall i | 0 <= i < |e.attachments| ensures |e.attachments[i].completedParts| <= Total(e.attachments[i]) {
      RecordedWithinTotal(e, i);
    }
    RecordedAtMostAll(e.attachments);
    if c.pc.Waiting? && c.pc.request.PutPart? {
      AtCurrent(e);
    }
  }

  lemma RecordedWithinTotal(e: Entry, i: nat)
    requires EntryOk(e) && i < |e.attachments|
    ensures |e.attachments[i].completedParts| <= Total(e.attachments[i])
  {
    var att := e.attachments[i];
    assert att in e.attachments;
    if att.completedParts != [] && i <= Current(e.attachments) {
      assert att.completedParts[|att.completedParts| - 1] in att.completedParts;
    }
  }

  // ----- the package that was begun -----

  /** Key and manifest of the last submit that began a document. */
  function LastBegun(events: seq<Event>): Option<(nat, Manifest)> {
    if events == [] then None
    else if events[|events| - 1].BeginSubmit? then Some((events[|events| - 1].key, events[|events| - 1].manifest))
    else LastBegun(events[..|events| - 1])
  }

  /** The document is about this package: its key, its fingerprint, and one attachment for each declared item. */
  predicate IsAbout(e: Entry, begun: Option<(nat, Manifest)>) {
    && begun.Some?
    && e.key == begun.value.0
    && e.fingerprint == Sha256(begun.value.1)
    && |e.attachments| == |begun.value.1.items|
    && forall i :: 0 <= i < |e.attachments| ==> e.attachments[i].item == begun.value.1.items[i]
  }

  predicate AllAbout(c: Connector, begun: Option<(nat, Manifest)>) {
    && (c.disk.Some? ==> IsAbout(c.disk.value, begun))
    && (c.pc.Saving? ==> IsAbout(c.pc.next, begun))
  }

  lemma AboutStep(c: Connector, ev: Event, begun: Option<(nat, Manifest)>)
    requires DocumentInv(c) && May(c, ev) && AllAbout(c, begun)
    ensures AllAbout(After(c, ev), if ev.BeginSubmit? then Some((ev.key, ev.manifest)) else begun)
  {
  }

  lemma {:induction false} FinalFront(c: Connector, events: seq<Event>)
    requires events != [] && Final(c, events).Some?
    ensures Final(c, events[..|events| - 1]).Some?
    ensures var d := Final(c, events[..|events| - 1]).value;
      May(d, events[|events| - 1]) && Final(c, events) == Some(After(d, events[|events| - 1]))
    decreases |events|
  {
    if |events| > 1 {
      var n := |events| - 1;
      FinalFront(After(c, events[0]), events[1..]);
      assert events[..n][1..] == events[1..][..n - 1];
      assert events[1..][n - 1] == events[n];
    } else {
      assert events[..0] == [] && events[1..] == [];
    }
  }

  /** Over all runs, a document is about the package its submit began with, declared base and attachments included. */
  lemma {:induction false} DocumentIsAboutItsPackage(events: seq<Event>)
    requires Final(FRESH, events).Some?
    ensures AllAbout(Final(FRESH, events).value, LastBegun(events))
    decreases |events|
  {
    if events != [] {
      var front := events[..|events| - 1];
      FinalFront(FRESH, events);
      DocumentIsAboutItsPackage(front);
      RunKeepsInv(FRESH, front);
      AboutStep(Final(FRESH, front).value, events[|events| - 1], LastBegun(front));
    }
  }
}
