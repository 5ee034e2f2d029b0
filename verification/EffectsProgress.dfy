/** How many effects a document needs, and that meeting them well is enough. */
module EffectsProgress {
  import opened Common
  import opened Rows
  import opened Parts
  import opened Outbox
  import opened OutboxProgress
  import opened OutboxRuns
  import opened Effects

  function Missing(att: AttachmentDoc): nat {
    if |att.completedParts| < Total(att) then Total(att) - |att.completedParts| else 0
  }

  /** One check, five effects for each missing part (URL, check, read, send, save), three to complete. */
  function AttachmentWork(att: AttachmentDoc): nat {
    1 + 5 * Missing(att) + if att.completed then 0 else 3
  }

  function WorkFrom(attachments: seq<AttachmentDoc>, i: nat): nat
    decreases |attachments| - i
  {
    if i >= |attachments| then 0 else AttachmentWork(attachments[i]) + WorkFrom(attachments, i + 1)
  }

  /** Saving the phase, submitting, saving the evidence. */
  const SUBMIT_WORK: nat := 3

  function RestWork(e: Entry, i: nat): nat {
    WorkFrom(e.attachments, i + 1) + SUBMIT_WORK
  }

  /** The number of effects from a point to the evidence. */
  function Work(e: Entry, p: Point): nat
    requires PointOk(e, p)
    decreases p
  {
    match p
    case Creating => 2 + WorkFrom(e.attachments, 0) + SUBMIT_WORK
    case Checking(i) => WorkFrom(e.attachments, i) + SUBMIT_WORK
    case AskingUrl(i) => PartsWork(e, i) + 3 + RestWork(e, i)
    case Rechecking(i) => PartsWork(e, i) - 1 + 3 + RestWork(e, i)
    case Reading(i) => PartsWork(e, i) - 2 + 3 + RestWork(e, i)
    case Sending(i, _) => PartsWork(e, i) - 3 + 3 + RestWork(e, i)
    case CheckingComplete(i) => 3 + RestWork(e, i)
    case Completing(i) => 2 + RestWork(e, i)
    case Submitting => 2
    case Storing(next, after) => 1 + Work(next, after)
    case Finished(_) => 0
  }

  function PartsWork(e: Entry, i: nat): (n: nat)
    requires EntryOk(e) && PartMissing(e, i)
    ensures n >= 5
  {
    AtCurrent(e);
    5 * Missing(e.attachments[i])
  }

  lemma {:induction false} WorkFromSame(xs: seq<AttachmentDoc>, ys: seq<AttachmentDoc>, i: nat)
    requires |xs| == |ys| && forall k :: i <= k < |xs| ==> AttachmentWork(xs[k]) == AttachmentWork(ys[k])
    ensures WorkFrom(xs, i) == WorkFrom(ys, i)
    decreases |xs| - i
  {
    if i < |xs| {
      WorkFromSame(xs, ys, i + 1);
    }
  }

  lemma AfterAttachmentWork(e: Entry, i: nat)
    requires PointOk(e, AfterAttachment(e, i)) && EntryOk(e)
    ensures Work(e, AfterAttachment(e, i)) == WorkFrom(e.attachments, i) + SUBMIT_WORK
  {
  }

  /** The next point after a check or a part, by what is missing of the attachment. */
  lemma NextOfWork(e: Entry, i: nat)
    requires EntryOk(e) && UploadingAt(e, i) && i <= Current(e.attachments)
    ensures PointOk(e, NextOf(e, i))
    ensures Work(e, NextOf(e, i)) + 1 == WorkFrom(e.attachments, i) + SUBMIT_WORK
  {
    NextOfOk(e, i);
    AtOrBefore(e, i);
    if e.attachments[i].completed {
      AfterAttachmentWork(e, i + 1);
    }
  }

  lemma CreatedWork(e: Entry, o: Outcome)
    requires PointOk(e, Creating) && Hoped(e, Creating, o)
    ensures PointOk(Onward(e, Creating, o).0, Onward(e, Creating, o).1)
    ensures Work(Onward(e, Creating, o).0, Onward(e, Creating, o).1) + 1 == Work(e, Creating)
  {
    OnwardCreated(e, o);
    BindOk(e, o.reply);
    WorkFromSame(e.attachments, Updated(e, CreateRequest(e), o.reply).attachments, 0);
  }

  lemma SentWork(e: Entry, i: nat, content: Bytes, o: Outcome)
    requires PointOk(e, Sending(i, content)) && Hoped(e, Sending(i, content), o)
    ensures PointOk(Onward(e, Sending(i, content), o).0, Onward(e, Sending(i, content), o).1)
    ensures Work(Onward(e, Sending(i, content), o).0, Onward(e, Sending(i, content), o).1) + 1 ==
              Work(e, Sending(i, content))
  {
    OnwardSent(e, i, content, o);
    SentPartOk(e, i, content, o.reply);
    OneLess(e, i, content, o.reply);
    NextOfWork(Updated(e, PartRequest(e, i, content), o.reply), i);
  }

  /** One part less is missing of the attachment, and nothing else changed. */
  lemma OneLess(e: Entry, i: nat, content: Bytes, reply: Reply)
    requires PointOk(e, Sending(i, content)) && Accepts(e, PartRequest(e, i, content), reply)
    ensures var next := Updated(e, PartRequest(e, i, content), reply).attachments;
      && |next| == |e.attachments|
      && AttachmentWork(next[i]) + 5 == AttachmentWork(e.attachments[i])
      && WorkFrom(next, i + 1) == WorkFrom(e.attachments, i + 1)
  {
    AtCurrent(e);
    RecordedPartOk(e.attachments[i], reply.etag);
    WorkFromSame(e.attachments, Updated(e, PartRequest(e, i, content), reply).attachments, i + 1);
  }

  lemma CompletedWork(e: Entry, i: nat, o: Outcome)
    requires PointOk(e, Completing(i)) && Hoped(e, Completing(i), o)
    ensures PointOk(Onward(e, Completing(i), o).0, Onward(e, Completing(i), o).1)
    ensures Work(Onward(e, Completing(i), o).0, Onward(e, Completing(i), o).1) + 1 == Work(e, Completing(i))
  {
    OnwardCompleted(e, i, o);
    AtCurrent(e);
    CompletedIsLess(e, i, o.reply);
  }

  lemma CompletedIsLess(e: Entry, i: nat, reply: Reply)
    requires PointOk(e, Completing(i)) && e.attachments[i].remote.Some? && Accepts(e, CompleteRequest(e, i), reply)
    requires PointOk(e, AfterCompleted(e, i, reply))
    ensures Work(e, AfterCompleted(e, i, reply)) == 1 + RestWork(e, i)
  {
    CompletedOk(e, i, reply);
    SameAfter(e, i, reply);
    AfterAttachmentWork(Updated(e, CompleteRequest(e, i), reply), i + 1);
  }

  lemma SameAfter(e: Entry, i: nat, reply: Reply)
    requires PointOk(e, Completing(i)) && e.attachments[i].remote.Some? && Accepts(e, CompleteRequest(e, i), reply)
    requires Wants(e, CompleteRequest(e, i))
    ensures var next := Updated(e, CompleteRequest(e, i), reply).attachments;
      WorkFrom(next, i + 1) == WorkFrom(e.attachments, i + 1)
  {
    WorkFromSame(e.attachments, Updated(e, CompleteRequest(e, i), reply).attachments, i + 1);
  }

  /** Every hoped-for outcome takes the command one effect closer to its evidence. */
  lemma WorkStep(e: Entry, p: Point, o: Outcome)
    requires PointOk(e, p) && Hoped(e, p, o)
    ensures PointOk(Onward(e, p, o).0, Onward(e, p, o).1)
    ensures Work(Onward(e, p, o).0, Onward(e, p, o).1) + 1 == Work(e, p)
  {
    OnwardOk(e, p, o);
    match p
    case Creating => CreatedWork(e, o);
    case Checking(i) => NextOfWork(e, i);
    case Sending(i, content) => SentWork(e, i, content, o);
    case Completing(i) => CompletedWork(e, i, o);
    case _ =>
  }

  // ----- where a command gets to -----

  /** The first n outcomes are the hoped-for ones, one after the other. */
  predicate HopedFor(e: Entry, p: Point, outcomes: seq<Outcome>, n: nat)
    requires PointOk(e, p)
    decreases n
  {
    n == 0 ||
    (&& Hoped(e, p, First(outcomes))
     && (OnwardOk(e, p, First(outcomes));
         HopedFor(Onward(e, p, First(outcomes)).0, Onward(e, p, First(outcomes)).1, Rest(outcomes), n - 1)))
  }

  predicate DoneIffHoped(e: Entry, p: Point, outcomes: seq<Outcome>)
    requires PointOk(e, p)
  {
    && (Drive(e, p, outcomes).result.Done? <==> HopedFor(e, p, outcomes, Work(e, p)))
    && (Drive(e, p, outcomes).result.Done? ==>
          |outcomes| >= Work(e, p) && Drive(e, p, outcomes).rest == outcomes[Work(e, p)..])
  }

  /**
   * A command is done exactly when the effects its document needs all go well, and it then uses as
   * many outcomes. Anything else (Stopped, a changed file) means that an outcome was not the
   * hoped-for one or that there was none: it was refused, unanswered, or killed.
   */
  lemma {:induction false} DoneExactly(e: Entry, p: Point, outcomes: seq<Outcome>)
    requires PointOk(e, p)
    ensures DoneIffHoped(e, p, outcomes)
    decreases |outcomes|
  {
    if p.Finished? {
      assert outcomes[0..] == outcomes;
    } else if Hoped(e, p, First(outcomes)) {
      WorkStep(e, p, First(outcomes));
      var next := Onward(e, p, First(outcomes));
      DoneExactly(next.0, next.1, Rest(outcomes));
      DoneOneEarlier(e, p, outcomes, next.0, next.1);
    } else {
      NotDone(e, p, outcomes);
    }
  }

  lemma DoneOneEarlier(e: Entry, p: Point, outcomes: seq<Outcome>, f: Entry, q: Point)
    requires PointOk(e, p) && !p.Finished? && Hoped(e, p, First(outcomes)) && outcomes != []
    requires (f, q) == Onward(e, p, First(outcomes)) && PointOk(f, q) && Work(f, q) + 1 == Work(e, p)
    requires DoneIffHoped(f, q, Rest(outcomes))
    ensures DoneIffHoped(e, p, outcomes)
  {
    DriveOn(e, p, outcomes);
    HopedForOne(e, p, outcomes, Work(e, p));
    if |outcomes| >= Work(e, p) {
      assert Rest(outcomes)[Work(f, q)..] == outcomes[Work(e, p)..];
    }
  }

  lemma NotDone(e: Entry, p: Point, outcomes: seq<Outcome>)
    requires PointOk(e, p) && !p.Finished? && !Hoped(e, p, First(outcomes))
    ensures DoneIffHoped(e, p, outcomes)
  {
    WorkIsLeft(e, p);
    HopedForOne(e, p, outcomes, Work(e, p));
  }

  lemma HopedForOne(e: Entry, p: Point, outcomes: seq<Outcome>, n: nat)
    requires PointOk(e, p) && n > 0
    ensures if Hoped(e, p, First(outcomes)) then
              var next := Onward(e, p, First(outcomes));
              && PointOk(next.0, next.1)
              && (HopedFor(e, p, outcomes, n) <==> HopedFor(next.0, next.1, Rest(outcomes), n - 1))
            else !HopedFor(e, p, outcomes, n)
  {
    if Hoped(e, p, First(outcomes)) {
      OnwardOk(e, p, First(outcomes));
    }
  }

  lemma WorkIsLeft(e: Entry, p: Point)
    requires PointOk(e, p) && !p.Finished?
    ensures Work(e, p) > 0
  {
  }

  // ----- an edited file -----

  /** The part that the loop is at, as it was declared. */
  function Asked(e: Entry, i: nat, view: Option<View>): Read
    requires EntryOk(e) && PartMissing(e, i)
  {
    AtCurrent(e);
    var att := e.attachments[i];
    ReadPart(view, |att.completedParts| + 1, att.item.size, att.partSha256s[|att.completedParts|])
  }

  /** A look at a file that is not the one that was hashed deletes the document; at that file, it goes on. */
  lemma EditedFileDiscards(e: Entry, p: Point, i: nat, view: Option<View>, rest: seq<Outcome>)
    requires PointOk(e, p) && i < |e.attachments|
    requires p == Checking(i) || p == Rechecking(i) || p == CheckingComplete(i)
    ensures var att := e.attachments[i];
      if Matches(view, att.item.size, att.item.sha256) then Hoped(e, p, Found(view))
      else Drive(e, p, [Found(view)] + rest) == Ending(Result.FileChanged, None, rest)
  {
    DriveOne(e, p, [Found(view)] + rest);
    assert Rest([Found(view)] + rest) == rest;
  }

  lemma EditedPartDiscards(e: Entry, i: nat, view: Option<View>, rest: seq<Outcome>)
    requires PointOk(e, Reading(i))
    ensures if Asked(e, i, view).Content? then Hoped(e, Reading(i), Found(view))
            else Drive(e, Reading(i), [Found(view)] + rest) == Ending(Result.FileChanged, None, rest)
  {
    AtCurrent(e);
    DriveOne(e, Reading(i), [Found(view)] + rest);
    assert Rest([Found(view)] + rest) == rest;
  }

  /** Where the first outcome that is not hoped for is met: document, point and what is left. */
  function Stalled(e: Entry, p: Point, outcomes: seq<Outcome>): (s: (Entry, Point, seq<Outcome>))
    requires PointOk(e, p)
    ensures PointOk(s.0, s.1) && !Hoped(s.0, s.1, First(s.2))
    decreases |outcomes|
  {
    if !Hoped(e, p, First(outcomes)) then (e, p, outcomes)
    else
      OnwardOk(e, p, First(outcomes));
      var next := Onward(e, p, First(outcomes));
      Stalled(next.0, next.1, Rest(outcomes))
  }

  /** How a command that stalls here has ended. */
  predicate EndedAt(end: Ending, e: Entry, p: Point, rest: seq<Outcome>) {
    && (end.result.Done? <==> p.Finished?)
    && (end.result.FileChanged? <==> Looks(p) && First(rest).Found?)
    && (end.document.None? <==> end.result.FileChanged?)
    && (end.document.Some? ==> end.document.value == e)
    && end.rest == if p.Finished? then rest else Rest(rest)
  }

  /**
   * A whole command ends with a changed file, and without its document, exactly when the first outcome
   * that is not hoped for is a find at one of its looks; otherwise the document last saved stays.
   */
  lemma {:induction false} EndsWhereItStalls(e: Entry, p: Point, outcomes: seq<Outcome>)
    requires PointOk(e, p)
    ensures var s := Stalled(e, p, outcomes);
      EndedAt(Drive(e, p, outcomes), s.0, s.1, s.2)
    decreases |outcomes|
  {
    if Hoped(e, p, First(outcomes)) {
      OnwardOk(e, p, First(outcomes));
      var next := Onward(e, p, First(outcomes));
      DriveOn(e, p, outcomes);
      EndsWhereItStalls(next.0, next.1, Rest(outcomes));
    } else if !p.Finished? {
      DriveOne(e, p, outcomes);
    }
  }

  // ----- every document can be finished -----

  function Unchanged(item: Item): Outcome {
    Found(Some(View(Stat(item.size, 0, true), item.sha256.preimage)))
  }

  function NewView(e: Entry): Reply {
    JobView(0, JobUploading, seq(|e.attachments|, i requires 0 <= i < |e.attachments| =>
      AttachmentView(e.attachments[i].item.kind, i, Uploading)))
  }

  /** What an honest server and an unedited file answer. */
  function Wish(e: Entry, p: Point): Outcome
    requires PointOk(e, p)
  {
    match p
    case Creating => Replied(NewView(e))
    case Checking(i) => Unchanged(e.attachments[i].item)
    case AskingUrl(_) => Happens
    case Rechecking(i) => Unchanged(e.attachments[i].item)
    case Reading(i) => Unchanged(e.attachments[i].item)
    case Sending(_, content) => Replied(Stored(Sha256(content)))
    case CheckingComplete(i) => Unchanged(e.attachments[i].item)
    case Completing(_) => Replied(Completed)
    case Submitting => Replied(Submitted(Evidence(e.job.value, Received, None)))
    case Storing(_, _) => Happens
    case Finished(_) => Fails
  }

  lemma WishIsHoped(e: Entry, p: Point)
    requires PointOk(e, p) && !p.Finished?
    ensures Hoped(e, p, Wish(e, p))
  {
    match p
    case Checking(i) => UnchangedMatches(e, i);
    case Rechecking(i) => UnchangedMatches(e, i);
    case Reading(i) => UnchangedIsRead(e, i);
    case CheckingComplete(i) => UnchangedMatches(e, i);
    case Completing(i) => AtCurrent(e);
    case Creating => NewViewIsAccepted(e);
    case _ =>
  }

  lemma NewViewIsAccepted(e: Entry)
    ensures AcceptsView(e, NewView(e))
  {
  }

  lemma UnchangedIsRead(e: Entry, i: nat)
    requires EntryOk(e) && PartMissing(e, i)
    ensures PartRead(e, i, Unchanged(e.attachments[i].item)).Content?
  {
    UnchangedMatches(e, i);
    AtCurrent(e);
    var item := e.attachments[i].item;
    PartIsOriginal(item.sha256.preimage, Unchanged(item).view, NextPart(e.attachments[i], 1));
  }

  lemma UnchangedMatches(e: Entry, i: nat)
    requires EntryOk(e) && i < |e.attachments|
    ensures Same(Unchanged(e.attachments[i].item), e.attachments[i])
    ensures e.attachments[i].item.size == |e.attachments[i].item.sha256.preimage|
    ensures e.attachments[i].partSha256s == PartDigests(e.attachments[i].item)
  {
    assert e.fingerprint.preimage.items[i] in e.fingerprint.preimage.items;
  }

  /** The good outcomes of a whole command. */
  function Wishes(e: Entry, p: Point): (outcomes: seq<Outcome>)
    requires PointOk(e, p)
    ensures |outcomes| == Work(e, p)
    decreases Work(e, p)
  {
    if p.Finished? then []
    else
      WishIsHoped(e, p);
      WorkStep(e, p, Wish(e, p));
      var next := Onward(e, p, Wish(e, p));
      [Wish(e, p)] + Wishes(next.0, next.1)
  }

  /** From every document and every point: with those outcomes the command reaches its evidence. */
  lemma {:induction false} WishesSuffice(e: Entry, p: Point)
    requires PointOk(e, p)
    ensures Drive(e, p, Wishes(e, p)).result.Done?
    decreases Work(e, p)
  {
    if !p.Finished? {
      WishIsHoped(e, p);
      WorkStep(e, p, Wish(e, p));
      var next := Onward(e, p, Wish(e, p));
      WishesSuffice(next.0, next.1);
      assert Rest(Wishes(e, p)) == Wishes(next.0, next.1);
    }
  }
}
