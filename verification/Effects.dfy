/**
 * What a command does with a document, one effect at a time and without loops: the next effect follows
 * from the document alone, and what it meets decides whether the command goes on.
 */
module Effects {
  import opened Common
  import opened Rows
  import opened Parts
  import opened Outbox
  import opened OutboxProgress
  import opened OutboxRuns

  /** What happens at one effect; when nothing more happens, the command was killed there. */
  datatype Outcome = Happens | Replied(reply: Reply) | Found(view: Option<View>) | Fails

  datatype Result = Done(evidence: Evidence) | FileChanged | Stopped

  /** The effect a command is at; after a save it goes on at the point after. */
  datatype Point =
    | Creating
    | Checking(i: nat)
    | AskingUrl(i: nat)
    | Rechecking(i: nat)
    | Reading(i: nat)
    | Sending(i: nat, content: Bytes)
    | CheckingComplete(i: nat)
    | Completing(i: nat)
    | Submitting
    | Storing(next: Entry, after: Point)
    | Finished(evidence: Evidence)

  function First(outcomes: seq<Outcome>): Outcome {
    if outcomes == [] then Fails else outcomes[0]
  }

  function Rest(outcomes: seq<Outcome>): seq<Outcome> {
    if outcomes == [] then [] else outcomes[1..]
  }

  // ----- the points of a document -----

  predicate UploadingAt(e: Entry, i: nat) {
    e.phase == UPLOAD && i < |e.attachments|
  }

  /** A part of the current attachment is missing. */
  predicate PartMissing(e: Entry, i: nat) {
    UploadingAt(e, i) && i == Current(e.attachments) && NextPart(e.attachments[i], 1) <= Total(e.attachments[i])
  }

  predicate AllStored(e: Entry, i: nat) {
    UploadingAt(e, i) && i == Current(e.attachments) && NextPart(e.attachments[i], 1) == Total(e.attachments[i]) + 1
  }

  function PartRequest(e: Entry, i: nat, content: Bytes): Request
    requires i < |e.attachments| && e.attachments[i].remote.Some?
  {
    PutPart(e.attachments[i].remote.value, NextPart(e.attachments[i], 1), content)
  }

  function CompleteRequest(e: Entry, i: nat): Request
    requires i < |e.attachments| && e.attachments[i].remote.Some?
  {
    CompleteFile(e.attachments[i].remote.value, e.attachments[i].completedParts)
  }

  function CreateRequest(e: Entry): Request {
    CreateJob(e.key, e.fingerprint.preimage)
  }

  predicate PointOk(e: Entry, p: Point)
    decreases p
  {
    && EntryOk(e)
    && match p
       case Creating => e.phase == CREATE
       case Checking(i) => UploadingAt(e, i) && i <= Current(e.attachments)
       case AskingUrl(i) => PartMissing(e, i)
       case Rechecking(i) => PartMissing(e, i)
       case Reading(i) => PartMissing(e, i)
       case Sending(i, content) =>
         PartMissing(e, i) && e.attachments[i].remote.Some? && Wants(e, PartRequest(e, i, content))
       case CheckingComplete(i) => AllStored(e, i)
       case Completing(i) => AllStored(e, i)
       case Submitting => e.phase == SUBMIT
       case Storing(next, after) => PointOk(next, after)
       case Finished(evidence) => e.evidence == Some(evidence)
  }

  function FirstPoint(e: Entry): Point
    requires EntryOk(e)
  {
    match e.phase
    case CREATE => Creating
    case UPLOAD => Checking(0)
    case SUBMIT => Submitting
    case EVIDENCE => Finished(e.evidence.value)
  }

  /** After the check of attachment i, and after each of its parts. */
  function NextOf(e: Entry, i: nat): Point
    requires i < |e.attachments|
  {
    if NextPart(e.attachments[i], 1) <= Total(e.attachments[i]) then AskingUrl(i)
    else if !e.attachments[i].completed then CheckingComplete(i)
    else AfterAttachment(e, i + 1)
  }

  function AfterAttachment(e: Entry, i: nat): Point {
    if i < |e.attachments| then Checking(i) else Storing(e.(phase := SUBMIT), Submitting)
  }

  // ----- what an effect meets -----

  predicate Same(o: Outcome, att: AttachmentDoc) {
    o.Found? && Matches(o.view, att.item.size, att.item.sha256)
  }

  function PartRead(e: Entry, i: nat, o: Outcome): Read
    requires EntryOk(e) && PartMissing(e, i) && o.Found?
  {
    AtCurrent(e);
    var n := NextPart(e.attachments[i], 1);
    ReadPart(o.view, n, e.attachments[i].item.size, e.attachments[i].partSha256s[n - 1])
  }

  /** The outcome with which the command goes on. */
  predicate Hoped(e: Entry, p: Point, o: Outcome)
    requires PointOk(e, p)
  {
    match p
    case Creating => o.Replied? && Accepts(e, CreateRequest(e), o.reply)
    case Checking(i) => Same(o, e.attachments[i])
    case AskingUrl(_) => o.Happens?
    case Rechecking(i) => Same(o, e.attachments[i])
    case Reading(i) => o.Found? && PartRead(e, i, o).Content?
    case Sending(i, content) => o.Replied? && Accepts(e, PartRequest(e, i, content), o.reply)
    case CheckingComplete(i) => Same(o, e.attachments[i])
    case Completing(i) => AtCurrent(e); o.Replied? && Accepts(e, CompleteRequest(e, i), o.reply)
    case Submitting => o.Replied? && Accepts(e, SubmitJob(e.job.value), o.reply)
    case Storing(_, _) => !o.Fails?
    case Finished(_) => false
  }

  /** Any other look at the local file discards the document. */
  predicate Discards(p: Point, o: Outcome) {
    o.Found? && (p.Checking? || p.Rechecking? || p.Reading? || p.CheckingComplete?)
  }

  function AfterCreated(e: Entry, reply: Reply): Point
    requires PointOk(e, Creating) && Accepts(e, CreateRequest(e), reply)
  {
    Storing(Updated(e, CreateRequest(e), reply), Checking(0))
  }

  function AfterSent(e: Entry, i: nat, content: Bytes, reply: Reply): Point
    requires PointOk(e, Sending(i, content)) && Accepts(e, PartRequest(e, i, content), reply)
  {
    var next := Updated(e, PartRequest(e, i, content), reply);
    Storing(next, NextOf(next, i))
  }

  function AfterCompleted(e: Entry, i: nat, reply: Reply): Point
    requires PointOk(e, Completing(i)) && e.attachments[i].remote.Some? && Accepts(e, CompleteRequest(e, i), reply)
  {
    AtCurrent(e);
    var next := Updated(e, CompleteRequest(e, i), reply);
    Storing(next, AfterAttachment(next, i + 1))
  }

  function AfterSubmitted(e: Entry, reply: Reply): Point
    requires PointOk(e, Submitting) && Accepts(e, SubmitJob(e.job.value), reply)
  {
    Storing(Updated(e, SubmitJob(e.job.value), reply), Finished(reply.evidence))
  }

  /** The document on disk and the next point after a hoped-for outcome. */
  function Onward(e: Entry, p: Point, o: Outcome): (Entry, Point)
    requires PointOk(e, p) && Hoped(e, p, o)
  {
    match p
    case Creating => (e, AfterCreated(e, o.reply))
    case Checking(i) => (e, NextOf(e, i))
    case AskingUrl(i) => (e, Rechecking(i))
    case Rechecking(i) => (e, Reading(i))
    case Reading(i) => (e, Sending(i, PartRead(e, i, o).bytes))
    case Sending(i, content) => (e, AfterSent(e, i, content, o.reply))
    case CheckingComplete(i) => (e, Completing(i))
    case Completing(i) => AtCurrent(e); (e, AfterCompleted(e, i, o.reply))
    case Submitting => (e, AfterSubmitted(e, o.reply))
    case Storing(next, after) => (next, after)
  }

  // ----- points stay points -----

  /** Up to the attachment that the loop is at, parts are recorded from 1 on, and all of a completed one. */
  lemma AtOrBefore(e: Entry, i: nat)
    requires EntryOk(e) && i <= Current(e.attachments) && i < |e.attachments|
    ensures var att := e.attachments[i];
      && |att.completedParts| <= Total(att)
      && NextPart(att, 1) == |att.completedParts| + 1
      && (att.completed ==> |att.completedParts| == Total(att))
      && (!att.completed ==> i == Current(e.attachments))
  {
    var att := e.attachments[i];
    RecordedWithinTotal(e, i);
    NextPartFollows(att, 1);
    assert att in e.attachments;
  }

  lemma AfterAttachmentOk(e: Entry, i: nat)
    requires EntryOk(e) && e.phase == UPLOAD && i <= Current(e.attachments)
    ensures PointOk(e, AfterAttachment(e, i))
  {
    if i == |e.attachments| {
      AdvanceOk(e);
    }
  }

  lemma NextOfOk(e: Entry, i: nat)
    requires EntryOk(e) && UploadingAt(e, i) && i <= Current(e.attachments)
    ensures PointOk(e, NextOf(e, i))
  {
    AtOrBefore(e, i);
    if e.attachments[i].completed {
      AfterAttachmentOk(e, i + 1);
    }
  }

  lemma SentPartOk(e: Entry, i: nat, content: Bytes, reply: Reply)
    requires PointOk(e, Sending(i, content)) && Accepts(e, PartRequest(e, i, content), reply)
    ensures var next := Updated(e, PartRequest(e, i, content), reply);
      EntryOk(next) && UploadingAt(next, i) && i == Current(next.attachments)
  {
    UpdatedOk(e, PartRequest(e, i, content), reply);
    var att := e.attachments[i];
    AtCurrent(e);
    RecordedPartOk(att, reply.etag);
    var p := Piece(NextPart(att, 1), reply.etag);
    ReplacedShaped(e.attachments, att.(completedParts := Inserted(att.completedParts, p)));
  }

  lemma CompletedOk(e: Entry, i: nat, reply: Reply)
    requires PointOk(e, Completing(i)) && e.attachments[i].remote.Some? && Accepts(e, CompleteRequest(e, i), reply)
    ensures Wants(e, CompleteRequest(e, i))
    ensures var next := Updated(e, CompleteRequest(e, i), reply);
      EntryOk(next) && next.phase == UPLOAD && i + 1 == Current(next.attachments)
  {
    UpdatedOk(e, CompleteRequest(e, i), reply);
    AtCurrent(e);
    ReplacedShaped(e.attachments, e.attachments[i].(completed := true));
  }

  lemma OnwardCreated(e: Entry, o: Outcome)
    requires PointOk(e, Creating) && Hoped(e, Creating, o)
    ensures PointOk(Onward(e, Creating, o).0, Onward(e, Creating, o).1)
  {
    UpdatedOk(e, CreateRequest(e), o.reply);
  }

  lemma OnwardSent(e: Entry, i: nat, content: Bytes, o: Outcome)
    requires PointOk(e, Sending(i, content)) && Hoped(e, Sending(i, content), o)
    ensures PointOk(Onward(e, Sending(i, content), o).0, Onward(e, Sending(i, content), o).1)
  {
    SentPartOk(e, i, content, o.reply);
    NextOfOk(Updated(e, PartRequest(e, i, content), o.reply), i);
  }

  lemma OnwardCompleted(e: Entry, i: nat, o: Outcome)
    requires PointOk(e, Completing(i)) && Hoped(e, Completing(i), o)
    ensures PointOk(Onward(e, Completing(i), o).0, Onward(e, Completing(i), o).1)
  {
    AtCurrent(e);
    CompletedOk(e, i, o.reply);
    AfterAttachmentOk(Updated(e, CompleteRequest(e, i), o.reply), i + 1);
  }

  lemma OnwardSubmitted(e: Entry, o: Outcome)
    requires PointOk(e, Submitting) && Hoped(e, Submitting, o)
    ensures PointOk(Onward(e, Submitting, o).0, Onward(e, Submitting, o).1)
  {
    UpdatedOk(e, SubmitJob(e.job.value), o.reply);
  }

  lemma OnwardOk(e: Entry, p: Point, o: Outcome)
    requires PointOk(e, p) && Hoped(e, p, o)
    ensures PointOk(Onward(e, p, o).0, Onward(e, p, o).1)
  {
    match p
    case Creating => OnwardCreated(e, o);
    case Checking(i) => NextOfOk(e, i);
    case Reading(i) => AtCurrent(e);
    case Sending(i, content) => OnwardSent(e, i, content, o);
    case Completing(i) => OnwardCompleted(e, i, o);
    case Submitting => OnwardSubmitted(e, o);
    case _ =>
  }

  // ----- the whole command -----

  /** How it ends: the result, the document left on disk, and the outcomes not used. */
  datatype Ending = Ending(result: Result, document: Option<Entry>, rest: seq<Outcome>)

  function Drive(e: Entry, p: Point, outcomes: seq<Outcome>): Ending
    requires PointOk(e, p)
    decreases |outcomes|
  {
    if p.Finished? then Ending(Done(p.evidence), Some(e), outcomes)
    else if Hoped(e, p, First(outcomes)) then
      OnwardOk(e, p, First(outcomes));
      var next := Onward(e, p, First(outcomes));
      Drive(next.0, next.1, Rest(outcomes))
    else if Discards(p, First(outcomes)) then Ending(Result.FileChanged, None, Rest(outcomes))
    else Ending(Stopped, Some(e), Rest(outcomes))
  }

  lemma DriveOn(e: Entry, p: Point, outcomes: seq<Outcome>)
    requires PointOk(e, p) && Hoped(e, p, First(outcomes))
    ensures PointOk(Onward(e, p, First(outcomes)).0, Onward(e, p, First(outcomes)).1)
    ensures Drive(e, p, outcomes) ==
              Drive(Onward(e, p, First(outcomes)).0, Onward(e, p, First(outcomes)).1, Rest(outcomes))
  {
    OnwardOk(e, p, First(outcomes));
  }

  /** The points at which the command looks at the local file. */
  predicate Looks(p: Point) {
    match p
    case Checking(_) => true
    case Rechecking(_) => true
    case Reading(_) => true
    case CheckingComplete(_) => true
    case _ => false
  }

  /** One outcome: either the command goes on from the next point, or this is its end. */
  lemma DriveOne(e: Entry, p: Point, outcomes: seq<Outcome>)
    requires PointOk(e, p) && !p.Finished?
    ensures var o, end := First(outcomes), Drive(e, p, outcomes);
      if Hoped(e, p, o) then
        && PointOk(Onward(e, p, o).0, Onward(e, p, o).1)
        && end == Drive(Onward(e, p, o).0, Onward(e, p, o).1, Rest(outcomes))
      else if o.Found? && Looks(p) then end == Ending(Result.FileChanged, None, Rest(outcomes))
      else end == Ending(Stopped, Some(e), Rest(outcomes))
  {
    if Hoped(e, p, First(outcomes)) {
      OnwardOk(e, p, First(outcomes));
    }
  }

  /** The request that is made at a point. */
  predicate Requests(e: Entry, p: Point, request: Request)
    requires PointOk(e, p)
  {
    match p
    case Creating => request == CreateRequest(e)
    case Sending(i, content) => request == PartRequest(e, i, content)
    case Completing(i) => AtCurrent(e); request == CompleteRequest(e, i)
    case Submitting => request == SubmitJob(e.job.value)
    case _ => false
  }

  lemma RequestsAreWanted(e: Entry, p: Point, request: Request, o: Outcome)
    requires PointOk(e, p) && Requests(e, p, request)
    ensures Wants(e, request) && !p.Finished? && !Discards(p, o)
    ensures Hoped(e, p, o) <==> o.Replied? && Accepts(e, request, o.reply)
  {
    if p.Completing? {
      AtCurrent(e);
    }
  }
}
