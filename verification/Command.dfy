/** The connector's command itself: nested loops over a document in memory, saved after each answer. */
module Command {
  import opened Common
  import opened Rows
  import opened Parts
  import opened Outbox
  import opened OutboxProgress
  import opened OutboxRuns
  import opened Effects

  lemma {:induction false} FinalSnoc(c: Connector, events: seq<Event>, ev: Event)
    requires Final(c, events).Some? && May(Final(c, events).value, ev)
    ensures Final(c, events + [ev]) == Some(After(Final(c, events).value, ev))
    decreases |events|
  {
    if events == [] {
      assert events + [ev] == [ev] && [ev][1..] == [];
    } else {
      FinalSnoc(After(c, events[0]), events[1..], ev);
      assert (events + [ev])[1..] == events[1..] + [ev];
    }
  }

  /**
   * One running command. outcomes is what its effects will meet; events is what it has done so far,
   * from start on. Every method is given the ending that the document and the outcomes call for, and
   * either brings the command closer to it or has reached it.
   */
  class Run {
    var document: Option<Entry>
    var entry: Entry
    var outcomes: seq<Outcome>
    ghost var start: Connector
    ghost var events: seq<Event>

    constructor (from: Connector, what: seq<Outcome>)
      requires ConnectorInv(from) && from.pc.Ready?
      ensures document == from.disk && document == Some(entry) && start == from && At(Ready)
      ensures outcomes == what && events == [] && EntryOk(entry)
    {
      document, entry, outcomes := from.disk, from.disk.value, what;
      start, events := from, [];
    }

    /** The events so far are steps of the connector and lead to this document and this point. */
    ghost predicate At(pc: Pc)
      reads this
    {
      && ConnectorInv(start)
      && Final(start, events).Some?
      && Final(start, events).value.disk == document
      && Final(start, events).value.pc == pc
    }

    /** At point p with the document saved; the rest leads to this ending. */
    ghost predicate Facing(p: Point, end: Ending)
      reads this
    {
      At(Ready) && document == Some(entry) && PointOk(entry, p) && Drive(entry, p, outcomes) == end
    }

    /** About to save what is in memory and go on at the point after. */
    ghost predicate SavingThen(after: Point, end: Ending)
      reads this
    {
      && At(Saving(entry)) && document.Some?
      && PointOk(document.value, Storing(entry, after))
      && Drive(document.value, Storing(entry, after), outcomes) == end
    }

    ghost predicate Over(r: Result, end: Ending)
      reads this
    {
      At(Idle) && !r.Done? && end == Ending(r, document, outcomes)
    }

    /** The evidence is saved, and that is where the document and the outcomes lead. */
    ghost predicate Recorded(evidence: Evidence, end: Ending)
      reads this
    {
      && At(Ready) && document == Some(entry) && entry.evidence == Some(evidence)
      && end == Ending(Done(evidence), document, outcomes)
    }

    ghost method Note(ev: Event)
      requires Final(start, events).Some? && May(Final(start, events).value, ev)
      modifies this`events
      ensures Final(start, events) == Some(After(Final(start, old(events)).value, ev))
    {
      FinalSnoc(start, events, ev);
      events := events + [ev];
    }

    method Take() returns (o: Outcome)
      modifies this`outcomes
      ensures o == First(old(outcomes)) && outcomes == Rest(old(outcomes))
    {
      if outcomes == [] {
        return Fails;
      }
      o := outcomes[0];
      outcomes := outcomes[1..];
    }

    /** One request; the command goes on only with a reply that it accepts. */
    method Call(request: Request, ghost p: Point, ghost end: Ending) returns (reply: Option<Reply>)
      requires Facing(p, end) && Requests(entry, p, request)
      modifies this`outcomes, this`events
      ensures reply.Some? ==>
                && At(Waiting(request)) && Hoped(entry, p, Replied(reply.value))
                && var next := Onward(entry, p, Replied(reply.value));
                   PointOk(next.0, next.1) && Drive(next.0, next.1, outcomes) == end
      ensures reply.None? ==> Over(Stopped, end)
    {
      RequestsAreWanted(entry, p, request, First(outcomes));
      Note(Send(request));
      DriveOne(entry, p, outcomes);
      var o := Take();
      if o.Replied? && Accepts(entry, request, o.reply) {
        return Some(o.reply);
      }
      Note(Interrupt);
      return None;
    }

    /** Saves what is in memory, or is killed before. */
    method Save(ghost after: Point, ghost end: Ending) returns (ok: bool)
      requires SavingThen(after, end)
      modifies this`document, this`outcomes, this`events
      ensures if ok then Facing(after, end) else Over(Stopped, end)
    {
      ghost var p := Storing(entry, after);
      DriveOne(document.value, p, outcomes);
      var o := Take();
      if o.Fails? {
        Note(Interrupt);
        return false;
      }
      document := Some(entry);
      Note(Event.Save);
      ok := true;
    }

    /** Binds the remote identifiers, attachment by attachment. */
    method BindCreatedJob(view: Reply)
      requires view.JobView?
      modifies this`entry
      ensures entry == Outbox.BindCreatedJob(old(entry), view)
    {
      var stored := entry.attachments;
      for i := 0 to |stored|
        invariant |stored| == |entry.attachments|
        invariant forall k :: 0 <= k < i ==>
                    stored[k] == entry.attachments[k].(remote := ByKind(view.attachments,
                                                                        entry.attachments[k].item.kind))
        invariant forall k :: i <= k < |stored| ==> stored[k] == entry.attachments[k]
      {
        stored := stored[i := stored[i].(remote := ByKind(view.attachments, stored[i].item.kind))];
      }
      entry := entry.(job := Some(view.job), phase := UPLOAD, attachments := stored);
    }

    method Discard()
      requires At(Ready) && document == Some(entry) && entry.phase != EVIDENCE
      modifies this`document, this`events
      ensures At(Idle) && document.None?
    {
      Note(Event.Discard);
      document := None;
    }

    /** One of the three looks at the local file; a difference discards the document. */
    method Verify(i: nat, ghost p: Point, ghost end: Ending) returns (stop: Option<Result>)
      requires Facing(p, end) && (p == Checking(i) || p == Rechecking(i) || p == CheckingComplete(i))
      modifies this`document, this`outcomes, this`events
      ensures stop.Some? ==> Over(stop.value, end)
      ensures stop.None? ==>
                Facing(if p.Checking? then NextOf(entry, i) else if p.Rechecking? then Reading(i) else Completing(i),
                       end)
      ensures var o, item := First(old(outcomes)), entry.attachments[i].item;
        && (stop.None? <==> o.Found? && Matches(o.view, item.size, item.sha256))
        && (stop == Some(Result.FileChanged) <==> o.Found? && !Matches(o.view, item.size, item.sha256))
        && (stop == Some(Result.FileChanged) <==> document.None?)
    {
      var att := entry.attachments[i];
      DriveOne(entry, p, outcomes);
      var o := Take();
      if !o.Found? {
        Note(Interrupt);
        return Some(Stopped);
      }
      if !Matches(o.view, att.item.size, att.item.sha256) {
        Discard();
        return Some(Result.FileChanged);
      }
      return None;
    }

    /** Asks for the part's URL, which changes nothing on either side. */
    method AskUrl(i: nat, ghost end: Ending) returns (ok: bool)
      requires Facing(AskingUrl(i), end)
      modifies this`outcomes, this`events
      ensures if ok then Facing(Rechecking(i), end) else Over(Stopped, end)
    {
      DriveOne(entry, AskingUrl(i), outcomes);
      var o := Take();
      ok := o.Happens?;
      if !ok {
        Note(Interrupt);
      }
    }

    /** Reads the part the loop is at, or learns that the file is not the one that was hashed. */
    method ReadNext(i: nat, number: nat, ghost end: Ending) returns (content: Bytes, stop: Option<Result>)
      requires Facing(Reading(i), end) && number == NextPart(entry.attachments[i], 1)
      modifies this`document, this`outcomes, this`events
      ensures stop.Some? ==> Over(stop.value, end)
      ensures stop.None? ==> Facing(Sending(i, content), end)
    {
      var att := entry.attachments[i];
      AtCurrent(entry);
      DriveOne(entry, Reading(i), outcomes);
      var o := Take();
      if !o.Found? {
        Note(Interrupt);
        return [], Some(Stopped);
      }
      var read := ReadPart(o.view, number, att.item.size, att.partSha256s[number - 1]);
      if read.FileChanged? {
        Discard();
        return [], Some(Result.FileChanged);
      }
      return read.bytes, None;
    }

    /** Sends one part and records it. */
    method SendPart(i: nat, number: nat, content: Bytes, ghost end: Ending) returns (ok: bool)
      requires Facing(Sending(i, content), end) && number == NextPart(entry.attachments[i], 1)
      modifies this`document, this`entry, this`outcomes, this`events
      ensures !ok ==> Over(Stopped, end)
      ensures ok ==> RecordedOne(old(entry), i, number) && Facing(NextOf(entry, i), end)
    {
      var att := entry.attachments[i];
      ghost var p := Sending(i, content);
      var request := PutPart(att.remote.value, number, content);
      var reply := Call(request, p, end);
      if reply.None? {
        return false;
      }
      SentPartOk(entry, i, content, reply.value);
      OneMore(entry, i, content, reply.value);
      Note(Receive(reply.value));
      att := att.(completedParts := Inserted(att.completedParts, Piece(number, reply.value.etag)));
      entry := WithAttachment(entry, i, att);
      ok := Save(NextOf(entry, i), end);
    }

    /** The loop at attachment i has recorded this part and is at the next. */
    ghost predicate RecordedOne(was: Entry, i: nat, number: nat)
      requires i < |was.attachments|
      reads this
    {
      && |entry.attachments| == |was.attachments| && UploadingAt(entry, i)
      && i == Current(entry.attachments)
      && Total(entry.attachments[i]) == Total(was.attachments[i])
      && NextPart(entry.attachments[i], 1) == number + 1
    }

    /** Sends the part the loop is at and records it. */
    method UploadPart(i: nat, number: nat, ghost end: Ending) returns (stop: Option<Result>)
      requires Facing(AskingUrl(i), end) && number == NextPart(entry.attachments[i], 1)
      modifies this`document, this`entry, this`outcomes, this`events
      ensures stop.Some? ==> Over(stop.value, end)
      ensures stop.None? ==> RecordedOne(old(entry), i, number) && Facing(NextOf(entry, i), end)
    {
      var asked := AskUrl(i, end);
      if !asked {
        return Some(Stopped);
      }
      stop := Verify(i, Rechecking(i), end);
      if stop.Some? {
        return;
      }
      var content: Bytes;
      content, stop := ReadNext(i, number, end);
      if stop.Some? {
        return;
      }
      var sent := SendPart(i, number, content, end);
      stop := if sent then None else Some(Stopped);
    }

    /** Tells the server that all parts are there, unless that is already recorded. */
    method CompleteAttachment(i: nat, ghost end: Ending) returns (stop: Option<Result>)
      requires Facing(CheckingComplete(i), end)
      modifies this`document, this`entry, this`outcomes, this`events
      ensures stop.Some? ==> Over(stop.value, end)
      ensures stop.None? ==>
                && |entry.attachments| == |old(entry).attachments| && entry.phase == UPLOAD
                && Current(entry.attachments) == i + 1
                && Facing(AfterAttachment(entry, i + 1), end)
    {
      stop := Verify(i, CheckingComplete(i), end);
      if stop.Some? {
        return;
      }
      var completed := SendComplete(i, end);
      stop := if completed then None else Some(Stopped);
    }

    method SendComplete(i: nat, ghost end: Ending) returns (ok: bool)
      requires Facing(Completing(i), end)
      modifies this`document, this`entry, this`outcomes, this`events
      ensures !ok ==> Over(Stopped, end)
      ensures ok ==>
                && |entry.attachments| == |old(entry).attachments| && entry.phase == UPLOAD
                && Current(entry.attachments) == i + 1
                && Facing(AfterAttachment(entry, i + 1), end)
    {
      AtCurrent(entry);
      var att := entry.attachments[i];
      var request := CompleteFile(att.remote.value, att.completedParts);
      var reply := Call(request, Completing(i), end);
      if reply.None? {
        return false;
      }
      ok := RecordComplete(i, reply.value, end);
    }

    method RecordComplete(i: nat, reply: Reply, ghost end: Ending) returns (ok: bool)
      requires document == Some(entry) && PointOk(entry, Completing(i)) && entry.attachments[i].remote.Some?
      requires At(Waiting(CompleteRequest(entry, i))) && Accepts(entry, CompleteRequest(entry, i), reply)
      requires PointOk(entry, AfterCompleted(entry, i, reply))
      requires Drive(entry, AfterCompleted(entry, i, reply), outcomes) == end
      modifies this`document, this`entry, this`outcomes, this`events
      ensures !ok ==> Over(Stopped, end)
      ensures ok ==>
                && |entry.attachments| == |old(entry).attachments| && entry.phase == UPLOAD
                && Current(entry.attachments) == i + 1
                && Facing(AfterAttachment(entry, i + 1), end)
    {
      CompletedOk(entry, i, reply);
      Note(Receive(reply));
      entry := WithAttachment(entry, i, entry.attachments[i].(completed := true));
      ok := Save(AfterAttachment(entry, i + 1), end);
    }

    /** Skips the recorded parts of an attachment and sends the others. */
    method UploadParts(i: nat, ghost end: Ending) returns (stop: Option<Result>)
      requires UploadingAt(entry, i) && i <= Current(entry.attachments) && Facing(NextOf(entry, i), end)
      modifies this`document, this`entry, this`outcomes, this`events
      ensures stop.Some? ==> Over(stop.value, end)
      ensures stop.None? ==>
                && |entry.attachments| == |old(entry).attachments| && UploadingAt(entry, i)
                && i <= Current(entry.attachments)
                && NextPart(entry.attachments[i], 1) == Total(entry.attachments[i]) + 1
                && Facing(NextOf(entry, i), end)
    {
      AtOrBefore(entry, i);
      var total := Total(entry.attachments[i]);
      var number := 1;
      while number <= total
        invariant |entry.attachments| == |old(entry).attachments| && UploadingAt(entry, i)
        invariant i <= Current(entry.attachments) && Total(entry.attachments[i]) == total
        invariant 1 <= number <= NextPart(entry.attachments[i], 1) <= total + 1
        invariant entry.attachments[i].completed ==> NextPart(entry.attachments[i], 1) == total + 1
        invariant Facing(NextOf(entry, i), end)
      {
        if !HasPart(entry.attachments[i].completedParts, number) {
          stop := UploadPart(i, number, end);
          if stop.Some? {
            return;
          }
        }
        number := number + 1;
      }
      stop := None;
    }

    /** Verifies one attachment, sends what is missing of it, and completes it once. */
    method UploadAttachment(i: nat, ghost end: Ending) returns (stop: Option<Result>)
      requires Facing(Checking(i), end)
      modifies this`document, this`entry, this`outcomes, this`events
      ensures stop.Some? ==> Over(stop.value, end)
      ensures stop.None? ==>
                && |entry.attachments| == |old(entry).attachments| && entry.phase == UPLOAD
                && Current(entry.attachments) > i
                && Facing(AfterAttachment(entry, i + 1), end)
    {
      stop := Verify(i, Checking(i), end);
      if stop.Some? {
        return;
      }
      stop := UploadParts(i, end);
      if stop.Some? {
        return;
      }
      stop := FinishAttachment(i, end);
    }

    method FinishAttachment(i: nat, ghost end: Ending) returns (stop: Option<Result>)
      requires UploadingAt(entry, i) && i <= Current(entry.attachments) && Facing(NextOf(entry, i), end)
      requires NextPart(entry.attachments[i], 1) == Total(entry.attachments[i]) + 1
      modifies this`document, this`entry, this`outcomes, this`events
      ensures stop.Some? ==> Over(stop.value, end)
      ensures stop.None? ==>
                && |entry.attachments| == |old(entry).attachments| && entry.phase == UPLOAD
                && Current(entry.attachments) > i
                && Facing(AfterAttachment(entry, i + 1), end)
    {
      AtOrBefore(entry, i);
      if entry.attachments[i].completed {
        return None;
      }
      stop := CompleteAttachment(i, end);
    }

    method UploadAll(ghost end: Ending) returns (stop: Option<Result>)
      requires Facing(Checking(0), end)
      modifies this`document, this`entry, this`outcomes, this`events
      ensures stop.Some? ==> Over(stop.value, end)
      ensures stop.None? ==> Facing(Submitting, end)
    {
      for i := 0 to |entry.attachments|
        invariant |entry.attachments| == |old(entry).attachments| && entry.phase == UPLOAD
        invariant i <= Current(entry.attachments)
        invariant Facing(AfterAttachment(entry, i), end)
      {
        stop := UploadAttachment(i, end);
        if stop.Some? {
          return;
        }
      }
      Note(Advance);
      entry := entry.(phase := SUBMIT);
      var saved := Save(Submitting, end);
      stop := if saved then None else Some(Stopped);
    }

    method CreateRemoteJob(ghost end: Ending) returns (ok: bool)
      requires Facing(Creating, end)
      modifies this`document, this`entry, this`outcomes, this`events
      ensures if ok then Facing(Checking(0), end) else Over(Stopped, end)
    {
      var request := CreateJob(entry.key, entry.fingerprint.preimage);
      var reply := Call(request, Creating, end);
      if reply.None? {
        return false;
      }
      ok := BindAndSave(reply.value, end);
    }

    method BindAndSave(reply: Reply, ghost end: Ending) returns (ok: bool)
      requires At(Waiting(CreateRequest(entry))) && document == Some(entry) && PointOk(entry, Creating)
      requires Accepts(entry, CreateRequest(entry), reply)
      requires PointOk(entry, AfterCreated(entry, reply)) && Drive(entry, AfterCreated(entry, reply), outcomes) == end
      modifies this`document, this`entry, this`outcomes, this`events
      ensures if ok then Facing(Checking(0), end) else Over(Stopped, end)
    {
      Note(Receive(reply));
      BindCreatedJob(reply);
      ok := Save(Checking(0), end);
    }

    method SubmitAndRecord(ghost end: Ending) returns (r: Result)
      requires Facing(Submitting, end)
      modifies this`document, this`entry, this`outcomes, this`events
      ensures r.Done? ==> Recorded(r.evidence, end)
      ensures !r.Done? ==> r.Stopped? && Over(Stopped, end)
    {
      var request := SubmitJob(entry.job.value);
      var reply := Call(request, Submitting, end);
      if reply.None? {
        return Stopped;
      }
      UpdatedOk(entry, request, reply.value);
      Note(Receive(reply.value));
      entry := entry.(phase := EVIDENCE, evidence := Some(reply.value.evidence));
      var saved := Save(Finished(reply.value.evidence), end);
      r := if saved then Done(reply.value.evidence) else Stopped;
    }

    method WorkThrough(ghost end: Ending) returns (r: Result)
      requires EntryOk(entry) && entry.phase != EVIDENCE && Facing(FirstPoint(entry), end)
      modifies this`document, this`entry, this`outcomes, this`events
      ensures r.Done? ==> Recorded(r.evidence, end)
      ensures !r.Done? ==> Over(r, end)
    {
      if entry.phase == CREATE {
        var created := CreateRemoteJob(end);
        if !created {
          return Stopped;
        }
      }
      if entry.phase == UPLOAD {
        var stop := UploadAll(end);
        if stop.Some? {
          return stop.value;
        }
      }
      r := SubmitAndRecord(end);
    }

    /**
     * Works through the document to its evidence, from whatever phase it is in: result, document and
     * unused outcomes are exactly those that the effects of the document lead to, one by one.
     */
    method Resume() returns (r: Result)
      requires At(Ready) && document == Some(entry) && EntryOk(entry) && entry.phase != EVIDENCE
      modifies this`document, this`entry, this`outcomes, this`events
      ensures Ending(r, document, outcomes) == Drive(old(entry), FirstPoint(old(entry)), old(outcomes))
      ensures r.Done? ==> At(Ready) && document == Some(entry) && entry.evidence == Some(r.evidence)
      ensures !r.Done? ==> At(Idle)
    {
      r := WorkThrough(Drive(entry, FirstPoint(entry), outcomes));
    }
  }

  /** One part more is recorded, and the loop is at the next. */
  lemma OneMore(e: Entry, i: nat, content: Bytes, reply: Reply)
    requires PointOk(e, Sending(i, content)) && Accepts(e, PartRequest(e, i, content), reply)
    ensures var next := Updated(e, PartRequest(e, i, content), reply);
      && |next.attachments| == |e.attachments|
      && Total(next.attachments[i]) == Total(e.attachments[i])
      && EntryOk(next) && UploadingAt(next, i) && i == Current(next.attachments)
      && NextPart(next.attachments[i], 1) == NextPart(e.attachments[i], 1) + 1
  {
    SentPartOk(e, i, content, reply);
    AtCurrent(e);
    RecordedPartOk(e.attachments[i], reply.etag);
    AtCurrent(Updated(e, PartRequest(e, i, content), reply));
  }
}
