/** The connector and the server over whole runs: crashes, lost answers, late and repeated requests. */
module ResumeRuns {
  import opened Common
  import opened Rows
  import opened Parts
  import opened Outbox
  import opened OutboxProgress
  import opened OutboxRuns
  import L = Lifecycle
  import I = LifecycleInvariant
  import R = LifecycleRuns
  import opened Resume
  import opened ResumeInvariant
  import opened ResumeExchange
  import opened ResumeSteps
  import opened ResumeStorage

  ghost predicate Moves(x: Joint, m: Move, y: Joint) {
    L.JobsKnown(x.server) && Possible(x, m) && y == Next(x, m)
  }

  ghost predicate IsRun(states: seq<Joint>, moves: seq<Move>) {
    && |states| == |moves| + 1
    && states[0] == START
    && forall i :: 0 <= i < |moves| ==> Moves(states[i], moves[i], states[i + 1])
  }

  lemma StepKeepsInv(x: Joint, m: Move, y: Joint)
    requires Moves(x, m, y) && JointInv(x) && StorageHolds(x)
    ensures JointInv(y) && StorageHolds(y)
    ensures I.Grows(x.server, y.server)
  {
    JointStep(x, m);
    StorageHoldsStep(x, m);
  }

  ghost predicate Good(x: Joint) {
    JointInv(x) && StorageHolds(x)
  }

  lemma StartIsGood()
    ensures Good(START)
  {
  }

  lemma {:induction false} GoodAllAlong(states: seq<Joint>, i: nat)
    requires i < |states| && Good(states[0])
    requires forall k :: 0 <= k < i && Good(states[k]) ==> Good(states[k + 1])
    ensures Good(states[i])
  {
    if i > 0 {
      GoodAllAlong(states, i - 1);
    }
  }

  lemma ReachableInv(states: seq<Joint>, moves: seq<Move>, i: nat)
    requires IsRun(states, moves) && i < |states|
    ensures JointInv(states[i]) && StorageHolds(states[i])
  {
    StartIsGood();
    forall k | 0 <= k < i && Good(states[k]) ensures Good(states[k + 1]) {
      StepKeepsInv(states[k], moves[k], states[k + 1]);
    }
    GoodAllAlong(states, i);
  }

  lemma RunStepGrows(states: seq<Joint>, moves: seq<Move>, i: nat)
    requires IsRun(states, moves) && i < |moves|
    ensures I.Grows(states[i].server, states[i + 1].server)
  {
    ReachableInv(states, moves, i);
    StepKeepsInv(states[i], moves[i], states[i + 1]);
  }

  lemma {:induction false} ChainGrows(states: seq<Joint>, i: nat, k: nat)
    requires i <= k < |states|
    requires forall m :: i <= m < k ==> I.Grows(states[m].server, states[m + 1].server)
    ensures I.Grows(states[i].server, states[k].server)
    decreases k
  {
    if i == k {
      R.GrowsReflexive(states[i].server);
    } else {
      ChainGrows(states, i, k - 1);
      I.GrowsTransitive(states[i].server, states[k - 1].server, states[k].server);
    }
  }

  lemma RunGrows(states: seq<Joint>, moves: seq<Move>, i: nat, k: nat)
    requires IsRun(states, moves) && i <= k < |states|
    ensures I.Grows(states[i].server, states[k].server)
  {
    forall m | i <= m < k ensures I.Grows(states[m].server, states[m + 1].server) {
      RunStepGrows(states, moves, m);
    }
    ChainGrows(states, i, k);
  }

  /** A document bound to a job names the only job of that device and key, however often create was sent. */
  lemma OneJobPerDocument(states: seq<Joint>, moves: seq<Move>, i: nat)
    requires IsRun(states, moves) && i < |states|
    requires states[i].connector.disk.Some? && states[i].connector.disk.value.job.Some?
    ensures var x, e := states[i], states[i].connector.disk.value;
      && e.job.value in x.server.jobs
      && x.server.jobs[e.job.value].key == e.key
      && forall j :: JobOf(x, x.server.jobs[e.job.value].device, j) && x.server.jobs[j].key == e.key ==>
            j == e.job.value
  {
    ReachableInv(states, moves, i);
  }

  /** The job of a document was made from its package: base, kinds, sizes and digests as declared. */
  lemma JobIsThePackage(states: seq<Joint>, moves: seq<Move>, i: nat)
    requires IsRun(states, moves) && i < |states|
    requires states[i].connector.disk.Some? && states[i].connector.disk.value.job.Some?
    ensures var x, e := states[i], states[i].connector.disk.value;
      && e.job.value in x.server.jobs
      && Served(x.server.files, x.server.jobs[e.job.value], e.fingerprint.preimage)
  {
    ReachableInv(states, moves, i);
    var x, e := states[i], states[i].connector.disk.value;
    var job := x.server.jobs[e.job.value];
    forall k | 0 <= k < |e.attachments|
      ensures AttachmentAgrees(x.server, x.mine, job.attachments[k], e.attachments[k])
    {
    }
  }

  /** completed on disk means that the file has left UPLOADING, and stays so. */
  lemma CompletedHasLeftUploading(states: seq<Joint>, moves: seq<Move>, i: nat, k: nat, n: nat)
    requires IsRun(states, moves) && i <= k < |states|
    requires states[i].connector.disk.Some? && n < |states[i].connector.disk.value.attachments|
    requires states[i].connector.disk.value.attachments[n].completed
    ensures var f := states[i].connector.disk.value.attachments[n].remote;
      f.Some? && f.value in states[k].server.files && states[k].server.files[f.value].state != Uploading
  {
    ReachableInv(states, moves, i);
    RunGrows(states, moves, i, k);
    var x, e := states[i], states[i].connector.disk.value;
    assert e.attachments[n] in e.attachments;
    assert AttachmentAgrees(x.server, x.mine, x.server.jobs[e.job.value].attachments[n], e.attachments[n]);
    assert I.FileGrows(x.server.files[e.attachments[n].remote.value],
                       states[k].server.files[e.attachments[n].remote.value]);
  }

  /** Whenever the server gets round to a submit that was sent, it does not refuse it as incomplete. */
  lemma SubmitIsNeverIncomplete(states: seq<Joint>, moves: seq<Move>, i: nat, d: nat, j: nat)
    requires IsRun(states, moves) && i < |states| && Sent(d, SubmitJob(j)) in states[i].sent
    ensures j in states[i].server.jobs && L.AttachmentsKnown(states[i].server.files, states[i].server.jobs[j])
    ensures I.NoneUploading(L.Observe(states[i].server.files, states[i].server.jobs[j]))
  {
    ReachableInv(states, moves, i);
    var x := states[i];
    assert Sent(d, SubmitJob(j)) in x.sent && RequestOk(x.server, x.mine, SubmitJob(j));
    var obs := L.Observe(x.server.files, x.server.jobs[j]);
    forall o | o in obs ensures o.state != Uploading {
      var k :| 0 <= k < |obs| && obs[k] == o;
      assert x.server.jobs[j].attachments[k] in x.server.jobs[j].attachments;
    }
  }

  /** Final evidence on disk is the job's result, then and ever after. */
  lemma EvidenceIsFinal(states: seq<Joint>, moves: seq<Move>, i: nat, k: nat)
    requires IsRun(states, moves) && i <= k < |states|
    requires var d := states[i].connector.disk;
      d.Some? && d.value.evidence.Some? && TerminalStatus(d.value.evidence.value.status)
    ensures var evidence := states[i].connector.disk.value.evidence.value;
      && evidence.job in states[k].server.jobs
      && states[k].server.jobs[evidence.job].status == evidence.status
      && states[k].server.jobs[evidence.job].code == evidence.code
  {
    ReachableInv(states, moves, i);
    RunGrows(states, moves, i, k);
    var evidence := states[i].connector.disk.value.evidence.value;
    assert I.JobGrows(states[i].server.jobs[evidence.job], states[k].server.jobs[evidence.job]);
  }

  /**
   * However many runs the parts came from: as long as storage has the upload, a complete call that
   * was sent finds every part it names, and what it puts together is what was hashed at preparation.
   */
  lemma UploadsReassemble(states: seq<Joint>, moves: seq<Move>, i: nat, d: nat, request: Request)
    requires IsRun(states, moves) && i < |states| && Sent(d, request) in states[i].sent && request.CompleteFile?
    ensures var x := states[i];
      && request.file in x.server.files
      && 1 <= |request.parts| <= 13
      && (request.file in x.multipart ==>
            && PartsMatch(request.parts, x.multipart[request.file])
            && Assembled(request.parts, x.multipart[request.file]) == Original(x.server.files[request.file]))
  {
    ReachableInv(states, moves, i);
    var x := states[i];
    assert Sent(d, request) in x.sent && RequestOk(x.server, x.mine, request);
    var row := x.server.files[request.file];
    assert FileIntact(row, L.Stored(x.server, request.file));
    PartsReassemble(Original(row));
    if request.file in x.multipart {
      AllPartsMatch(x, d, request);
      AssemblyIsOriginal(row, request.parts, x.multipart[request.file]);
    }
  }

  lemma AllPartsMatch(x: Joint, d: nat, request: Request)
    requires MineInv(x) && StorageHolds(x)
    requires Sent(d, request) in x.sent && request.CompleteFile? && request.file in x.multipart
    requires request.file in x.server.files && NamesAll(x.server.files[request.file], request.parts)
    ensures PartsMatch(request.parts, x.multipart[request.file])
  {
    assert Sent(d, request).request == request;
    var row := x.server.files[request.file];
    var stored := x.multipart[request.file];
    assert HoldsRequested(x.multipart, request);
    forall p | p in request.parts ensures p.number in stored && p.etag == Sha256(stored[p.number]) {
      assert Holds(x.multipart, request.file, p.number);
      assert IsPiece(row, p) && IsPart(row, p.number, stored[p.number]);
    }
  }

  /** No upload of the connector ends as SIZE_MISMATCH or HASH_MISMATCH, and its object is the original. */
  lemma UploadsAreNeverBlamed(states: seq<Joint>, moves: seq<Move>, i: nat, j: nat, a: Attachment)
    requires IsRun(states, moves) && i < |states|
    requires OwnJob(states[i], j) && a in states[i].server.jobs[j].attachments
    ensures var s := states[i].server;
      && a.file in s.files
      && s.files[a.file].scanResult != Some(SizeMismatch)
      && s.files[a.file].scanResult != Some(HashMismatch)
      && (a.file in s.objects ==> s.objects[a.file] == Original(s.files[a.file]))
  {
    ReachableInv(states, moves, i);
    assert a.file in states[i].mine;
    assert FileIntact(states[i].server.files[a.file], L.Stored(states[i].server, a.file));
  }

  /** What the disk, the memory of the command and its requests look like, next to the real server. */
  lemma ProgressIsOrderly(states: seq<Joint>, moves: seq<Move>, i: nat)
    requires IsRun(states, moves) && i < |states|
    ensures var c := states[i].connector;
      && (c.pc.Saving? ==> May(c, Save))
      && (c.disk.Some? ==> EntryValid(c.disk.value) && Shaped(c.disk.value.attachments))
      && NoPutAfterComplete(c.issued)
  {
    ReachableInv(states, moves, i);
  }
}
