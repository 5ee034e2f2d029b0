/** The file and import rows of the server and the decision the import service takes on them. */
module Rows {
  import opened Common

  datatype FileState = Uploading | Quarantined | Scanning | Clean | Infected | Failed

  datatype ScanResult = SizeMismatch | UploadExpired | ScanFailed | HashMismatch | NoThreat | Signature(name: string)

  datatype FileRow = FileRow(
    state: FileState,
    scanResult: Option<ScanResult>,
    size: nat,
    sha256: Digest<Bytes>,
    createdAt: int)

  datatype AttachmentKind = ORIGINAL | REVISED | K3_RAW

  datatype Attachment = Attachment(kind: AttachmentKind, file: nat)

  predicate AttachmentKindsDistinct(attachments: seq<Attachment>) {
    forall i, k :: 0 <= i < k < |attachments| ==> attachments[i].kind != attachments[k].kind
  }

  datatype JobStatus = JobUploading | JobScanning | Received | Rejected | Conflict

  datatype ResultCode = AttachmentInfected | AttachmentScanFailed | BaseSha256Mismatch

  datatype JobRow = JobRow(
    device: nat,
    key: nat,
    base: Option<Digest<Bytes>>,
    attachments: seq<Attachment>,
    status: JobStatus,
    code: Option<ResultCode>,
    submittedAt: Option<int>,
    createdAt: int,
    updatedAt: int)

  datatype Observation = Observation(kind: AttachmentKind, state: FileState, sha256: Digest<Bytes>)

  datatype Evaluation = Evaluation(status: JobStatus, code: Option<ResultCode>)

  predicate TerminalState(st: FileState) {
    st == Clean || st == Infected || st == Failed
  }

  predicate TerminalStatus(st: JobStatus) {
    st == Received || st == Rejected || st == Conflict
  }

  /** How far a file has travelled; the three verdicts are equally far. */
  function Rank(st: FileState): nat {
    match st
    case Uploading => 0
    case Quarantined => 1
    case Scanning => 2
    case _ => 3
  }

  function StatesOf(obs: seq<Observation>): set<FileState> {
    set o | o in obs :: o.state
  }

  function FirstOriginal(obs: seq<Observation>): Option<Observation> {
    if obs == [] then None
    else if obs[0].kind == ORIGINAL then Some(obs[0])
    else FirstOriginal(obs[1..])
  }

  function EvaluateFiles(base: Option<Digest<Bytes>>, obs: seq<Observation>): Evaluation {
    var states := StatesOf(obs);
    if Infected in states then
      Evaluation(Rejected, Some(AttachmentInfected))
    else if Failed in states then
      Evaluation(Rejected, Some(AttachmentScanFailed))
    else if obs == [] || states != {Clean} then
      Evaluation(JobScanning, None)
    else
      var original := FirstOriginal(obs);
      if base.Some? && original.Some? && original.value.sha256 != base.value then
        Evaluation(Conflict, Some(BaseSha256Mismatch))
      else
        Evaluation(Received, None)
  }

  predicate Decisive(base: Option<Digest<Bytes>>, obs: seq<Observation>) {
    EvaluateFiles(base, obs).status != JobScanning
  }

  /** What a state may become later: the same, or something strictly further; a verdict stays. */
  predicate Evolves(a: FileState, b: FileState) {
    a == b || (!TerminalState(a) && Rank(a) < Rank(b))
  }

  predicate ObservationsEvolve(xs: seq<Observation>, ys: seq<Observation>) {
    && |xs| == |ys|
    && forall i :: 0 <= i < |xs| ==>
         && ys[i].kind == xs[i].kind
         && ys[i].sha256 == xs[i].sha256
         && Evolves(xs[i].state, ys[i].state)
  }

  /** Every attachment is clean and the original, when one is declared, is the base document. */
  predicate Acceptable(base: Option<Digest<Bytes>>, obs: seq<Observation>) {
    && obs != []
    && (forall o :: o in obs ==> o.state == Clean)
    && (base.Some? ==> forall o :: o in obs && o.kind == ORIGINAL ==> o.sha256 == base.value)
  }

  predicate DistinctKinds(obs: seq<Observation>) {
    forall i, j :: 0 <= i < j < |obs| ==> obs[i].kind != obs[j].kind
  }

  lemma {:induction false} FirstOriginalFinds(obs: seq<Observation>)
    ensures FirstOriginal(obs).Some? ==> FirstOriginal(obs).value in obs && FirstOriginal(obs).value.kind == ORIGINAL
    ensures FirstOriginal(obs).None? ==> forall o :: o in obs ==> o.kind != ORIGINAL
  {
    if obs != [] && obs[0].kind != ORIGINAL {
      FirstOriginalFinds(obs[1..]);
      assert forall o :: o in obs ==> o == obs[0] || o in obs[1..];
    }
  }

  /** The decision in words: each status and code names exactly one situation of the attachments. */
  lemma EvaluationMeaning(base: Option<Digest<Bytes>>, obs: seq<Observation>)
    requires DistinctKinds(obs)
    ensures var e := EvaluateFiles(base, obs);
      && (e.status == Received <==> Acceptable(base, obs))
      && (e.status == Rejected <==> exists o :: o in obs && (o.state == Infected || o.state == Failed))
      && (e.status == Conflict <==>
            && obs != []
            && (forall o :: o in obs ==> o.state == Clean)
            && base.Some?
            && exists o :: o in obs && o.kind == ORIGINAL && o.sha256 != base.value)
      && (e.code == Some(AttachmentInfected) <==> exists o :: o in obs && o.state == Infected)
      && (e.code == Some(AttachmentScanFailed) ==> exists o :: o in obs && o.state == Failed)
      && (e.code == Some(BaseSha256Mismatch) <==> e.status == Conflict)
      && (e.code.None? <==> e.status == Received || e.status == JobScanning)
      && e.status != JobUploading
  {
    FirstOriginalFinds(obs);
    StatesMeaning(obs);
    var original := FirstOriginal(obs);
    if original.Some? {
      forall o | o in obs && o.kind == ORIGINAL ensures o == original.value {
        var i :| 0 <= i < |obs| && obs[i] == o;
        var k :| 0 <= k < |obs| && obs[k] == original.value;
        assert i == k;
      }
    }
  }

  lemma StatesMeaning(obs: seq<Observation>)
    ensures forall st :: st in StatesOf(obs) <==> exists o :: o in obs && o.state == st
    ensures obs != [] ==> (StatesOf(obs) == {Clean} <==> forall o :: o in obs ==> o.state == Clean)
  {
    assert forall o :: o in obs ==> o.state in StatesOf(obs);
    if obs != [] {
      assert obs[0] in obs;
      if forall o :: o in obs ==> o.state == Clean {
        assert StatesOf(obs) == {Clean};
      }
    }
  }

  /**
   * A final result that the attachments bear out: the status is the one they call for now, and a
   * rejection names a state that some attachment really has.
   */
  predicate Justified(base: Option<Digest<Bytes>>, e: Evaluation, obs: seq<Observation>) {
    && TerminalStatus(e.status)
    && EvaluateFiles(base, obs).status == e.status
    && match e.code
       case None => e.status == Received
       case Some(AttachmentInfected) => e.status == Rejected && Infected in StatesOf(obs)
       case Some(AttachmentScanFailed) => e.status == Rejected && Failed in StatesOf(obs)
       case Some(BaseSha256Mismatch) => e.status == Conflict
  }

  /** Once the attachments decide a job, no later state of theirs decides it differently. */
  lemma DecisionIsStable(base: Option<Digest<Bytes>>, e: Evaluation, xs: seq<Observation>, ys: seq<Observation>)
    requires ObservationsEvolve(xs, ys)
    requires Justified(base, e, xs)
    ensures Justified(base, e, ys)
  {
    StatesMeaning(xs);
    StatesMeaning(ys);
    if e.status == Rejected {
      var bad := if e.code == Some(AttachmentInfected) then Infected else Failed;
      var o :| o in xs && o.state == bad;
      var i :| 0 <= i < |xs| && xs[i] == o;
      assert ys[i] in ys && ys[i].state == bad;
    } else {
      forall i | 0 <= i < |xs| ensures xs[i] == ys[i] {
        assert xs[i] in xs;
      }
      assert xs == ys;
    }
  }

  lemma DecisiveIsJustified(base: Option<Digest<Bytes>>, obs: seq<Observation>)
    ensures Decisive(base, obs) <==> Justified(base, EvaluateFiles(base, obs), obs)
  {
  }
}
