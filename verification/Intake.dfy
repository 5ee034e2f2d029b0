/**
 * Concurrent creation of import jobs. A call looks for its job, starts one upload per attachment
 * (look, insert, provision) and persists the job (look, insert), each in its own transaction; other
 * calls run in between, and the tables' unique keys decide who inserts.
 */
module Intake {
  import opened Common
  import opened Rows
  import opened Keys

  datatype Declaration = Declaration(kind: AttachmentKind, upload: Upload)

  /** The validated manifest; rest stands for the fields that no upload carries. */
  datatype Manifest = Manifest(project: nat, rest: string, attachments: seq<Declaration>)

  datatype FileKey = FileKey(project: nat, device: string, childKey: Digest<string>)

  datatype FileRec = FileRec(id: nat, fingerprint: Digest<string>, creator: nat)

  datatype JobKey = JobKey(device: string, key: string)

  datatype JobRec = JobRec(id: nat, fingerprint: Digest<Manifest>, files: seq<nat>, creator: nat)

  datatype Stage =
    | LookForJob
    | LookForFile(ids: seq<nat>)
    | InsertFile(ids: seq<nat>)
    | Provision(ids: seq<nat>, id: nat)
    | LookAgain(ids: seq<nat>)
    | InsertJob(ids: seq<nat>)
    | Created(id: nat, ids: seq<nat>)
    | KeyConflict
    | Pending

  datatype Call = Call(device: string, key: string, manifest: Manifest, stage: Stage)

  datatype State = State(
    files: map<FileKey, FileRec>,
    jobs: map<JobKey, JobRec>,
    calls: map<nat, Call>,
    nextFile: nat,
    nextJob: nat)

  datatype Event = Start(c: nat, device: string, key: string, manifest: Manifest) | Advance(c: nat, provisioned: bool)

  const EMPTY := State(map[], map[], map[], 0, 0)

  predicate ValidManifest(m: Manifest) {
    && 1 <= |m.attachments| <= 3
    && (forall i, k :: 0 <= i < k < |m.attachments| ==> m.attachments[i].kind != m.attachments[k].kind)
    && forall i :: 0 <= i < |m.attachments| ==> ValidUpload(m.attachments[i].upload)
  }

  predicate ValidCall(call: Call) {
    NoControls(call.device) && ValidKey(call.key) && ValidManifest(call.manifest)
  }

  function JobKeyOf(call: Call): JobKey {
    JobKey(call.device, call.key)
  }

  function FileKeyOf(call: Call, i: nat): FileKey
    requires i < |call.manifest.attachments|
  {
    FileKey(call.manifest.project, call.device, ChildKey(call.device, call.key, call.manifest.attachments[i].kind))
  }

  function FingerprintOf(call: Call, i: nat): Digest<string>
    requires i < |call.manifest.attachments|
  {
    Fingerprint(call.manifest.attachments[i].upload)
  }

  predicate Enabled(s: State, e: Event) {
    match e
    case Start(c, device, key, manifest) => c !in s.calls && ValidCall(Call(device, key, manifest, LookForJob))
    case Advance(c, _) => c in s.calls
  }

  /** The answer for a key that is already bound to a job. */
  function Matching(call: Call, job: JobRec): Stage {
    if job.fingerprint != Sha256(call.manifest) then KeyConflict else Created(job.id, job.files)
  }

  /** What to do about an upload whose key is taken. */
  function Reuse(call: Call, ids: seq<nat>, file: FileRec): Stage
    requires |ids| < |call.manifest.attachments|
  {
    if file.fingerprint != FingerprintOf(call, |ids|) then KeyConflict else Provision(ids, file.id)
  }

  function AfterUpload(call: Call, ids: seq<nat>): Stage {
    if |ids| == |call.manifest.attachments| then LookAgain(ids) else LookForFile(ids)
  }

  predicate StageFits(call: Call) {
    match call.stage
    case LookForFile(ids) => |ids| < |call.manifest.attachments|
    case InsertFile(ids) => |ids| < |call.manifest.attachments|
    case Provision(ids, _) => |ids| < |call.manifest.attachments|
    case LookAgain(ids) => |ids| == |call.manifest.attachments|
    case InsertJob(ids) => |ids| == |call.manifest.attachments|
    case _ => true
  }

  /** The unique key on attachments.file_id. */
  predicate FileTaken(s: State, ids: seq<nat>) {
    exists k :: k in s.jobs && exists id :: id in ids && id in s.jobs[k].files
  }

  function SetStage(s: State, c: nat, stage: Stage): State
    requires c in s.calls
  {
    s.(calls := s.calls[c := s.calls[c].(stage := stage)])
  }

  function Apply(s: State, e: Event): State
    requires Enabled(s, e)
    requires e.Advance? ==> StageFits(s.calls[e.c])
  {
    match e
    case Start(c, device, key, manifest) =>
      s.(calls := s.calls[c := Call(device, key, manifest, LookForJob)])
    case Advance(c, provisioned) =>
      var call := s.calls[c];
      match call.stage
      case LookForJob =>
        SetStage(s, c, if JobKeyOf(call) in s.jobs then Matching(call, s.jobs[JobKeyOf(call)])
                       else AfterUpload(call, []))
      case LookForFile(ids) =>
        var k := FileKeyOf(call, |ids|);
        SetStage(s, c, if k in s.files then Reuse(call, ids, s.files[k]) else InsertFile(ids))
      case InsertFile(ids) =>
        var k := FileKeyOf(call, |ids|);
        if k in s.files then SetStage(s, c, Reuse(call, ids, s.files[k]))
        else
          SetStage(s, c, Provision(ids, s.nextFile)).(
            files := s.files[k := FileRec(s.nextFile, FingerprintOf(call, |ids|), c)],
            nextFile := s.nextFile + 1)
      case Provision(ids, id) =>
        SetStage(s, c, if provisioned then AfterUpload(call, ids + [id]) else Pending)
      case LookAgain(ids) =>
        SetStage(s, c, if JobKeyOf(call) in s.jobs then Matching(call, s.jobs[JobKeyOf(call)]) else InsertJob(ids))
      case InsertJob(ids) =>
        if JobKeyOf(call) in s.jobs then SetStage(s, c, Matching(call, s.jobs[JobKeyOf(call)]))
        else if FileTaken(s, ids) then SetStage(s, c, Pending)
        else
          SetStage(s, c, Created(s.nextJob, ids)).(
            jobs := s.jobs[JobKeyOf(call) := JobRec(s.nextJob, Sha256(call.manifest), ids, c)],
            nextJob := s.nextJob + 1)
      case Created(_, _) => s
      case KeyConflict => s
      case Pending => s
  }

  // ----- the invariant -----

  /** The i-th upload of a call is on file under its own key with what the call declares. */
  predicate Holds(s: State, call: Call, i: nat, id: nat) {
    && i < |call.manifest.attachments|
    && FileKeyOf(call, i) in s.files
    && s.files[FileKeyOf(call, i)].id == id
    && s.files[FileKeyOf(call, i)].fingerprint == FingerprintOf(call, i)
  }

  predicate HoldsAll(s: State, call: Call, ids: seq<nat>) {
    forall i :: 0 <= i < |ids| ==> Holds(s, call, i, ids[i])
  }

  /** Some other call under the same device and key declares another manifest. */
  ghost predicate Contended(s: State, call: Call) {
    exists d :: d in s.calls && SameKey(s.calls[d], call) && s.calls[d].manifest != call.manifest
  }

  predicate SameKey(x: Call, y: Call) {
    x.device == y.device && x.key == y.key
  }

  predicate Bound(s: State, call: Call, id: nat, ids: seq<nat>) {
    && JobKeyOf(call) in s.jobs
    && s.jobs[JobKeyOf(call)].id == id
    && s.jobs[JobKeyOf(call)].files == ids
    && s.jobs[JobKeyOf(call)].fingerprint == Sha256(call.manifest)
  }

  ghost predicate CallOk(s: State, call: Call) {
    && ValidCall(call) && StageFits(call)
    && match call.stage
       case LookForJob => true
       case LookForFile(ids) => HoldsAll(s, call, ids)
       case InsertFile(ids) => HoldsAll(s, call, ids)
       case Provision(ids, id) => HoldsAll(s, call, ids + [id])
       case LookAgain(ids) => HoldsAll(s, call, ids)
       case InsertJob(ids) => HoldsAll(s, call, ids)
       case Created(id, ids) => Bound(s, call, id, ids)
       case KeyConflict => Contended(s, call)
       case Pending => true
  }

  /** A file row was inserted by a call that declares it, under that call's key. */
  ghost predicate FileOk(s: State, k: FileKey) {
    && k in s.files
    && s.files[k].id < s.nextFile
    && s.files[k].creator in s.calls
    && exists i :: 0 <= i < |s.calls[s.files[k].creator].manifest.attachments|
         && FileKeyOf(s.calls[s.files[k].creator], i) == k
         && FingerprintOf(s.calls[s.files[k].creator], i) == s.files[k].fingerprint
  }

  /** A job row was inserted by a call with its manifest, over that call's own uploads. */
  predicate JobOk(s: State, k: JobKey) {
    && k in s.jobs
    && s.jobs[k].id < s.nextJob
    && s.jobs[k].creator in s.calls
    && var call := s.calls[s.jobs[k].creator];
       && JobKeyOf(call) == k
       && s.jobs[k].fingerprint == Sha256(call.manifest)
       && |s.jobs[k].files| == |call.manifest.attachments|
       && HoldsAll(s, call, s.jobs[k].files)
  }

  ghost predicate Inv(s: State) {
    && (forall c :: c in s.calls ==> CallOk(s, s.calls[c]))
    && (forall k :: k in s.files ==> FileOk(s, k))
    && (forall k, l :: k in s.files && l in s.files && s.files[k].id == s.files[l].id ==> k == l)
    && (forall k :: k in s.jobs ==> JobOk(s, k))
    && (forall k, l :: k in s.jobs && l in s.jobs && s.jobs[k].id == s.jobs[l].id ==> k == l)
  }

  /** Rows are only added, and a call keeps its request. */
  ghost predicate Extends(s: State, t: State) {
    && (forall k :: k in s.files ==> k in t.files && t.files[k] == s.files[k])
    && (forall k :: k in s.jobs ==> k in t.jobs && t.jobs[k] == s.jobs[k])
    && (forall c :: c in s.calls ==> c in t.calls && t.calls[c] == s.calls[c].(stage := t.calls[c].stage))
    && s.nextFile <= t.nextFile && s.nextJob <= t.nextJob
  }

  lemma StepExtends(s: State, e: Event)
    requires Enabled(s, e) && (e.Advance? ==> StageFits(s.calls[e.c]))
    ensures Extends(s, Apply(s, e))
  {
  }

  /** A key taken by a different declaration was taken under a different manifest of the same key. */
  lemma MismatchIsContention(s: State, call: Call, i: nat)
    requires ValidCall(call) && i < |call.manifest.attachments|
    requires FileKeyOf(call, i) in s.files && FileOk(s, FileKeyOf(call, i))
    requires CallOk(s, s.calls[s.files[FileKeyOf(call, i)].creator])
    requires s.files[FileKeyOf(call, i)].fingerprint != FingerprintOf(call, i)
    ensures Contended(s, call)
  {
    var k := FileKeyOf(call, i);
    var other := s.calls[s.files[k].creator];
    var m :| 0 <= m < |other.manifest.attachments|
      && FileKeyOf(other, m) == k && FingerprintOf(other, m) == s.files[k].fingerprint;
    ChildKeyInjective(call.device, call.key, call.manifest.attachments[i].kind,
                      other.device, other.key, other.manifest.attachments[m].kind);
    assert SameKey(other, call);
  }

  /** One file row serves at most one attachment of one key. */
  lemma FilesIdentifyCalls(s: State, x: Call, i: nat, y: Call, m: nat, id: nat)
    requires Inv(s) && ValidCall(x) && ValidCall(y)
    requires Holds(s, x, i, id) && Holds(s, y, m, id)
    ensures SameKey(x, y) && x.manifest.attachments[i].kind == y.manifest.attachments[m].kind
  {
    ChildKeyInjective(x.device, x.key, x.manifest.attachments[i].kind, y.device, y.key, y.manifest.attachments[m].kind);
  }
}
