/**
 * The server as interleaved transactions. Each action is one committed transaction, one storage
 * call made outside a transaction, or one loss (a killed worker, a rolled-back transaction). A job
 * row stays locked from the snapshot of its files to the commit; file rows move meanwhile.
 */
module Lifecycle {
  import opened Common
  import opened Rows

  /** Where one delivery of the scan task stands: the next thing it has to do. */
  datatype Pc =
    | Queued
    | ToScan(expected: Digest<Bytes>)
    | Scanned(state: FileState, result: ScanResult)
    | OwesDelete
    | OwesReconcile
    | Reconciling(todo: set<nat>)

  datatype Delivery = Delivery(file: nat, pc: Pc)

  datatype Holder = ByDevice | ByDelivery(id: nat) | ByReader

  /** A transaction holding a job row: what it will write, computed from the snapshot it took. */
  datatype Txn = Txn(holder: Holder, write: Option<Evaluation>)

  datatype TransitionAction = ImportSubmit | ImportReconcile

  /** A transition audit row; its fields are the name its event key is derived from. */
  datatype AuditRow = AuditRow(action: TransitionAction, job: nat, status: JobStatus, code: Option<ResultCode>)

  datatype System = System(
    files: map<nat, FileRow>,
    jobs: map<nat, JobRow>,
    objects: map<nat, Bytes>,
    deliveries: map<nat, Delivery>,
    locks: map<nat, Txn>,
    deletes: set<nat>,
    scanLog: seq<nat>,
    audit: seq<AuditRow>,
    clock: int)

  datatype Verdict = VerdictClean | VerdictInfected(signature: string)

  datatype Action =
    | CreateFile(f: nat, size: nat, sha256: Digest<Bytes>)
    | CompleteLost(f: nat, content: Bytes)
    | Complete(f: nat, content: Bytes)
    | Expire(f: nat, cutoff: int)
    | DeleteObject(f: nat)
    | Enqueue(d: nat, f: nat)
    | BeginScan(d: nat)
    | StreamAndScan(d: nat, verdict: Option<Verdict>)
    | CommitScan(d: nat)
    | DeleteScanned(d: nat, deleted: bool)
    | FindJobs(d: nat)
    | FinishDelivery(d: nat)
    | KillDelivery(d: nat, redelivered: bool)
    | CreateJob(j: nat, device: nat, key: nat, base: Option<Digest<Bytes>>, attachments: seq<Attachment>)
    | LockForSubmit(j: nat, permitted: bool)
    | LockForReconcile(j: nat, holder: Holder)
    | CommitJob(j: nat)
    | RollbackJob(j: nat)
    | Tick(now: int)

  const INITIAL := System(map[], map[], map[], map[], map[], {}, [], [], 0)

  function FilesOf(job: JobRow): set<nat> {
    set a | a in job.attachments :: a.file
  }

  predicate AttachmentsKnown(files: map<nat, FileRow>, job: JobRow) {
    forall a :: a in job.attachments ==> a.file in files
  }

  ghost predicate JobsKnown(s: System) {
    forall j :: j in s.jobs ==> AttachmentsKnown(s.files, s.jobs[j])
  }

  /** One snapshot of the attachments of a job. */
  function Observe(files: map<nat, FileRow>, job: JobRow): (obs: seq<Observation>)
    requires AttachmentsKnown(files, job)
    ensures |obs| == |job.attachments|
    ensures forall i :: 0 <= i < |obs| ==>
              && job.attachments[i].file in files
              && obs[i] == Observation(job.attachments[i].kind,
                                       files[job.attachments[i].file].state,
                                       files[job.attachments[i].file].sha256)
  {
    seq(|job.attachments|, i requires 0 <= i < |job.attachments| =>
      assert job.attachments[i] in job.attachments;
      var file := files[job.attachments[i].file];
      Observation(job.attachments[i].kind, file.state, file.sha256))
  }

  function JobsOf(jobs: map<nat, JobRow>, f: nat): set<nat> {
    set j | j in jobs && f in FilesOf(jobs[j])
  }

  // ----- the transactions on rows -----

  function ScanStarted(row: FileRow): FileRow
    requires row.state == Quarantined
  {
    row.(state := Scanning)
  }

  function ScanStored(row: FileRow, pc: Pc): FileRow
    requires pc.Scanned?
  {
    row.(state := pc.state, scanResult := Some(pc.result))
  }

  /** What the worker decides after streaming the object and asking the scanner. */
  function ScanOutcome(stored: Option<Bytes>, expected: Digest<Bytes>, verdict: Option<Verdict>)
    : (FileState, ScanResult)
  {
    if stored.None? || verdict.None? then (Failed, ScanFailed)
    else if Sha256(stored.value) != expected then (Failed, HashMismatch)
    else match verdict.value
         case VerdictClean => (Clean, NoThreat)
         case VerdictInfected(signature) => (Infected, Signature(signature))
  }

  /** The object was there, whole and with the declared digest, and the scanner answered. */
  predicate Genuine(stored: Option<Bytes>, declared: Digest<Bytes>) {
    stored.Some? && Sha256(stored.value) == declared
  }

  /**
   * State and result that a scan must store: clean only on a clean answer, infected only on an answer
   * with that signature, both only for the declared bytes; everything else has failed, by its digest
   * when the scanner did answer.
   */
  predicate Deserved(stored: Option<Bytes>, declared: Digest<Bytes>, verdict: Option<Verdict>, st: FileState,
                     r: ScanResult) {
    && (st == Clean <==> Genuine(stored, declared) && verdict == Some(VerdictClean))
    && (st == Infected <==> Genuine(stored, declared) && verdict.Some? && verdict.value.VerdictInfected?)
    && (st == Failed <==> !Genuine(stored, declared) || verdict.None?)
    && (st == Clean <==> r == NoThreat)
    && (st == Infected ==> verdict.Some? && verdict.value.VerdictInfected? && r == Signature(verdict.value.signature))
    && (r == HashMismatch <==> stored.Some? && verdict.Some? && Sha256(stored.value) != declared)
    && (r == ScanFailed <==> stored.None? || verdict.None?)
  }

  lemma OutcomeIsDeserved(stored: Option<Bytes>, declared: Digest<Bytes>, verdict: Option<Verdict>)
    ensures var outcome := ScanOutcome(stored, declared, verdict);
      Deserved(stored, declared, verdict, outcome.0, outcome.1)
  {
  }

  function Completed(row: FileRow, length: nat): FileRow {
    if length != row.size then row.(state := Failed, scanResult := Some(SizeMismatch))
    else row.(state := Quarantined)
  }

  function Expired(row: FileRow): FileRow {
    row.(state := Failed, scanResult := Some(UploadExpired))
  }

  /** What submit writes; nothing when the job is final, incomplete or still undecided. */
  function SubmitWrite(job: JobRow, obs: seq<Observation>): Option<Evaluation> {
    if TerminalStatus(job.status) then None
    else if job.status == JobUploading && exists o :: o in obs && o.state == Uploading then None
    else
      var evaluation := EvaluateFiles(job.base, obs);
      if job.status == JobScanning && evaluation.status == JobScanning then None else Some(evaluation)
  }

  function ReconcileWrite(job: JobRow, obs: seq<Observation>): Option<Evaluation> {
    if job.status != JobScanning then None
    else
      var evaluation := EvaluateFiles(job.base, obs);
      if evaluation.status == JobScanning then None else Some(evaluation)
  }

  function Transitioned(job: JobRow, evaluation: Evaluation, now: int): JobRow {
    job.(status := evaluation.status,
         code := evaluation.code,
         submittedAt := if job.submittedAt.Some? then job.submittedAt else Some(now),
         updatedAt := now)
  }

  function ActionOf(holder: Holder): TransitionAction {
    if holder.ByDevice? then ImportSubmit else ImportReconcile
  }

  function Stored(s: System, f: nat): Option<Bytes> {
    if f in s.objects then Some(s.objects[f]) else None
  }

  /** The job of d's lock is done: d need not visit it again. */
  function Visited(deliveries: map<nat, Delivery>, holder: Holder, j: nat): map<nat, Delivery> {
    if holder.ByDelivery? && holder.id in deliveries && deliveries[holder.id].pc.Reconciling? then
      deliveries[holder.id := deliveries[holder.id].(pc := Reconciling(deliveries[holder.id].pc.todo - {j}))]
    else deliveries
  }

  function WithoutLocksOf(locks: map<nat, Txn>, d: nat): map<nat, Txn> {
    map j | j in locks && locks[j].holder != ByDelivery(d) :: locks[j]
  }

  // ----- the step relation -----

  predicate PcIs(s: System, d: nat) {
    d in s.deliveries && s.deliveries[d].file in s.files
  }

  /** A reader may visit any job; a delivery only those it found for its file. */
  predicate MayReconcile(s: System, j: nat, holder: Holder) {
    match holder
    case ByDevice => false
    case ByReader => true
    case ByDelivery(d) => PcIs(s, d) && s.deliveries[d].pc.Reconciling? && j in s.deliveries[d].pc.todo
  }

  predicate Enabled(s: System, a: Action) {
    match a
    case CreateFile(f, _, _) => f !in s.files && f !in s.objects
    case CompleteLost(f, _) => f in s.files && s.files[f].state == Uploading
    case Complete(f, _) => f in s.files && s.files[f].state == Uploading
    case Expire(f, cutoff) =>
      f in s.files && s.files[f].state == Uploading && s.files[f].createdAt < cutoff <= s.clock
    case DeleteObject(f) => f in s.deletes
    case Enqueue(d, f) => d !in s.deliveries && f in s.files
    case BeginScan(d) => PcIs(s, d) && s.deliveries[d].pc == Queued
    case StreamAndScan(d, _) => PcIs(s, d) && s.deliveries[d].pc.ToScan?
    case CommitScan(d) => PcIs(s, d) && s.deliveries[d].pc.Scanned?
    case DeleteScanned(d, _) => PcIs(s, d) && s.deliveries[d].pc == OwesDelete
    case FindJobs(d) => PcIs(s, d) && s.deliveries[d].pc == OwesReconcile
    case FinishDelivery(d) => PcIs(s, d) && s.deliveries[d].pc == Reconciling({})
    case KillDelivery(d, _) => PcIs(s, d)
    case CreateJob(j, device, key, _, attachments) =>
      && j !in s.jobs
      && (forall k :: k in s.jobs ==> !(s.jobs[k].device == device && s.jobs[k].key == key))
      && attachments != []
      && (forall i :: 0 <= i < |attachments| ==> attachments[i].file in s.files)
      && AttachmentKindsDistinct(attachments)
    case LockForSubmit(j, _) => j in s.jobs && j !in s.locks
    case LockForReconcile(j, holder) =>
      && j in s.jobs && j !in s.locks
      && MayReconcile(s, j, holder)
    case CommitJob(j) => j in s.locks && j in s.jobs
    case RollbackJob(j) => j in s.locks && !s.locks[j].holder.ByDelivery?
    case Tick(now) => s.clock <= now
  }

  // ----- what each action does to each table -----

  function NextFiles(s: System, a: Action): map<nat, FileRow>
    requires Enabled(s, a)
  {
    match a
    case CreateFile(f, size, sha256) => s.files[f := FileRow(Uploading, None, size, sha256, s.clock)]
    case Complete(f, content) => s.files[f := Completed(s.files[f], |content|)]
    case Expire(f, _) => s.files[f := Expired(s.files[f])]
    case BeginScan(d) =>
      var f := s.deliveries[d].file;
      if s.files[f].state == Quarantined then s.files[f := ScanStarted(s.files[f])] else s.files
    case CommitScan(d) =>
      var f := s.deliveries[d].file;
      if s.files[f].state == Scanning then s.files[f := ScanStored(s.files[f], s.deliveries[d].pc)] else s.files
    case _ => s.files
  }

  function NextObjects(s: System, a: Action): map<nat, Bytes>
    requires Enabled(s, a)
  {
    match a
    case CompleteLost(f, content) => s.objects[f := content]
    case Complete(f, content) => s.objects[f := content]
    case DeleteObject(f) => s.objects - {f}
    case DeleteScanned(d, deleted) => if deleted then s.objects - {s.deliveries[d].file} else s.objects
    case _ => s.objects
  }

  /** Deletes that the upload service still owes after its commit. */
  function NextDeletes(s: System, a: Action): set<nat>
    requires Enabled(s, a)
  {
    match a
    case Complete(f, content) => if |content| != s.files[f].size then s.deletes + {f} else s.deletes
    case Expire(f, _) => s.deletes + {f}
    case _ => s.deletes
  }

  /** Where a delivery goes after its own step; the scan and then the reconcile, in this order. */
  function NextPc(s: System, a: Action): Pc
    requires Enabled(s, a) && OwnStep(a)
  {
    var delivery := s.deliveries[a.d];
    var row := s.files[delivery.file];
    match a
    case BeginScan(_) => if row.state == Quarantined then ToScan(row.sha256) else OwesReconcile
    case StreamAndScan(_, verdict) =>
      var outcome := ScanOutcome(Stored(s, delivery.file), delivery.pc.expected, verdict);
      Scanned(outcome.0, outcome.1)
    case CommitScan(_) =>
      if row.state == Scanning && delivery.pc.state != Clean then OwesDelete else OwesReconcile
    case DeleteScanned(_, _) => OwesReconcile
    case FindJobs(_) => Reconciling(JobsOf(s.jobs, delivery.file))
    case _ => Queued
  }

  predicate OwnStep(a: Action) {
    a.BeginScan? || a.StreamAndScan? || a.CommitScan? || a.DeleteScanned? || a.FindJobs?
    || (a.KillDelivery? && a.redelivered)
  }

  function NextDeliveries(s: System, a: Action): map<nat, Delivery>
    requires Enabled(s, a)
  {
    if OwnStep(a) then s.deliveries[a.d := s.deliveries[a.d].(pc := NextPc(s, a))]
    else match a
      case Enqueue(d, f) => s.deliveries[d := Delivery(f, Queued)]
      case FinishDelivery(d) => s.deliveries - {d}
      case KillDelivery(d, _) => s.deliveries - {d}
      case CommitJob(j) => Visited(s.deliveries, s.locks[j].holder, j)
      case _ => s.deliveries
  }

  function NextLocks(s: System, a: Action): map<nat, Txn>
    requires Enabled(s, a)
    requires JobsKnown(s)
  {
    match a
    case LockForSubmit(j, permitted) =>
      s.locks[j := Txn(ByDevice,
                       if permitted then SubmitWrite(s.jobs[j], Observe(s.files, s.jobs[j])) else None)]
    case LockForReconcile(j, holder) =>
      s.locks[j := Txn(holder, ReconcileWrite(s.jobs[j], Observe(s.files, s.jobs[j])))]
    case CommitJob(j) => s.locks - {j}
    case RollbackJob(j) => s.locks - {j}
    case KillDelivery(d, _) => WithoutLocksOf(s.locks, d)
    case _ => s.locks
  }

  function NextJobs(s: System, a: Action): map<nat, JobRow>
    requires Enabled(s, a)
  {
    match a
    case CreateJob(j, device, key, base, attachments) =>
      s.jobs[j := JobRow(device, key, base, attachments, JobUploading, None, None, s.clock, s.clock)]
    case CommitJob(j) =>
      if s.locks[j].write.None? then s.jobs
      else s.jobs[j := Transitioned(s.jobs[j], s.locks[j].write.value, s.clock)]
    case _ => s.jobs
  }

  function NextAudit(s: System, a: Action): seq<AuditRow>
    requires Enabled(s, a)
  {
    if a.CommitJob? && s.locks[a.j].write.Some? then
      var write := s.locks[a.j].write.value;
      s.audit + [AuditRow(ActionOf(s.locks[a.j].holder), a.j, write.status, write.code)]
    else s.audit
  }

  function Apply(s: System, a: Action): System
    requires Enabled(s, a)
    requires JobsKnown(s)
  {
    System(
      NextFiles(s, a),
      NextJobs(s, a),
      NextObjects(s, a),
      NextDeliveries(s, a),
      NextLocks(s, a),
      NextDeletes(s, a),
      if a.StreamAndScan? then s.scanLog + [s.deliveries[a.d].file] else s.scanLog,
      NextAudit(s, a),
      if a.Tick? then a.now else s.clock)
  }
}
