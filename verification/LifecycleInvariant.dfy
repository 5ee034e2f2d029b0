/** What every transaction and every loss keeps. */
module LifecycleInvariant {
  import opened Common
  import opened Rows
  import opened Lifecycle

  // ----- the rows refer to each other correctly -----

  predicate RowOk(files: map<nat, FileRow>, job: JobRow) {
    AttachmentsKnown(files, job) && AttachmentKindsDistinct(job.attachments) && job.attachments != []
  }

  ghost predicate RowsInv(s: System) {
    && (forall j :: j in s.jobs ==> RowOk(s.files, s.jobs[j]))
    && (forall j :: j in s.locks ==> j in s.jobs)
  }

  // ----- files, scans and storage -----

  predicate KeptState(st: FileState) {
    st == Quarantined || st == Scanning || st == Clean
  }

  predicate DiscardedState(st: FileState) {
    st == Infected || st == Failed
  }

  /** An accepted upload is stored whole, and a clean one has the declared digest. */
  predicate FileStored(row: FileRow, stored: Option<Bytes>) {
    && (KeptState(row.state) ==> stored.Some? && |stored.value| == row.size)
    && (row.state == Clean ==> stored.Some? && Sha256(stored.value) == row.sha256)
  }

  ghost predicate StorageInv(s: System) {
    && (forall f :: f in s.files ==> FileStored(s.files[f], Stored(s, f)))
    && (forall f :: f in s.deletes ==> f in s.files && DiscardedState(s.files[f].state))
  }

  predicate Active(pc: Pc) {
    pc.ToScan? || pc.Scanned?
  }

  /** A delivery at work on a scan is the reason its file is SCANNING; one that owes a delete has a bad verdict. */
  predicate DeliveryOk(row: FileRow, stored: Option<Bytes>, streamed: bool, pc: Pc) {
    match pc
    case ToScan(expected) => row.state == Scanning && expected == row.sha256 && !streamed
    case Scanned(state, _) =>
      && row.state == Scanning
      && TerminalState(state)
      && (state == Clean ==> stored.Some? && Sha256(stored.value) == row.sha256)
    case OwesDelete => DiscardedState(row.state)
    case _ => true
  }

  predicate BothActive(x: Delivery, y: Delivery) {
    Active(x.pc) && Active(y.pc) && x.file == y.file
  }

  ghost predicate DeliveryInv(s: System) {
    forall d :: d in s.deliveries ==>
      && s.deliveries[d].file in s.files
      && DeliveryOk(s.files[s.deliveries[d].file], Stored(s, s.deliveries[d].file),
                    s.deliveries[d].file in s.scanLog, s.deliveries[d].pc)
  }

  /** One worker at a time per file, and the scanner is asked about a file at most once. */
  ghost predicate OneScanInv(s: System) {
    && (forall d, e :: d in s.deliveries && e in s.deliveries && BothActive(s.deliveries[d], s.deliveries[e]) ==>
          d == e)
    && (forall f :: f in s.scanLog ==> f in s.files && Rank(s.files[f].state) >= 2)
    && Distinct(s.scanLog)
  }

  ghost predicate ScanInv(s: System) {
    DeliveryInv(s) && OneScanInv(s)
  }

  // ----- jobs against the files they were decided on -----

  predicate NoneUploading(obs: seq<Observation>) {
    forall o :: o in obs ==> o.state != Uploading
  }

  /** Submitted means uploaded; final means borne out by the files; only a final job has a result code. */
  predicate JobOk(job: JobRow, obs: seq<Observation>) {
    && (job.status != JobUploading ==> NoneUploading(obs))
    && (if TerminalStatus(job.status) then Justified(job.base, Evaluation(job.status, job.code), obs)
        else job.code.None?)
  }

  ghost predicate JobInv(s: System)
    requires RowsInv(s)
  {
    && (forall j :: j in s.jobs ==> RowOk(s.files, s.jobs[j]) && JobOk(s.jobs[j], Observe(s.files, s.jobs[j])))
    && (forall j :: j in s.locks && s.locks[j].write.Some? ==>
          && RowOk(s.files, s.jobs[j])
          && WriteInv(s.jobs[j], s.locks[j].holder, s.locks[j].write.value, Observe(s.files, s.jobs[j])))
  }

  /** A pending write still agrees with the files, however they moved since the snapshot. */
  predicate WriteInv(job: JobRow, holder: Holder, write: Evaluation, obs: seq<Observation>) {
    && NoneUploading(obs)
    && !TerminalStatus(job.status)
    && (holder != ByDevice ==> job.status == JobScanning)
    && (write.status == JobScanning ==> holder == ByDevice && job.status == JobUploading && write.code == None)
    && (write.status != JobScanning ==> Justified(job.base, write, obs))
  }

  // ----- nobody forgets to look -----

  /** A delivery holds only jobs it still has to visit, so it lets go before it finishes. */
  ghost predicate HolderInv(s: System) {
    forall j :: j in s.locks && s.locks[j].holder.ByDelivery? ==>
      && s.locks[j].holder.id in s.deliveries
      && s.deliveries[s.locks[j].holder.id].pc.Reconciling?
      && j in s.deliveries[s.locks[j].holder.id].pc.todo
  }

  /** Waiting for the scans, or about to be left waiting by a submit that is committing. */
  predicate Waiting(s: System, j: nat) {
    && j in s.jobs
    && (s.jobs[j].status == JobScanning || (j in s.locks && s.locks[j].write == Some(Evaluation(JobScanning, None))))
  }

  predicate ReadyNow(s: System, j: nat) {
    && j in s.jobs
    && AttachmentsKnown(s.files, s.jobs[j])
    && Decisive(s.jobs[j].base, Observe(s.files, s.jobs[j]))
  }

  /** The steps that lie between the verdict on a file and the visit to its job j. */
  predicate BeforeVisit(pc: Pc, j: nat) {
    match pc
    case Queued => true
    case OwesDelete => true
    case OwesReconcile => true
    case Reconciling(todo) => j in todo
    case _ => false
  }

  /** Delivery d is past the verdict on one of j's files and has yet to look at j. */
  predicate Owes(s: System, d: nat, j: nat) {
    && d in s.deliveries && j in s.jobs
    && s.deliveries[d].file in FilesOf(s.jobs[j])
    && s.deliveries[d].file in s.files
    && TerminalState(s.files[s.deliveries[d].file].state)
    && BeforeVisit(s.deliveries[d].pc, j)
    && (j in s.locks && s.locks[j].holder == ByDelivery(d) ==> s.locks[j].write.Some?)
  }

  /** Some delivery still owes the reconcile of j, or one of j's deliveries was lost for good. */
  ghost predicate Owed(s: System, j: nat) {
    exists d :: Owes(s, d, j)
  }

  // ----- the audit trail and the time stamps -----

  /** The statuses the transition audit rows record for job j, oldest first. */
  function Recorded(audit: seq<AuditRow>, j: nat): seq<JobStatus> {
    if audit == [] then []
    else
      var rest := Recorded(audit[..|audit| - 1], j);
      if audit[|audit| - 1].job == j then rest + [audit[|audit| - 1].status] else rest
  }

  predicate HistoryShape(recorded: seq<JobStatus>, status: JobStatus) {
    || (recorded == [] && status == JobUploading)
    || (recorded == [JobScanning] && status == JobScanning)
    || (recorded == [status] && TerminalStatus(status))
    || (recorded == [JobScanning, status] && TerminalStatus(status))
  }

  /** The table's own checks: submission state, result state and time order. */
  predicate RowChecks(job: JobRow) {
    && (job.status == JobUploading <==> job.submittedAt.None?)
    && (job.status in {Rejected, Conflict} <==> job.code.Some?)
    && job.createdAt <= job.updatedAt
    && (job.submittedAt.Some? ==> job.createdAt <= job.submittedAt.value <= job.updatedAt)
  }

  /** The trail of a job ends in its present status, through an admissible sequence. */
  predicate JobRecorded(audit: seq<AuditRow>, j: nat, job: JobRow, now: int) {
    HistoryShape(Recorded(audit, j), job.status) && RowChecks(job) && job.updatedAt <= now
  }

  ghost predicate AuditInv(s: System) {
    && Distinct(s.audit)
    && (forall r :: r in s.audit ==> r.job in s.jobs)
    && (forall j :: j in s.jobs ==> JobRecorded(s.audit, j, s.jobs[j], s.clock))
  }

  ghost predicate Inv(s: System) {
    && RowsInv(s) && StorageInv(s) && ScanInv(s) && JobInv(s) && HolderInv(s) && AuditInv(s)
  }

  // ----- what a step may change -----

  predicate FileGrows(a: FileRow, b: FileRow) {
    && Evolves(a.state, b.state)
    && (TerminalState(a.state) ==> b == a)
    && b.size == a.size && b.sha256 == a.sha256 && b.createdAt == a.createdAt
  }

  predicate StatusGrows(a: JobStatus, b: JobStatus) {
    || a == b
    || a == JobUploading
    || (a == JobScanning && b != JobUploading)
  }

  predicate JobGrows(a: JobRow, b: JobRow) {
    && StatusGrows(a.status, b.status)
    && (TerminalStatus(a.status) ==> b == a)
    && (a.submittedAt.Some? ==> b.submittedAt == a.submittedAt)
    && b.device == a.device && b.key == a.key && b.base == a.base
    && b.attachments == a.attachments && b.createdAt == a.createdAt
  }

  /** Rows are never lost, travel only forwards, and stop at a verdict. */
  ghost predicate Grows(s: System, t: System) {
    && (forall f :: f in s.files ==> f in t.files && FileGrows(s.files[f], t.files[f]))
    && (forall j :: j in s.jobs ==> j in t.jobs && JobGrows(s.jobs[j], t.jobs[j]))
    && s.clock <= t.clock
  }

  lemma GrowsTransitive(s: System, t: System, u: System)
    requires Grows(s, t) && Grows(t, u)
    ensures Grows(s, u)
  {
    forall f | f in s.files ensures f in u.files && FileGrows(s.files[f], u.files[f]) {
      assert FileGrows(s.files[f], t.files[f]) && FileGrows(t.files[f], u.files[f]);
    }
    forall j | j in s.jobs ensures j in u.jobs && JobGrows(s.jobs[j], u.jobs[j]) {
      assert JobGrows(s.jobs[j], t.jobs[j]) && JobGrows(t.jobs[j], u.jobs[j]);
    }
  }

  lemma FilesGrow(s: System, a: Action)
    requires DeliveryInv(s) && Enabled(s, a)
    ensures forall f :: f in s.files ==> f in NextFiles(s, a) && FileGrows(s.files[f], NextFiles(s, a)[f])
  {
  }

  lemma JobsGrow(s: System, a: Action)
    requires RowsInv(s) && JobInv(s) && Enabled(s, a)
    ensures forall j :: j in s.jobs ==> j in NextJobs(s, a) && JobGrows(s.jobs[j], NextJobs(s, a)[j])
  {
    if !a.CommitJob? {
      JobsUntouched(s, a);
    } else if s.locks[a.j].write.Some? {
      var write := s.locks[a.j].write.value;
      WriteGrows(s.jobs[a.j], s.locks[a.j].holder, write, Observe(s.files, s.jobs[a.j]), s.clock);
    }
  }

  lemma JobsUntouched(s: System, a: Action)
    requires Enabled(s, a) && !a.CommitJob?
    ensures forall j :: j in s.jobs ==> j in NextJobs(s, a) && NextJobs(s, a)[j] == s.jobs[j]
  {
  }

  lemma WriteGrows(job: JobRow, holder: Holder, write: Evaluation, obs: seq<Observation>, now: int)
    requires WriteInv(job, holder, write, obs)
    ensures JobGrows(job, Transitioned(job, write, now))
  {
  }

  lemma ObservationsGrow(s: System, t: System, j: nat)
    requires Grows(s, t) && j in s.jobs
    requires AttachmentsKnown(s.files, s.jobs[j]) && AttachmentsKnown(t.files, t.jobs[j])
    ensures ObservationsEvolve(Observe(s.files, s.jobs[j]), Observe(t.files, t.jobs[j]))
  {
  }

  /** One step of the server moves what an existing job observes only forwards. */
  lemma ObservationsStep(s: System, a: Action, j: nat)
    requires JobsKnown(s) && DeliveryInv(s) && Enabled(s, a) && j in s.jobs
    ensures AttachmentsKnown(NextFiles(s, a), s.jobs[j])
    ensures ObservationsEvolve(Observe(s.files, s.jobs[j]), Observe(NextFiles(s, a), s.jobs[j]))
  {
    FilesGrow(s, a);
    assert AttachmentsKnown(s.files, s.jobs[j]);
  }

  lemma ObserveAgrees(files: map<nat, FileRow>, job: JobRow, other: JobRow)
    requires AttachmentsKnown(files, job) && other.attachments == job.attachments
    ensures Observe(files, other) == Observe(files, job)
  {
  }
}
