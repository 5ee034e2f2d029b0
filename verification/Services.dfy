/** The service methods that update the file and import tables, each against the step it performs. */
module Services {
  import opened Common
  import opened Rows
  import opened Lifecycle
  import opened LifecycleInvariant
  import opened LifecycleAudit

  datatype SubmitOutcome =
    | SubmitNotFound
    | SubmitForbidden
    | SubmitIncomplete
    | SubmitAccepted(status: JobStatus, code: Option<ResultCode>, submittedAt: Option<int>)

  function AfterWrite(job: JobRow, write: Option<Evaluation>, now: int): JobRow {
    if write.None? then job else Transitioned(job, write.value, now)
  }

  function WriteRows(action: TransitionAction, j: nat, write: Option<Evaluation>): seq<AuditRow> {
    if write.None? then [] else [AuditRow(action, j, write.value.status, write.value.code)]
  }

  /** The row of a job after a reconcile of some file: only attached, waiting, decided jobs change. */
  function ReconciledRow(files: map<nat, FileRow>, job: JobRow, f: nat, now: int): JobRow
    requires AttachmentsKnown(files, job)
  {
    if f in FilesOf(job) then AfterWrite(job, ReconcileWrite(job, Observe(files, job)), now) else job
  }

  /** The file table after one undisturbed scan of f; only a QUARANTINED file is scanned. */
  function ScannedFiles(files: map<nat, FileRow>, f: nat, stored: Option<Bytes>, verdict: Option<Verdict>)
    : map<nat, FileRow>
  {
    if f !in files || files[f].state != Quarantined then files
    else
      var outcome := ScanOutcome(stored, files[f].sha256, verdict);
      files[f := ScanStored(ScanStarted(files[f]), Scanned(outcome.0, outcome.1))]
  }

  /** The row has the state and the result that this scan of it deserved. */
  predicate BearsOut(row: FileRow, stored: Option<Bytes>, verdict: Option<Verdict>) {
    row.scanResult.Some? && Deserved(stored, row.sha256, verdict, row.state, row.scanResult.value)
  }

  /** Waiting although its files decide it. */
  predicate Overdue(files: map<nat, FileRow>, job: JobRow) {
    job.status == JobScanning && AttachmentsKnown(files, job) && Decisive(job.base, Observe(files, job))
  }

  /** What a reconcile adds to the trail of a job. */
  function ReconciledTrail(before: JobRow, after: JobRow): seq<JobStatus> {
    if after.status == before.status then [] else [after.status]
  }

  /** The jobs of file f are reconciled, all but those still to do; the others are as they were. */
  ghost predicate ReconciledBut(files: map<nat, FileRow>, before: map<nat, JobRow>, after: map<nat, JobRow>, f: nat,
                                now: int, todo: set<nat>) {
    && after.Keys == before.Keys
    && (forall j :: j in before ==> AttachmentsKnown(files, before[j]))
    && (forall j :: j in before ==>
          after[j] == if j in todo then before[j] else ReconciledRow(files, before[j], f, now))
    && (forall j :: j in todo && j in before ==> f in FilesOf(before[j]))
  }

  lemma ReconciledOne(files: map<nat, FileRow>, before: map<nat, JobRow>, mid: map<nat, JobRow>,
                      after: map<nat, JobRow>, f: nat, now: int, todo: set<nat>, j: nat)
    requires ReconciledBut(files, before, mid, f, now, todo) && j in todo && j in before
    requires after == mid[j := ReconciledRow(files, before[j], f, now)]
    ensures ReconciledBut(files, before, after, f, now, todo - {j})
  {
  }

  lemma StillToDo(files: map<nat, FileRow>, before: map<nat, JobRow>, mid: map<nat, JobRow>, f: nat, now: int,
                  todo: set<nat>, j: nat)
    requires ReconciledBut(files, before, mid, f, now, todo) && j in todo && j in before
    ensures mid[j] == before[j] && f in FilesOf(mid[j])
  {
  }

  lemma AllReconciled(files: map<nat, FileRow>, before: map<nat, JobRow>, after: map<nat, JobRow>, f: nat, now: int)
    requires ReconciledBut(files, before, after, f, now, {})
    ensures after.Keys == before.Keys
    ensures forall j :: j in after ==>
              AttachmentsKnown(files, before[j]) && after[j] == ReconciledRow(files, before[j], f, now)
  {
  }

  /** The trail of each job has grown by its change of status and nothing else. */
  ghost predicate TrailsFollow(written: seq<AuditRow>, before: map<nat, JobRow>,
                               audit: seq<AuditRow>, after: map<nat, JobRow>) {
    && after.Keys == before.Keys
    && forall j :: j in before ==> Recorded(audit, j) == Recorded(written, j) + ReconciledTrail(before[j], after[j])
  }

  /** The trail of job j alone has grown. */
  ghost predicate TrailGrows(audit: seq<AuditRow>, more: seq<AuditRow>, j: nat, trail: seq<JobStatus>) {
    forall k :: Recorded(more, k) == Recorded(audit, k) + if k == j then trail else []
  }

  lemma TrailsOne(written: seq<AuditRow>, before: map<nat, JobRow>, audit: seq<AuditRow>, mid: map<nat, JobRow>,
                  more: seq<AuditRow>, after: map<nat, JobRow>, j: nat)
    requires TrailsFollow(written, before, audit, mid) && j in before && mid[j] == before[j]
    requires after.Keys == mid.Keys && (forall k :: k in mid && k != j ==> after[k] == mid[k])
    requires TrailGrows(audit, more, j, ReconciledTrail(mid[j], after[j]))
    ensures TrailsFollow(written, before, more, after)
  {
  }

  /** Rows were only added, and reconciles added them. */
  predicate OnlyReconciles(before: seq<AuditRow>, after: seq<AuditRow>) {
    before <= after && forall r :: r in after[|before|..] ==> r.action == ImportReconcile
  }

  lemma OnlyReconcilesFurther(x: seq<AuditRow>, y: seq<AuditRow>, z: seq<AuditRow>)
    requires OnlyReconciles(x, y) && OnlyReconciles(y, z)
    ensures OnlyReconciles(x, z)
  {
    assert z[|x|..] == y[|x|..] + z[|y|..];
  }

  lemma RecordedWrites(audit: seq<AuditRow>, j: nat, write: Option<Evaluation>)
    ensures forall k :: Recorded(audit + WriteRows(ImportReconcile, j, write), k)
                     == Recorded(audit, k) + if k == j && write.Some? then [write.value.status] else []
  {
    forall k ensures Recorded(audit + WriteRows(ImportReconcile, j, write), k)
                  == Recorded(audit, k) + if k == j && write.Some? then [write.value.status] else []
    {
      if write.Some? {
        RecordedAppend(audit, AuditRow(ImportReconcile, j, write.value.status, write.value.code), k);
      } else {
        assert audit + [] == audit;
      }
    }
  }

  class ImportTables {
    var files: map<nat, FileRow>
    var jobs: map<nat, JobRow>
    var audit: seq<AuditRow>
    var clock: int

    ghost predicate Valid()
      reads this
    {
      forall j :: j in jobs ==> RowOk(files, jobs[j])
    }

    // ----- FileScanService -----

    /** First transaction of a scan: claim the file, or learn that there is nothing to do. */
    method BeginScan(f: nat) returns (expected: Option<Digest<Bytes>>)
      modifies this`files
      ensures expected.Some? <==> f in old(files) && old(files)[f].state == Quarantined
      ensures expected.Some? ==>
                && expected.value == old(files)[f].sha256
                && files == old(files)[f := ScanStarted(old(files)[f])]
                && files[f].state == Scanning
      ensures expected.None? ==> files == old(files)
    {
      if f !in files || TerminalState(files[f].state) {
        return None;
      }
      if files[f].state != Quarantined {
        return None;
      }
      files := files[f := files[f].(state := Scanning)];
      expected := Some(files[f].sha256);
    }

    /** Second transaction: store the verdict unless the file has moved on; true when a delete is owed. */
    method CommitScan(f: nat, state: FileState, result: ScanResult) returns (owesDelete: bool)
      modifies this`files
      ensures f in old(files) && old(files)[f].state == Scanning ==>
                && files == old(files)[f := ScanStored(old(files)[f], Scanned(state, result))]
                && files[f].state == state && files[f].scanResult == Some(result)
                && (owesDelete <==> state == Infected || state == Failed)
      ensures !(f in old(files) && old(files)[f].state == Scanning) ==> files == old(files) && !owesDelete
    {
      if f !in files || files[f].state != Scanning {
        return false;
      }
      var row := files[f];
      row := row.(state := state);
      row := row.(scanResult := Some(result));
      files := files[f := row];
      owesDelete := state in {Infected, Failed};
    }

    /** One undisturbed scan: claim, stream and ask the scanner, store; true when a delete is owed. */
    method ScanFile(f: nat, stored: Option<Bytes>, verdict: Option<Verdict>) returns (owesDelete: bool)
      modifies this`files
      ensures files == ScannedFiles(old(files), f, stored, verdict)
      ensures f in old(files) && old(files)[f].state == Quarantined ==> BearsOut(files[f], stored, verdict)
      ensures owesDelete <==> files != old(files) && files[f].state in {Infected, Failed}
    {
      var expected := BeginScan(f);
      if expected.None? {
        return false;
      }
      var outcome := ScanOutcome(stored, expected.value, verdict);
      OutcomeIsDeserved(stored, expected.value, verdict);
      owesDelete := CommitScan(f, outcome.0, outcome.1);
    }

    /** The scan task: the scan and then the reconcile, which runs whatever the scan did. */
    method ExecuteFileScan(f: nat, stored: Option<Bytes>, verdict: Option<Verdict>) returns (owesDelete: bool)
      requires Valid()
      modifies this`files, this`jobs, this`audit
      ensures Valid() && jobs.Keys == old(jobs).Keys
      ensures files == ScannedFiles(old(files), f, stored, verdict)
      ensures f in old(files) && old(files)[f].state == Quarantined ==> BearsOut(files[f], stored, verdict)
      ensures forall j :: j in jobs && f in FilesOf(jobs[j]) ==> !Overdue(files, jobs[j])
      ensures forall j :: j in jobs && f !in FilesOf(old(jobs)[j]) ==> jobs[j] == old(jobs)[j]
    {
      owesDelete := ScanFile(f, stored, verdict);
      forall j | j in jobs ensures RowOk(files, jobs[j]) {
        assert RowOk(old(files), jobs[j]);
      }
      ghost var before := jobs;
      ReconcileFile(f);
      forall j | j in jobs && f in FilesOf(jobs[j]) ensures !Overdue(files, jobs[j]) {
        SettledStays(files, before[j], f, clock);
      }
    }

    // ----- FileService and StaleUploadService -----

    /** The row update of a completed upload, once storage reported the object's length. */
    method CompleteUpload(f: nat, length: nat) returns (mismatch: bool)
      requires f in files
      modifies this`files
      ensures old(files)[f].state != Uploading ==> files == old(files) && !mismatch
      ensures old(files)[f].state == Uploading ==>
                && files == old(files)[f := Completed(old(files)[f], length)]
                && (mismatch <==> length != old(files)[f].size)
                && (if mismatch then files[f].state == Failed && files[f].scanResult == Some(SizeMismatch)
                    else files[f].state == Quarantined)
    {
      var row := files[f];
      if row.state != Uploading {
        return false;
      }
      if length != row.size {
        row := row.(state := Failed);
        row := row.(scanResult := Some(SizeMismatch));
        files := files[f := row];
        return true;
      }
      row := row.(state := Quarantined);
      files := files[f := row];
      mismatch := false;
    }

    method ExpireOne(f: nat, cutoff: int) returns (expired: bool)
      modifies this`files
      ensures expired <==> f in old(files) && old(files)[f].state == Uploading && old(files)[f].createdAt < cutoff
      ensures files == if expired then old(files)[f := Expired(old(files)[f])] else old(files)
      ensures expired ==> files[f].state == Failed && files[f].scanResult == Some(UploadExpired)
    {
      if f !in files || files[f].state != Uploading {
        return false;
      }
      if files[f].createdAt >= cutoff {
        return false;
      }
      files := files[f := files[f].(state := Failed, scanResult := Some(UploadExpired))];
      expired := true;
    }

    // ----- ImportService -----

    method ApplyTransition(j: nat, evaluation: Evaluation, action: TransitionAction)
      requires j in jobs
      modifies this`jobs, this`audit
      ensures jobs == old(jobs)[j := Transitioned(old(jobs)[j], evaluation, clock)]
      ensures audit == old(audit) + [AuditRow(action, j, evaluation.status, evaluation.code)]
    {
      var now := clock;
      var job := jobs[j];
      job := job.(status := evaluation.status);
      job := job.(code := evaluation.code);
      if job.submittedAt.None? {
        job := job.(submittedAt := Some(now));
      }
      job := job.(updatedAt := now);
      jobs := jobs[j := job];
      audit := audit + [AuditRow(action, j, evaluation.status, evaluation.code)];
    }

    method Submit(j: nat, device: nat, permitted: bool) returns (outcome: SubmitOutcome)
      requires Valid()
      modifies this`jobs, this`audit
      ensures outcome == SubmitNotFound <==> !(j in old(jobs) && old(jobs)[j].device == device)
      ensures outcome == SubmitForbidden <==> j in old(jobs) && old(jobs)[j].device == device && !permitted
      ensures outcome == SubmitIncomplete <==>
                && j in old(jobs) && old(jobs)[j].device == device && permitted
                && old(jobs)[j].status == JobUploading
                && exists a :: a in old(jobs)[j].attachments && files[a.file].state == Uploading
      ensures !outcome.SubmitAccepted? ==> jobs == old(jobs) && audit == old(audit)
      ensures outcome.SubmitAccepted? ==>
                var write := SubmitWrite(old(jobs)[j], Observe(files, old(jobs)[j]));
                && jobs == old(jobs)[j := AfterWrite(old(jobs)[j], write, clock)]
                && audit == old(audit) + WriteRows(ImportSubmit, j, write)
                && outcome == SubmitAccepted(jobs[j].status, jobs[j].code, jobs[j].submittedAt)
                && outcome.status != JobUploading
                && (if TerminalStatus(old(jobs)[j].status) then jobs == old(jobs)
                    else jobs[j].status == EvaluateFiles(old(jobs)[j].base, Observe(files, old(jobs)[j])).status)
    {
      if j !in jobs || jobs[j].device != device {
        return SubmitNotFound;
      }
      if !permitted {
        return SubmitForbidden;
      }
      var job := jobs[j];
      if job.status == Received || job.status == Rejected || job.status == Conflict {
        return SubmitAccepted(job.status, job.code, job.submittedAt);
      }
      var observations := Observe(files, job);
      ghost var incomplete := exists o :: o in observations && o.state == Uploading;
      assert incomplete <==> exists a :: a in job.attachments && files[a.file].state == Uploading by {
        UploadingObserved(files, job);
      }
      if job.status == JobUploading && exists o :: o in observations && o.state == Uploading {
        return SubmitIncomplete;
      }
      var evaluation := EvaluateFiles(job.base, observations);
      if !(job.status == JobScanning && evaluation.status == JobScanning) {
        ApplyTransition(j, evaluation, ImportSubmit);
      }
      outcome := SubmitAccepted(jobs[j].status, jobs[j].code, jobs[j].submittedAt);
    }

    /** One job of the loop below, locked, looked at once and settled if its files decide it. */
    method ReconcileJob(j: nat, ghost f: nat)
      requires Valid() && j in jobs && f in FilesOf(jobs[j])
      modifies this`jobs, this`audit
      ensures Valid()
      ensures jobs == old(jobs)[j := ReconciledRow(files, old(jobs)[j], f, clock)]
      ensures TrailGrows(old(audit), audit, j, ReconciledTrail(old(jobs)[j], jobs[j]))
      ensures OnlyReconciles(old(audit), audit)
    {
      var job := jobs[j];
      RecordedWrites(audit, j, ReconcileWrite(job, Observe(files, job)));
      if job.status == JobScanning {
        var evaluation := EvaluateFiles(job.base, Observe(files, job));
        if evaluation.status != JobScanning {
          ApplyTransition(j, evaluation, ImportReconcile);
        }
      }
    }

    /** Settles every waiting job of one file that its files now decide; each leaves exactly its own audit row. */
    method ReconcileFile(f: nat)
      requires Valid()
      modifies this`jobs, this`audit
      ensures Valid() && jobs.Keys == old(jobs).Keys
      ensures forall j :: j in jobs ==> jobs[j] == ReconciledRow(files, old(jobs)[j], f, clock)
      ensures TrailsFollow(old(audit), old(jobs), audit, jobs)
      ensures OnlyReconciles(old(audit), audit)
    {
      var todo := set j | j in jobs && f in FilesOf(jobs[j]);
      ghost var was, written := jobs, audit;
      while todo != {}
        invariant Valid() && todo <= was.Keys
        invariant ReconciledBut(files, was, jobs, f, clock, todo)
        invariant TrailsFollow(written, was, audit, jobs)
        invariant OnlyReconciles(written, audit)
        decreases todo
      {
        var j :| j in todo;
        ReconcileNext(j, f, was, written, todo);
        todo := todo - {j};
      }
      AllReconciled(files, was, jobs, f, clock);
    }

    method ReconcileNext(j: nat, ghost f: nat, ghost was: map<nat, JobRow>, ghost written: seq<AuditRow>,
                         ghost todo: set<nat>)
      requires Valid() && j in todo && j in was
      requires ReconciledBut(files, was, jobs, f, clock, todo)
      requires TrailsFollow(written, was, audit, jobs) && OnlyReconciles(written, audit)
      modifies this`jobs, this`audit
      ensures Valid()
      ensures ReconciledBut(files, was, jobs, f, clock, todo - {j})
      ensures TrailsFollow(written, was, audit, jobs) && OnlyReconciles(written, audit)
    {
      ghost var before, rows := jobs, audit;
      StillToDo(files, was, before, f, clock, todo, j);
      ReconcileJob(j, f);
      ReconciledOne(files, was, before, jobs, f, clock, todo, j);
      TrailsOne(written, was, rows, before, audit, jobs, j);
      OnlyReconcilesFurther(written, rows, audit);
    }

    method ReconcileAttached(j: nat, f: nat)
      requires Valid() && j in jobs && f in FilesOf(jobs[j])
      modifies this`jobs, this`audit
      ensures Valid() && jobs.Keys == old(jobs).Keys
      ensures jobs[j] == AfterWrite(old(jobs)[j], ReconcileWrite(old(jobs)[j], Observe(files, old(jobs)[j])), clock)
    {
      ReconcileFile(f);
    }

    /** A device reading its own job settles it first, one reconcile per attached file. */
    method Read(j: nat, device: nat, permitted: bool) returns (view: Option<(JobStatus, Option<ResultCode>)>)
      requires Valid()
      modifies this`jobs, this`audit
      ensures Valid() && jobs.Keys == old(jobs).Keys
      ensures view.Some? <==> j in old(jobs) && old(jobs)[j].device == device && permitted
      ensures view.None? ==> jobs == old(jobs) && audit == old(audit)
      ensures view.Some? ==>
                && jobs[j] == AfterWrite(old(jobs)[j], ReconcileWrite(old(jobs)[j], Observe(files, old(jobs)[j])),
                                         clock)
                && view.value == (jobs[j].status, jobs[j].code)
                && !(jobs[j].status == JobScanning && Decisive(jobs[j].base, Observe(files, jobs[j])))
    {
      if j !in jobs || jobs[j].device != device || !permitted {
        return None;
      }
      var attachments := jobs[j].attachments;
      ghost var settled := AfterWrite(jobs[j], ReconcileWrite(jobs[j], Observe(files, jobs[j])), clock);
      for i := 0 to |attachments|
        invariant Valid() && jobs.Keys == old(jobs).Keys
        invariant jobs[j] == if i == 0 then old(jobs)[j] else settled
      {
        assert attachments[i] in jobs[j].attachments;
        SettledStays(files, old(jobs)[j], attachments[i].file, clock);
        ReconcileAttached(j, attachments[i].file);
      }
      view := Some((jobs[j].status, jobs[j].code));
      SettledStays(files, old(jobs)[j], attachments[0].file, clock);
    }
  }

  lemma UploadingObserved(files: map<nat, FileRow>, job: JobRow)
    requires AttachmentsKnown(files, job)
    ensures (exists o :: o in Observe(files, job) && o.state == Uploading)
       <==> (exists a :: a in job.attachments && files[a.file].state == Uploading)
  {
    var obs := Observe(files, job);
    if o :| o in obs && o.state == Uploading {
      var i :| 0 <= i < |obs| && obs[i] == o;
      assert job.attachments[i] in job.attachments;
    }
    if a :| a in job.attachments && files[a.file].state == Uploading {
      var i :| 0 <= i < |job.attachments| && job.attachments[i] == a;
      assert obs[i] in obs;
    }
  }

  /** A settled row has nothing left to settle. */
  lemma SettledStays(files: map<nat, FileRow>, job: JobRow, f: nat, now: int)
    requires AttachmentsKnown(files, job)
    ensures var settled := AfterWrite(job, ReconcileWrite(job, Observe(files, job)), now);
      && AttachmentsKnown(files, settled)
      && ReconciledRow(files, settled, f, now) == settled
      && !(settled.status == JobScanning && Decisive(settled.base, Observe(files, settled)))
  {
    var settled := AfterWrite(job, ReconcileWrite(job, Observe(files, job)), now);
    ObserveAgrees(files, job, settled);
    DecisiveIsJustified(job.base, Observe(files, job));
  }

  // ----- a method call is its transactions, run without interference -----

  lemma SubmitIsLockThenCommit(s: System, j: nat)
    requires JobsKnown(s) && j in s.jobs && j !in s.locks
    ensures var locked := Apply(s, LockForSubmit(j, true));
      && Enabled(locked, CommitJob(j)) && JobsKnown(locked)
      && var done := Apply(locked, CommitJob(j));
         var write := SubmitWrite(s.jobs[j], Observe(s.files, s.jobs[j]));
         done == s.(jobs := s.jobs[j := AfterWrite(s.jobs[j], write, s.clock)],
                    audit := s.audit + WriteRows(ImportSubmit, j, write))
  {
    var locked := Apply(s, LockForSubmit(j, true));
    assert JobsKnown(locked);
    assert locked.locks - {j} == s.locks;
  }

  lemma ReadIsLockThenCommit(s: System, j: nat)
    requires JobsKnown(s) && j in s.jobs && j !in s.locks
    ensures var locked := Apply(s, LockForReconcile(j, ByReader));
      && Enabled(locked, CommitJob(j)) && JobsKnown(locked)
      && var done := Apply(locked, CommitJob(j));
         var write := ReconcileWrite(s.jobs[j], Observe(s.files, s.jobs[j]));
         done == s.(jobs := s.jobs[j := AfterWrite(s.jobs[j], write, s.clock)],
                    audit := s.audit + WriteRows(ImportReconcile, j, write))
  {
    var locked := Apply(s, LockForReconcile(j, ByReader));
    assert JobsKnown(locked);
    assert locked.locks - {j} == s.locks;
  }
}
