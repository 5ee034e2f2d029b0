/** Properties of whole runs of the server, whatever the interleaving and whatever is lost. */
module LifecycleRuns {
  import opened Common
  import opened Rows
  import opened Lifecycle
  import opened LifecycleInvariant
  import opened LifecycleSteps
  import opened LifecycleWake
  import opened LifecycleAudit

  ghost predicate Step(s: System, a: Action, t: System) {
    JobsKnown(s) && Enabled(s, a) && t == Apply(s, a)
  }

  /** A run: states from the empty server, one action between neighbours. */
  ghost predicate IsRun(states: seq<System>, actions: seq<Action>) {
    && |states| == |actions| + 1
    && states[0] == INITIAL
    && forall i :: 0 <= i < |actions| ==> Step(states[i], actions[i], states[i + 1])
  }

  lemma StepKeepsInv(s: System, a: Action)
    requires Inv(s) && Enabled(s, a)
    ensures JobsKnown(s) && Inv(Apply(s, a)) && Grows(s, Apply(s, a))
  {
    assert JobsKnown(s);
    StepGrows(s, a);
    RowsStep(s, a);
    StorageStep(s, a);
    DeliveryStep(s, a);
    OneScanStep(s, a);
    JobStep(s, a);
    HolderStep(s, a);
    assert a.CommitJob? ==> JobOk(s.jobs[a.j], Observe(s.files, s.jobs[a.j]));
    AuditStep(s, a);
  }

  lemma {:induction false} ReachableInv(states: seq<System>, actions: seq<Action>, i: nat)
    requires IsRun(states, actions) && i < |states|
    ensures JobsKnown(states[i]) && Inv(states[i])
  {
    if i > 0 {
      ReachableInv(states, actions, i - 1);
      assert Step(states[i - 1], actions[i - 1], states[i]);
      StepKeepsInv(states[i - 1], actions[i - 1]);
    }
  }

  lemma RunStepGrows(states: seq<System>, actions: seq<Action>, i: nat)
    requires IsRun(states, actions) && i < |actions|
    ensures Grows(states[i], states[i + 1])
  {
    ReachableInv(states, actions, i);
    assert Step(states[i], actions[i], states[i + 1]);
    StepKeepsInv(states[i], actions[i]);
  }

  lemma GrowsReflexive(s: System)
    ensures Grows(s, s)
  {
  }

  lemma {:induction false} ChainGrows(states: seq<System>, i: nat, k: nat)
    requires i <= k < |states|
    requires forall m :: i <= m < k ==> Grows(states[m], states[m + 1])
    ensures Grows(states[i], states[k])
    decreases k
  {
    if i == k {
      GrowsReflexive(states[i]);
    } else {
      ChainGrows(states, i, k - 1);
      GrowsTransitive(states[i], states[k - 1], states[k]);
    }
  }

  /** Rows only ever move forwards; a verdict, a final status and a submission time are written once. */
  lemma RunGrows(states: seq<System>, actions: seq<Action>, i: nat, k: nat)
    requires IsRun(states, actions) && i <= k < |states|
    ensures Grows(states[i], states[k])
  {
    forall m | i <= m < k ensures Grows(states[m], states[m + 1]) {
      RunStepGrows(states, actions, m);
    }
    ChainGrows(states, i, k);
  }

  // ----- no lost wake-up -----

  /** In step k the last delivery that owed j was lost for good, and nobody has owed j since, up to state i. */
  ghost predicate LostSince(states: seq<System>, actions: seq<Action>, k: nat, i: nat, j: nat)
    requires k < i < |states| && |states| == |actions| + 1
  {
    LosesLast(states[k], actions[k], j) && forall m :: k < m <= i ==> !Owed(states[m], j)
  }

  /**
   * A job that waits although its files already decide it is owed a visit by some delivery past the
   * verdict on one of its files. The one exception is a loss: nobody owes it exactly when some step
   * lost the last delivery that did, and nobody has owed it since.
   */
  lemma {:induction false} UnowedMeansLost(states: seq<System>, actions: seq<Action>, i: nat, j: nat)
    requires IsRun(states, actions) && i < |states|
    requires Waiting(states[i], j) && ReadyNow(states[i], j)
    ensures !Owed(states[i], j) <==> exists k :: 0 <= k < i && LostSince(states, actions, k, i, j)
  {
    if !Owed(states[i], j) {
      assert i > 0;
      UnowedBefore(states, actions, i - 1, j);
      if LosesLast(states[i - 1], actions[i - 1], j) {
        assert LostSince(states, actions, i - 1, i, j);
      } else {
        UnowedMeansLost(states, actions, i - 1, j);
        var k :| 0 <= k < i - 1 && LostSince(states, actions, k, i - 1, j);
        assert LostSince(states, actions, k, i, j);
      }
    }
  }

  lemma UnowedBefore(states: seq<System>, actions: seq<Action>, i: nat, j: nat)
    requires IsRun(states, actions) && i < |actions|
    requires Waiting(states[i + 1], j) && ReadyNow(states[i + 1], j) && !Owed(states[i + 1], j)
    ensures LosesLast(states[i], actions[i], j) ||
            (Waiting(states[i], j) && ReadyNow(states[i], j) && !Owed(states[i], j))
  {
    assert Step(states[i], actions[i], states[i + 1]);
    ReachableInv(states, actions, i);
    ReachableInv(states, actions, i + 1);
    if !LosesLast(states[i], actions[i], j) {
      WakeStepBack(states[i], actions[i], j);
    }
  }

  lemma WakeStepBack(s: System, a: Action, j: nat)
    requires Inv(s) && Enabled(s, a) && JobsKnown(s) && RowsInv(Apply(s, a))
    requires Waiting(Apply(s, a), j) && ReadyNow(Apply(s, a), j)
    requires !Owed(Apply(s, a), j) && !LosesLast(s, a, j)
    ensures Waiting(s, j) && ReadyNow(s, j) && !Owed(s, j)
  {
    if !(Waiting(s, j) && ReadyNow(s, j) && !Owed(s, j)) {
      WakeStep(s, a, j);
      assert false;
    }
  }

  /** As long as no step loses the last delivery that owes job j, no wake-up of j is lost. */
  lemma NoLostWakeUp(states: seq<System>, actions: seq<Action>, i: nat, j: nat)
    requires IsRun(states, actions) && i < |states|
    requires forall k :: 0 <= k < i ==> !LosesLast(states[k], actions[k], j)
    requires Waiting(states[i], j) && ReadyNow(states[i], j)
    ensures exists d :: Owes(states[i], d, j)
  {
    UnowedMeansLost(states, actions, i, j);
  }

  /** From k to m the lock on job j is neither committed nor given up. */
  predicate HeldThroughout(actions: seq<Action>, j: nat, holder: Holder, k: nat, m: nat) {
    forall i :: k <= i < m && i < |actions| ==>
      && actions[i] != CommitJob(j)
      && actions[i] != RollbackJob(j)
      && !(holder.ByDelivery? && actions[i].KillDelivery? && actions[i].d == holder.id)
  }

  lemma {:induction false} LockKept(states: seq<System>, actions: seq<Action>, j: nat, txn: Txn, k: nat, m: nat)
    requires IsRun(states, actions) && k <= m < |states|
    requires j in states[k].locks && states[k].locks[j] == txn
    requires HeldThroughout(actions, j, txn.holder, k, m)
    ensures j in states[m].locks && states[m].locks[j] == txn
    decreases m
  {
    if k < m {
      LockKept(states, actions, j, txn, k, m - 1);
      assert Step(states[m - 1], actions[m - 1], states[m]);
    }
  }

  /**
   * One visit settles a decided job: whoever locks it for a reconcile at or after the moment its
   * files decide it (a worker or a device reading it) leaves it final, with that decision, for ever.
   */
  lemma VisitSettles(states: seq<System>, actions: seq<Action>, j: nat, holder: Holder, i: nat, k: nat, m: nat, n: nat)
    requires IsRun(states, actions) && i <= k < m < |actions| && m < n < |states|
    requires j in states[i].jobs && states[i].jobs[j].status == JobScanning && ReadyNow(states[i], j)
    requires actions[k] == LockForReconcile(j, holder) && actions[m] == CommitJob(j)
    requires HeldThroughout(actions, j, holder, k + 1, m)
    ensures j in states[n].jobs
    ensures states[n].jobs[j].status ==
              EvaluateFiles(states[i].jobs[j].base, Observe(states[i].files, states[i].jobs[j])).status
    ensures TerminalStatus(states[n].jobs[j].status)
  {
    JobKept(states, actions, j, i, k);
    DecisionLasts(states, actions, j, i, k);
    VisitCommits(states, actions, j, holder, k, m);
    JobKept(states, actions, j, m + 1, n);
    DecisionLasts(states, actions, j, i, n);
    FinalStatusFollowsFiles(states, actions, n, j);
  }

  lemma JobKept(states: seq<System>, actions: seq<Action>, j: nat, i: nat, k: nat)
    requires IsRun(states, actions) && i <= k < |states| && j in states[i].jobs
    ensures j in states[k].jobs && JobGrows(states[i].jobs[j], states[k].jobs[j])
  {
    RunGrows(states, actions, i, k);
  }

  /** A reconcile that found a submitted job decided leaves it final when it commits. */
  lemma VisitCommits(states: seq<System>, actions: seq<Action>, j: nat, holder: Holder, k: nat, m: nat)
    requires IsRun(states, actions) && k < m < |actions|
    requires j in states[k].jobs && states[k].jobs[j].status != JobUploading && ReadyNow(states[k], j)
    requires actions[k] == LockForReconcile(j, holder) && actions[m] == CommitJob(j)
    requires HeldThroughout(actions, j, holder, k + 1, m)
    ensures j in states[m + 1].jobs && TerminalStatus(states[m + 1].jobs[j].status)
  {
    assert Step(states[k], actions[k], states[k + 1]);
    var txn := Txn(holder, ReconcileWrite(states[k].jobs[j], Observe(states[k].files, states[k].jobs[j])));
    LockKept(states, actions, j, txn, k + 1, m);
    JobKept(states, actions, j, k, m);
    DecisiveIsJustified(states[k].jobs[j].base, Observe(states[k].files, states[k].jobs[j]));
    assert Step(states[m], actions[m], states[m + 1]);
  }

  /**
   * One accepted submit is enough, too: of a job whose uploads are over and whose files decide it, new,
   * waiting or final, it leaves the job final with that decision for ever.
   */
  lemma SubmitSettles(states: seq<System>, actions: seq<Action>, j: nat, k: nat, m: nat, n: nat)
    requires IsRun(states, actions) && k < m < |actions| && m < n < |states|
    requires ReadyNow(states[k], j) && NoneUploading(Observe(states[k].files, states[k].jobs[j]))
    requires actions[k] == LockForSubmit(j, true) && actions[m] == CommitJob(j)
    requires HeldThroughout(actions, j, ByDevice, k + 1, m)
    ensures j in states[n].jobs
    ensures states[n].jobs[j].status ==
              EvaluateFiles(states[k].jobs[j].base, Observe(states[k].files, states[k].jobs[j])).status
    ensures TerminalStatus(states[n].jobs[j].status)
  {
    SubmitCommits(states, actions, j, k, m);
    JobKept(states, actions, j, m + 1, n);
    DecisionLasts(states, actions, j, k, n);
    FinalStatusFollowsFiles(states, actions, n, j);
  }

  lemma SubmitCommits(states: seq<System>, actions: seq<Action>, j: nat, k: nat, m: nat)
    requires IsRun(states, actions) && k < m < |actions|
    requires ReadyNow(states[k], j) && NoneUploading(Observe(states[k].files, states[k].jobs[j]))
    requires actions[k] == LockForSubmit(j, true) && actions[m] == CommitJob(j)
    requires HeldThroughout(actions, j, ByDevice, k + 1, m)
    ensures j in states[m + 1].jobs && TerminalStatus(states[m + 1].jobs[j].status)
  {
    assert Step(states[k], actions[k], states[k + 1]);
    var txn := Txn(ByDevice, SubmitWrite(states[k].jobs[j], Observe(states[k].files, states[k].jobs[j])));
    LockKept(states, actions, j, txn, k + 1, m);
    JobKept(states, actions, j, k, m);
    DecisiveIsJustified(states[k].jobs[j].base, Observe(states[k].files, states[k].jobs[j]));
    assert Step(states[m], actions[m], states[m + 1]);
  }

  // ----- confluence -----

  lemma DecisionLasts(states: seq<System>, actions: seq<Action>, j: nat, i: nat, k: nat)
    requires IsRun(states, actions) && i <= k < |states|
    requires j in states[i].jobs && ReadyNow(states[i], j)
    ensures ReadyNow(states[k], j)
    ensures EvaluateFiles(states[k].jobs[j].base, Observe(states[k].files, states[k].jobs[j])).status
         == EvaluateFiles(states[i].jobs[j].base, Observe(states[i].files, states[i].jobs[j])).status
  {
    RunGrows(states, actions, i, k);
    ReachableInv(states, actions, k);
    assert JobGrows(states[i].jobs[j], states[k].jobs[j]);
    assert RowOk(states[k].files, states[k].jobs[j]);
    ObservationsGrow(states[i], states[k], j);
    var obs := Observe(states[i].files, states[i].jobs[j]);
    var base := states[i].jobs[j].base;
    DecisiveIsJustified(base, obs);
    DecisionIsStable(base, EvaluateFiles(base, obs), obs, Observe(states[k].files, states[k].jobs[j]));
  }

  /** A final status is the one the present files call for, and a rejection code names a state really present. */
  lemma FinalStatusFollowsFiles(states: seq<System>, actions: seq<Action>, i: nat, j: nat)
    requires IsRun(states, actions) && i < |states|
    requires j in states[i].jobs && TerminalStatus(states[i].jobs[j].status)
    ensures AttachmentsKnown(states[i].files, states[i].jobs[j])
    ensures Justified(states[i].jobs[j].base, Evaluation(states[i].jobs[j].status, states[i].jobs[j].code),
                      Observe(states[i].files, states[i].jobs[j]))
  {
    ReachableInv(states, actions, i);
    assert RowOk(states[i].files, states[i].jobs[j]);
    assert JobOk(states[i].jobs[j], Observe(states[i].files, states[i].jobs[j]));
  }

  /**
   * Any two final jobs, in any states of any two runs, that saw the same declared base and the same
   * kinds, states and digests have the same status, whatever scanned, submitted or read in which order.
   */
  lemma OrderDoesNotMatter(
      xs: seq<System>, xActions: seq<Action>, i: nat, j: nat,
      ys: seq<System>, yActions: seq<Action>, k: nat, m: nat)
    requires IsRun(xs, xActions) && i < |xs| && j in xs[i].jobs && TerminalStatus(xs[i].jobs[j].status)
    requires IsRun(ys, yActions) && k < |ys| && m in ys[k].jobs && TerminalStatus(ys[k].jobs[m].status)
    requires xs[i].jobs[j].base == ys[k].jobs[m].base
    ensures AttachmentsKnown(xs[i].files, xs[i].jobs[j]) && AttachmentsKnown(ys[k].files, ys[k].jobs[m])
    ensures Observe(xs[i].files, xs[i].jobs[j]) == Observe(ys[k].files, ys[k].jobs[m]) ==>
              xs[i].jobs[j].status == ys[k].jobs[m].status
  {
    FinalStatusFollowsFiles(xs, xActions, i, j);
    FinalStatusFollowsFiles(ys, yActions, k, m);
  }

  // ----- RECEIVED is truthful -----

  /** Everything a RECEIVED status claims about one attachment. */
  predicate Delivered(s: System, a: Attachment) {
    && a.file in s.files
    && s.files[a.file].state == Clean
    && a.file in s.objects
    && |s.objects[a.file]| == s.files[a.file].size
    && Sha256(s.objects[a.file]) == s.files[a.file].sha256
  }

  /**
   * Every attachment of a RECEIVED job is CLEAN and in storage, whole and with the declared digest,
   * and a declared base document is the ORIGINAL; no delete that runs after its commit undoes it.
   */
  lemma ReceivedIsTruthful(states: seq<System>, actions: seq<Action>, i: nat, j: nat)
    requires IsRun(states, actions) && i < |states|
    requires j in states[i].jobs && states[i].jobs[j].status == Received
    ensures var s, job := states[i], states[i].jobs[j];
      && job.attachments != []
      && (forall a :: a in job.attachments ==> Delivered(s, a))
      && (job.base.Some? ==>
            forall a :: a in job.attachments && a.kind == ORIGINAL ==> s.files[a.file].sha256 == job.base.value)
  {
    var s, job := states[i], states[i].jobs[j];
    ReachableInv(states, actions, i);
    FinalStatusFollowsFiles(states, actions, i, j);
    assert RowOk(s.files, job);
    var obs := Observe(s.files, job);
    EvaluationMeaning(job.base, obs);
    forall a | a in job.attachments
      ensures Delivered(s, a)
      ensures job.base.Some? && a.kind == ORIGINAL ==> s.files[a.file].sha256 == job.base.value
    {
      var k :| 0 <= k < |job.attachments| && job.attachments[k] == a;
      assert obs[k] in obs;
      assert FileStored(s.files[a.file], Stored(s, a.file));
    }
  }

  // ----- one scan per file -----

  /** However often a file is delivered, the scanner is asked once, and its verdict is never overwritten. */
  lemma ScannedOnce(states: seq<System>, actions: seq<Action>, i: nat, k: nat, f: nat)
    requires IsRun(states, actions) && i <= k < |states|
    requires f in states[i].files
    ensures Distinct(states[k].scanLog)
    ensures f in states[k].files && Evolves(states[i].files[f].state, states[k].files[f].state)
    ensures TerminalState(states[i].files[f].state) ==> states[k].files[f] == states[i].files[f]
  {
    ReachableInv(states, actions, k);
    RunGrows(states, actions, i, k);
    assert FileGrows(states[i].files[f], states[k].files[f]);
  }

  // ----- job history -----

  /** The statuses job j went through in the first n states, each written once. */
  ghost function Trace(states: seq<System>, j: nat, n: nat): seq<JobStatus>
    requires n <= |states|
  {
    if n == 0 then []
    else
      var before := Trace(states, j, n - 1);
      if j !in states[n - 1].jobs then before
      else
        var status := states[n - 1].jobs[j].status;
        if before != [] && before[|before| - 1] == status then before else before + [status]
  }

  /** One step either leaves job j's trail and status alone, creates it, or appends its new status to both. */
  lemma StepTrail(s: System, a: Action, j: nat)
    requires JobsKnown(s) && Enabled(s, a) && j in Apply(s, a).jobs
    ensures j !in s.jobs ==> Apply(s, a).jobs[j].status == JobUploading && Apply(s, a).audit == s.audit
    ensures j in s.jobs ==>
              var before, after := Recorded(s.audit, j), Recorded(Apply(s, a).audit, j);
              if a == CommitJob(j) && s.locks[j].write.Some? then after == before + [Apply(s, a).jobs[j].status]
              else after == before && Apply(s, a).jobs[j] == s.jobs[j]
  {
    if a.CommitJob? && s.locks[a.j].write.Some? {
      var write := s.locks[a.j].write.value;
      RecordedAppend(s.audit, AuditRow(ActionOf(s.locks[a.j].holder), a.j, write.status, write.code), j);
    }
  }

  predicate TrailEndsIn(trace: seq<JobStatus>, recorded: seq<JobStatus>, status: JobStatus) {
    trace == [JobUploading] + recorded && trace[|trace| - 1] == status
  }

  /** How job j's trail and status move in step i of a run. */
  ghost predicate TrailMoves(s: System, t: System, j: nat) {
    if j !in s.jobs then
      && Recorded(s.audit, j) == []
      && (j in t.jobs ==> t.jobs[j].status == JobUploading && Recorded(t.audit, j) == [])
    else
      && j in t.jobs
      && if t.jobs[j].status == s.jobs[j].status then Recorded(t.audit, j) == Recorded(s.audit, j)
         else Recorded(t.audit, j) == Recorded(s.audit, j) + [t.jobs[j].status]
  }

  lemma RunStepTrail(states: seq<System>, actions: seq<Action>, i: nat, j: nat)
    requires IsRun(states, actions) && i < |actions|
    ensures TrailMoves(states[i], states[i + 1], j)
  {
    ReachableInv(states, actions, i);
    assert Step(states[i], actions[i], states[i + 1]);
    RecordedHas(states[i].audit, j);
    if j in states[i + 1].jobs {
      StepTrail(states[i], actions[i], j);
    }
  }

  lemma {:induction false} TraceIsTrail(states: seq<System>, actions: seq<Action>, j: nat, n: nat)
    requires IsRun(states, actions) && 0 < n <= |states|
    ensures if j in states[n - 1].jobs
            then TrailEndsIn(Trace(states, j, n), Recorded(states[n - 1].audit, j), states[n - 1].jobs[j].status)
            else Trace(states, j, n) == []
  {
    if n == 1 {
      assert Trace(states, j, 0) == [];
    } else {
      TraceIsTrail(states, actions, j, n - 1);
      RunStepTrail(states, actions, n - 2, j);
    }
  }

  /**
   * The statuses a job really takes are UPLOADING followed by exactly what its audit rows say, those
   * rows have distinct event keys, and the row meets the table's checks.
   */
  lemma HistoryIsAudited(states: seq<System>, actions: seq<Action>, j: nat, n: nat)
    requires IsRun(states, actions) && 0 < n <= |states| && j in states[n - 1].jobs
    ensures Trace(states, j, n) == [JobUploading] + Recorded(states[n - 1].audit, j)
    ensures HistoryShape(Recorded(states[n - 1].audit, j), states[n - 1].jobs[j].status)
    ensures RowChecks(states[n - 1].jobs[j])
    ensures Distinct(states[n - 1].audit)
  {
    ReachableInv(states, actions, n - 1);
    TraceIsTrail(states, actions, j, n);
    assert JobRecorded(states[n - 1].audit, j, states[n - 1].jobs[j], states[n - 1].clock);
  }
}
