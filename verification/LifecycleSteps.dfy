/** Every action keeps every part of the invariant. */
module LifecycleSteps {
  import opened Common
  import opened Rows
  import opened Lifecycle
  import opened LifecycleInvariant

  lemma StepGrows(s: System, a: Action)
    requires RowsInv(s) && DeliveryInv(s) && JobInv(s) && Enabled(s, a)
    ensures Grows(s, Apply(s, a))
  {
    FilesGrow(s, a);
    JobsGrow(s, a);
  }

  lemma RowsStep(s: System, a: Action)
    requires RowsInv(s) && DeliveryInv(s) && JobInv(s) && Enabled(s, a)
    ensures RowsInv(Apply(s, a))
  {
    var t := Apply(s, a);
    StepGrows(s, a);
    forall j | j in t.jobs ensures RowOk(t.files, t.jobs[j]) {
      if j in s.jobs {
        assert JobGrows(s.jobs[j], t.jobs[j]) && RowOk(s.files, s.jobs[j]);
      }
    }
  }

  lemma StorageStep(s: System, a: Action)
    requires StorageInv(s) && DeliveryInv(s) && Enabled(s, a)
    requires JobsKnown(s)
    ensures StorageInv(Apply(s, a))
  {
    forall f | f in NextFiles(s, a) ensures FileStored(NextFiles(s, a)[f], Stored(Apply(s, a), f)) {
      FileStoredStep(s, a, f);
    }
    forall f | f in NextDeletes(s, a) ensures f in NextFiles(s, a) && DiscardedState(NextFiles(s, a)[f].state) {
      DeletesStep(s, a, f);
    }
  }

  lemma UploadStored(s: System, a: Action, f: nat)
    requires StorageInv(s) && Enabled(s, a) && JobsKnown(s)
    requires a.CreateFile? || a.CompleteLost? || a.Complete? || a.Expire?
    requires f in NextFiles(s, a)
    ensures FileStored(NextFiles(s, a)[f], Stored(Apply(s, a), f))
  {
  }

  lemma ScanStepStored(s: System, a: Action, f: nat)
    requires StorageInv(s) && DeliveryInv(s) && Enabled(s, a) && JobsKnown(s)
    requires a.DeleteObject? || a.BeginScan? || a.CommitScan? || a.DeleteScanned?
    requires f in NextFiles(s, a)
    ensures FileStored(NextFiles(s, a)[f], Stored(Apply(s, a), f))
  {
  }

  lemma FileStoredStep(s: System, a: Action, f: nat)
    requires StorageInv(s) && DeliveryInv(s) && Enabled(s, a)
    requires JobsKnown(s)
    requires f in NextFiles(s, a)
    ensures FileStored(NextFiles(s, a)[f], Stored(Apply(s, a), f))
  {
    if a.CreateFile? || a.CompleteLost? || a.Complete? || a.Expire? {
      UploadStored(s, a, f);
    } else if a.DeleteObject? || a.BeginScan? || a.CommitScan? || a.DeleteScanned? {
      ScanStepStored(s, a, f);
    }
  }

  lemma DeletesStep(s: System, a: Action, f: nat)
    requires StorageInv(s) && DeliveryInv(s) && Enabled(s, a)
    requires f in NextDeletes(s, a)
    ensures f in NextFiles(s, a) && DiscardedState(NextFiles(s, a)[f].state)
  {
  }

  ghost predicate DeliveryOkAt(s: System, d: nat)
    requires d in s.deliveries
  {
    && s.deliveries[d].file in s.files
    && DeliveryOk(s.files[s.deliveries[d].file], Stored(s, s.deliveries[d].file),
                  s.deliveries[d].file in s.scanLog, s.deliveries[d].pc)
  }

  /** A QUARANTINED file has not been streamed, so a scan that begins finds it unscanned. */
  lemma BeginDelivery(s: System, d: nat)
    requires d in s.deliveries && DeliveryOkAt(s, d) && OneScanInv(s) && Enabled(s, BeginScan(d)) && JobsKnown(s)
    ensures DeliveryOkAt(Apply(s, BeginScan(d)), d)
  {
  }

  lemma StreamDelivery(s: System, d: nat, verdict: Option<Verdict>)
    requires d in s.deliveries && DeliveryOkAt(s, d) && StorageInv(s)
    requires Enabled(s, StreamAndScan(d, verdict)) && JobsKnown(s)
    ensures DeliveryOkAt(Apply(s, StreamAndScan(d, verdict)), d)
  {
  }

  lemma CommitDelivery(s: System, d: nat)
    requires d in s.deliveries && DeliveryOkAt(s, d) && Enabled(s, CommitScan(d)) && JobsKnown(s)
    ensures DeliveryOkAt(Apply(s, CommitScan(d)), d)
  {
  }

  lemma LaterDelivery(s: System, a: Action)
    requires Enabled(s, a) && JobsKnown(s)
    requires a.DeleteScanned? || a.FindJobs? || (a.KillDelivery? && a.redelivered)
    ensures DeliveryOkAt(Apply(s, a), a.d)
  {
  }

  lemma OwnDeliveryStep(s: System, a: Action)
    requires StorageInv(s) && OneScanInv(s) && Enabled(s, a) && OwnStep(a) && JobsKnown(s)
    requires a.d in s.deliveries && DeliveryOkAt(s, a.d)
    ensures DeliveryOkAt(Apply(s, a), a.d)
  {
    match a
    case BeginScan(d) => BeginDelivery(s, d);
    case StreamAndScan(d, verdict) => StreamDelivery(s, d, verdict);
    case CommitScan(d) => CommitDelivery(s, d);
    case _ => LaterDelivery(s, a);
  }

  lemma OtherDeliveryStep(s: System, a: Action, e: nat)
    requires Enabled(s, a)
    requires JobsKnown(s)
    requires e in s.deliveries && e in NextDeliveries(s, a) && !(OwnStep(a) && a.d == e)
    requires DeliveryOkAt(s, e)
    requires OwnStep(a) ==> DeliveryOkAt(s, a.d) && !BothActive(s.deliveries[a.d], s.deliveries[e])
    requires a.DeleteObject? ==> a.f in s.files && DiscardedState(s.files[a.f].state)
    ensures DeliveryOkAt(Apply(s, a), e)
  {
  }

  /** Another delivery takes its step. */
  lemma BesideDelivery(s: System, a: Action, e: nat)
    requires DeliveryInv(s) && OneScanInv(s) && Enabled(s, a) && JobsKnown(s)
    requires OwnStep(a) && e in s.deliveries && e in NextDeliveries(s, a) && a.d != e
    ensures DeliveryOkAt(Apply(s, a), e)
  {
    AllDeliveriesOk(s, e);
    AllDeliveriesOk(s, a.d);
    NotBothActive(s, a.d, e);
    OtherDeliveryStep(s, a, e);
  }

  /** Something else happens. */
  lemma AsideDelivery(s: System, a: Action, e: nat)
    requires StorageInv(s) && DeliveryInv(s) && Enabled(s, a) && JobsKnown(s)
    requires !OwnStep(a) && e in s.deliveries && e in NextDeliveries(s, a)
    ensures DeliveryOkAt(Apply(s, a), e)
  {
    if a.DeleteObject? {
      DeletedIsDiscarded(s, a.f);
    }
    AllDeliveriesOk(s, e);
    OtherDeliveryStep(s, a, e);
  }

  lemma DeletedIsDiscarded(s: System, f: nat)
    requires StorageInv(s) && f in s.deletes
    ensures f in s.files && DiscardedState(s.files[f].state)
  {
  }

  lemma AllDeliveriesOk(s: System, d: nat)
    requires DeliveryInv(s) && d in s.deliveries
    ensures DeliveryOkAt(s, d)
  {
  }

  lemma NotBothActive(s: System, d: nat, e: nat)
    requires OneScanInv(s) && d in s.deliveries && e in s.deliveries && d != e
    ensures !BothActive(s.deliveries[d], s.deliveries[e])
  {
  }

  lemma EnqueuedOk(s: System, d: nat, f: nat)
    requires Enabled(s, Enqueue(d, f)) && JobsKnown(s)
    ensures DeliveryOkAt(Apply(s, Enqueue(d, f)), d)
  {
  }

  lemma DeliveryStep(s: System, a: Action)
    requires StorageInv(s) && DeliveryInv(s) && OneScanInv(s) && Enabled(s, a)
    requires JobsKnown(s)
    ensures DeliveryInv(Apply(s, a))
  {
    forall e | e in NextDeliveries(s, a) ensures DeliveryOkAt(Apply(s, a), e) {
      if OwnStep(a) && a.d == e {
        assert DeliveryOkAt(s, a.d);
        OwnDeliveryStep(s, a);
      } else if e in s.deliveries {
        if OwnStep(a) {
          BesideDelivery(s, a, e);
        } else {
          AsideDelivery(s, a, e);
        }
      } else {
        EnqueuedOk(s, a.d, a.f);
      }
    }
  }

  /** Starting needs a QUARANTINED file, so no second worker can be at work on it. */
  lemma OneWorkerStep(s: System, a: Action, d: nat, e: nat)
    requires Enabled(s, a) && d in NextDeliveries(s, a) && e in NextDeliveries(s, a)
    requires d in s.deliveries ==> DeliveryOkAt(s, d)
    requires e in s.deliveries ==> DeliveryOkAt(s, e)
    requires d in s.deliveries && e in s.deliveries && BothActive(s.deliveries[d], s.deliveries[e]) ==> d == e
    requires BothActive(NextDeliveries(s, a)[d], NextDeliveries(s, a)[e])
    ensures d == e
  {
  }

  lemma ScanLogStep(s: System, a: Action)
    requires JobsKnown(s) && DeliveryInv(s) && OneScanInv(s) && Enabled(s, a)
    ensures forall f :: f in Apply(s, a).scanLog ==> f in NextFiles(s, a) && Rank(NextFiles(s, a)[f].state) >= 2
    ensures Distinct(Apply(s, a).scanLog)
  {
    FilesGrow(s, a);
    if a.StreamAndScan? {
      assert DeliveryOkAt(s, a.d);
    }
  }

  lemma OneScanStep(s: System, a: Action)
    requires JobsKnown(s) && DeliveryInv(s) && OneScanInv(s) && Enabled(s, a)
    ensures OneScanInv(Apply(s, a))
  {
    ScanLogStep(s, a);
    var next := NextDeliveries(s, a);
    forall d, e | d in next && e in next && BothActive(next[d], next[e]) ensures d == e {
      assert d in s.deliveries ==> DeliveryOkAt(s, d);
      assert e in s.deliveries ==> DeliveryOkAt(s, e);
      OneWorkerStep(s, a, d, e);
    }
  }

  // ----- jobs -----

  lemma NoneUploadingStable(xs: seq<Observation>, ys: seq<Observation>)
    requires ObservationsEvolve(xs, ys) && NoneUploading(xs)
    ensures NoneUploading(ys)
  {
    forall o | o in ys ensures o.state != Uploading {
      var i :| 0 <= i < |ys| && ys[i] == o;
      assert xs[i] in xs;
    }
  }

  lemma JobOkStable(job: JobRow, xs: seq<Observation>, ys: seq<Observation>)
    requires ObservationsEvolve(xs, ys) && JobOk(job, xs)
    ensures JobOk(job, ys)
  {
    if job.status != JobUploading {
      NoneUploadingStable(xs, ys);
    }
    if TerminalStatus(job.status) {
      DecisionIsStable(job.base, Evaluation(job.status, job.code), xs, ys);
    }
  }

  lemma WriteStable(job: JobRow, holder: Holder, write: Evaluation, xs: seq<Observation>, ys: seq<Observation>)
    requires ObservationsEvolve(xs, ys) && WriteInv(job, holder, write, xs)
    ensures WriteInv(job, holder, write, ys)
  {
    NoneUploadingStable(xs, ys);
    if write.status != JobScanning {
      DecisionIsStable(job.base, write, xs, ys);
    }
  }

  /** What submit and reconcile decide to write is right for the snapshot they took. */
  lemma FreshWrite(job: JobRow, obs: seq<Observation>)
    requires JobOk(job, obs)
    ensures SubmitWrite(job, obs).Some? ==> WriteInv(job, ByDevice, SubmitWrite(job, obs).value, obs)
    ensures forall holder :: ReconcileWrite(job, obs).Some? ==>
              WriteInv(job, holder, ReconcileWrite(job, obs).value, obs)
  {
    DecisiveIsJustified(job.base, obs);
  }

  lemma JobOkStep(s: System, a: Action, j: nat)
    requires JobsKnown(s) && DeliveryInv(s) && Enabled(s, a) && j in s.jobs && j in NextJobs(s, a)
    requires JobOk(s.jobs[j], Observe(s.files, s.jobs[j]))
    requires a == CommitJob(j) && s.locks[j].write.Some? ==>
               WriteInv(s.jobs[j], s.locks[j].holder, s.locks[j].write.value, Observe(s.files, s.jobs[j]))
    ensures AttachmentsKnown(NextFiles(s, a), NextJobs(s, a)[j])
    ensures JobOk(NextJobs(s, a)[j], Observe(NextFiles(s, a), NextJobs(s, a)[j]))
  {
    ObservationsStep(s, a, j);
    ObserveAgrees(NextFiles(s, a), s.jobs[j], NextJobs(s, a)[j]);
    var xs, ys := Observe(s.files, s.jobs[j]), Observe(NextFiles(s, a), s.jobs[j]);
    if a == CommitJob(j) && s.locks[j].write.Some? {
      WriteStable(s.jobs[j], s.locks[j].holder, s.locks[j].write.value, xs, ys);
    } else {
      JobOkStable(s.jobs[j], xs, ys);
    }
  }

  lemma WriteStep(s: System, a: Action, j: nat)
    requires JobsKnown(s) && DeliveryInv(s) && Enabled(s, a) && j in s.jobs
    requires JobOk(s.jobs[j], Observe(s.files, s.jobs[j]))
    requires j in s.locks && s.locks[j].write.Some? ==>
               WriteInv(s.jobs[j], s.locks[j].holder, s.locks[j].write.value, Observe(s.files, s.jobs[j]))
    requires j in NextLocks(s, a) && NextLocks(s, a)[j].write.Some?
    ensures AttachmentsKnown(NextFiles(s, a), s.jobs[j]) && j in NextJobs(s, a) && NextJobs(s, a)[j] == s.jobs[j]
    ensures WriteInv(s.jobs[j], NextLocks(s, a)[j].holder, NextLocks(s, a)[j].write.value,
                     Observe(NextFiles(s, a), s.jobs[j]))
  {
    ObservationsStep(s, a, j);
    var xs, ys := Observe(s.files, s.jobs[j]), Observe(NextFiles(s, a), s.jobs[j]);
    if j in s.locks {
      WriteStable(s.jobs[j], s.locks[j].holder, s.locks[j].write.value, xs, ys);
    } else {
      FreshWrite(s.jobs[j], xs);
    }
  }

  lemma JobStep(s: System, a: Action)
    requires RowsInv(s) && DeliveryInv(s) && JobInv(s) && Enabled(s, a)
    requires RowsInv(Apply(s, a))
    ensures JobInv(Apply(s, a))
  {
    var t := Apply(s, a);
    forall j | j in t.jobs ensures RowOk(t.files, t.jobs[j]) && JobOk(t.jobs[j], Observe(t.files, t.jobs[j])) {
      assert RowOk(t.files, t.jobs[j]);
      if j in s.jobs {
        JobOkStep(s, a, j);
      }
    }
    forall j | j in t.locks && t.locks[j].write.Some?
      ensures RowOk(t.files, t.jobs[j])
      ensures WriteInv(t.jobs[j], t.locks[j].holder, t.locks[j].write.value, Observe(t.files, t.jobs[j]))
    {
      assert RowOk(t.files, t.jobs[j]) && j in s.jobs;
      WriteStep(s, a, j);
    }
  }
}
