/** No lost wake-up: a job whose files are decided is always on some delivery's list. */
module LifecycleWake {
  import opened Common
  import opened Rows
  import opened Lifecycle
  import opened LifecycleInvariant
  import opened LifecycleSteps

  lemma HolderStep(s: System, a: Action)
    requires HolderInv(s) && Enabled(s, a)
    requires JobsKnown(s)
    ensures HolderInv(Apply(s, a))
  {
    forall j | j in NextLocks(s, a) && NextLocks(s, a)[j].holder.ByDelivery?
      ensures HeldByVisitor(NextDeliveries(s, a), NextLocks(s, a)[j].holder.id, j)
    {
      HolderStepAt(s, a, j);
    }
  }

  predicate HeldByVisitor(deliveries: map<nat, Delivery>, d: nat, j: nat) {
    d in deliveries && deliveries[d].pc.Reconciling? && j in deliveries[d].pc.todo
  }

  lemma HolderStepAt(s: System, a: Action, j: nat)
    requires HolderInv(s) && Enabled(s, a)
    requires JobsKnown(s)
    requires j in NextLocks(s, a) && NextLocks(s, a)[j].holder.ByDelivery?
    ensures HeldByVisitor(NextDeliveries(s, a), NextLocks(s, a)[j].holder.id, j)
  {
  }

  /** Moving between undecided states decides nothing. */
  lemma UndecidedMoves(base: Option<Digest<Bytes>>, xs: seq<Observation>, ys: seq<Observation>)
    requires ObservationsEvolve(xs, ys)
    requires forall i :: 0 <= i < |xs| ==>
              ys[i] == xs[i] || (!TerminalState(xs[i].state) && !TerminalState(ys[i].state))
    requires Decisive(base, ys)
    ensures Decisive(base, xs)
  {
    StatesMeaning(xs);
    StatesMeaning(ys);
    if EvaluateFiles(base, ys).status == Rejected {
      var o :| o in ys && (o.state == Infected || o.state == Failed);
      var i :| 0 <= i < |ys| && ys[i] == o;
      assert xs[i] in xs;
    } else {
      forall i | 0 <= i < |xs| ensures xs[i] == ys[i] {
        assert ys[i] in ys;
      }
      assert xs == ys;
    }
  }

  /** A step that is no verdict on one of its files leaves a waiting job as undecided as it was. */
  lemma NoVerdictNoDecision(s: System, a: Action, j: nat)
    requires JobsKnown(s) && DeliveryInv(s) && Enabled(s, a) && j in s.jobs
    requires AttachmentsKnown(NextFiles(s, a), s.jobs[j])
    requires NoneUploading(Observe(s.files, s.jobs[j]))
    requires !(a.CommitScan? && s.files[s.deliveries[a.d].file].state == Scanning
               && s.deliveries[a.d].file in FilesOf(s.jobs[j]))
    ensures Decisive(s.jobs[j].base, Observe(NextFiles(s, a), s.jobs[j])) ==>
              Decisive(s.jobs[j].base, Observe(s.files, s.jobs[j]))
  {
    var job := s.jobs[j];
    ObservationsStep(s, a, j);
    var xs, ys := Observe(s.files, job), Observe(NextFiles(s, a), job);
    forall i | 0 <= i < |xs|
      ensures ys[i] == xs[i] || (!TerminalState(xs[i].state) && !TerminalState(ys[i].state))
    {
      assert xs[i] in xs;
      assert job.attachments[i] in job.attachments;
      assert job.attachments[i].file in FilesOf(job);
    }
    if Decisive(job.base, ys) {
      UndecidedMoves(job.base, xs, ys);
    }
  }

  /** What a job observes after a step depends on the files alone. */
  lemma SameAttachments(s: System, a: Action, j: nat)
    requires RowsInv(s) && JobsKnown(s) && DeliveryInv(s) && JobInv(s) && Enabled(s, a) && j in s.jobs
    ensures j in NextJobs(s, a) && NextJobs(s, a)[j].base == s.jobs[j].base
    ensures AttachmentsKnown(NextFiles(s, a), s.jobs[j]) && AttachmentsKnown(NextFiles(s, a), NextJobs(s, a)[j])
    ensures Observe(NextFiles(s, a), NextJobs(s, a)[j]) == Observe(NextFiles(s, a), s.jobs[j])
  {
    ObservationsStep(s, a, j);
    JobsGrow(s, a);
    ObserveAgrees(NextFiles(s, a), s.jobs[j], NextJobs(s, a)[j]);
  }

  /** Only a verdict on one of its own files can make a waiting job ready. */
  lemma ReadyComesFromVerdict(s: System, a: Action, j: nat)
    requires RowsInv(s) && JobsKnown(s) && DeliveryInv(s) && JobInv(s) && Enabled(s, a)
    requires Waiting(s, j) && !ReadyNow(s, j) && ReadyNow(Apply(s, a), j)
    ensures a.CommitScan? && s.files[s.deliveries[a.d].file].state == Scanning
    ensures s.deliveries[a.d].file in FilesOf(s.jobs[j])
  {
    SameAttachments(s, a, j);
    if !(a.CommitScan? && s.files[s.deliveries[a.d].file].state == Scanning
         && s.deliveries[a.d].file in FilesOf(s.jobs[j])) {
      NoVerdictNoDecision(s, a, j);
    }
  }

  /** A pending write by a delivery ends the wait. */
  predicate WritesFinal(s: System, j: nat) {
    j in s.locks && s.locks[j].holder != ByDevice && s.locks[j].write.Some? ==>
      TerminalStatus(s.locks[j].write.value.status)
  }

  /** Its program counter stays before the visit, unless it is killed for good or has just settled j. */
  lemma VisitPersists(s: System, a: Action, d: nat, j: nat)
    requires Enabled(s, a) && Owes(s, d, j) && a != KillDelivery(d, false)
    requires !(a == CommitJob(j) && s.locks[j].holder == ByDelivery(d))
    ensures d in NextDeliveries(s, a) && NextDeliveries(s, a)[d].file == s.deliveries[d].file
    ensures BeforeVisit(NextDeliveries(s, a)[d].pc, j)
  {
  }

  /** A delivery that owes a visit keeps owing it until the job stops waiting. */
  lemma OwesPersists(s: System, a: Action, d: nat, j: nat)
    requires JobsKnown(s) && Enabled(s, a) && a != KillDelivery(d, false)
    requires Owes(s, d, j) && Waiting(s, j) && ReadyNow(s, j) && WritesFinal(s, j) && Waiting(Apply(s, a), j)
    requires s.deliveries[d].file in NextFiles(s, a)
    requires FileGrows(s.files[s.deliveries[d].file], NextFiles(s, a)[s.deliveries[d].file])
    requires j in NextJobs(s, a) && JobGrows(s.jobs[j], NextJobs(s, a)[j])
    ensures Owes(Apply(s, a), d, j)
  {
    VisitPersists(s, a, d, j);
  }

  /** The step loses, for good, the last delivery that owes the visit of j. */
  ghost predicate LosesLast(s: System, a: Action, j: nat) {
    && a.KillDelivery? && !a.redelivered
    && Owes(s, a.d, j)
    && forall e :: Owes(s, e, j) ==> e == a.d
  }

  lemma OwedPersists(s: System, a: Action, j: nat)
    requires JobsKnown(s) && RowsInv(s) && DeliveryInv(s) && JobInv(s) && Enabled(s, a)
    requires Owed(s, j) && !LosesLast(s, a, j)
    requires Waiting(s, j) && ReadyNow(s, j) && WritesFinal(s, j) && Waiting(Apply(s, a), j)
    ensures Owed(Apply(s, a), j)
  {
    var d :| Owes(s, d, j) && a != KillDelivery(d, false);
    FileGrowsAt(s, a, s.deliveries[d].file);
    JobGrowsAt(s, a, j);
    OwesPersists(s, a, d, j);
  }

  lemma FileGrowsAt(s: System, a: Action, f: nat)
    requires DeliveryInv(s) && Enabled(s, a) && f in s.files
    ensures f in NextFiles(s, a) && FileGrows(s.files[f], NextFiles(s, a)[f])
  {
    FilesGrow(s, a);
  }

  lemma JobGrowsAt(s: System, a: Action, j: nat)
    requires RowsInv(s) && JobInv(s) && Enabled(s, a) && j in s.jobs
    ensures j in NextJobs(s, a) && JobGrows(s.jobs[j], NextJobs(s, a)[j])
  {
    JobsGrow(s, a);
  }

  /** After any other step, a decided waiting job has someone who still owes the visit. */
  lemma WakeStep(s: System, a: Action, j: nat)
    requires RowsInv(s) && DeliveryInv(s) && JobInv(s) && HolderInv(s) && Enabled(s, a)
    requires RowsInv(Apply(s, a)) && Waiting(Apply(s, a), j) && ReadyNow(Apply(s, a), j)
    requires Waiting(s, j) && ReadyNow(s, j) ==> Owed(s, j)
    requires !LosesLast(s, a, j)
    ensures Owed(Apply(s, a), j)
  {
    WaitingBefore(s, a, j);
    if ReadyNow(s, j) {
      OwedPersists(s, a, j);
    } else {
      ReadyComesFromVerdict(s, a, j);
      VerdictOwes(s, a, j);
    }
  }

  /** The delivery that commits a verdict owes the visit from that moment. */
  lemma VerdictOwes(s: System, a: Action, j: nat)
    requires JobsKnown(s) && DeliveryInv(s) && HolderInv(s) && Enabled(s, a)
    requires a.CommitScan? && s.files[s.deliveries[a.d].file].state == Scanning
    requires j in s.jobs && s.deliveries[a.d].file in FilesOf(s.jobs[j])
    ensures Owes(Apply(s, a), a.d, j)
  {
  }

  /** A job starts waiting only undecided: submit leaves it waiting when its own snapshot decides nothing. */
  lemma WaitingBefore(s: System, a: Action, j: nat)
    requires RowsInv(s) && JobInv(s) && Enabled(s, a)
    requires Waiting(Apply(s, a), j) && ReadyNow(Apply(s, a), j)
    ensures Waiting(s, j) && WritesFinal(s, j)
  {
  }
}
