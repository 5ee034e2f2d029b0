/** What the scanner's answer does to a file, and that nothing else makes a file clean or infected. */
module LifecycleVerdicts {
  import opened Common
  import opened Rows
  import opened Lifecycle
  import opened LifecycleInvariant
  import opened LifecycleRuns

  /** Only one state and result are deserved. */
  lemma DeservedOnce(stored: Option<Bytes>, declared: Digest<Bytes>, verdict: Option<Verdict>,
                     st: FileState, r: ScanResult, su: FileState, q: ScanResult)
    requires Deserved(stored, declared, verdict, st, r) && Deserved(stored, declared, verdict, su, q)
    ensures st == su && r == q
  {
  }

  // ----- over runs -----

  /** Step k is the scan of file f, answered with this verdict. */
  ghost predicate Scans(states: seq<System>, actions: seq<Action>, k: nat, f: nat, verdict: Option<Verdict>)
    requires k < |actions| && |states| == |actions| + 1
  {
    && actions[k].StreamAndScan? && actions[k].verdict == verdict
    && actions[k].d in states[k].deliveries && states[k].deliveries[actions[k].d].file == f
    && f in states[k].files
  }

  /** Some earlier scan of f deserved this state and result. */
  ghost predicate Earned(states: seq<System>, actions: seq<Action>, i: nat, f: nat, st: FileState, r: ScanResult)
    requires i < |states| && |states| == |actions| + 1
  {
    exists k :: 0 <= k < i && actions[k].StreamAndScan?
                && Scans(states, actions, k, f, actions[k].verdict)
                && Deserved(Stored(states[k], f), states[k].files[f].sha256, actions[k].verdict, st, r)
  }

  /** A verdict, or a failure that its scan found. */
  predicate ByScan(row: FileRow) {
    || row.state == Clean || row.state == Infected
    || (row.state == Failed && (row.scanResult == Some(ScanFailed) || row.scanResult == Some(HashMismatch)))
  }

  ghost predicate FileEarned(states: seq<System>, actions: seq<Action>, i: nat, f: nat)
    requires i < |states| && |states| == |actions| + 1 && f in states[i].files
  {
    ByScan(states[i].files[f]) ==>
      var row := states[i].files[f];
      row.scanResult.Some? && Earned(states, actions, i, f, row.state, row.scanResult.value)
  }

  ghost predicate DeliveryEarned(states: seq<System>, actions: seq<Action>, i: nat, d: nat)
    requires i < |states| && |states| == |actions| + 1 && d in states[i].deliveries
  {
    states[i].deliveries[d].pc.Scanned? ==>
      var delivery := states[i].deliveries[d];
      Earned(states, actions, i, delivery.file, delivery.pc.state, delivery.pc.result)
  }

  lemma EarnedLater(states: seq<System>, actions: seq<Action>, i: nat, f: nat, st: FileState, r: ScanResult)
    requires i < |actions| && |states| == |actions| + 1 && Earned(states, actions, i, f, st, r)
    ensures Earned(states, actions, i + 1, f, st, r)
  {
  }

  lemma ScanEarns(states: seq<System>, actions: seq<Action>, i: nat)
    requires IsRun(states, actions) && i < |actions| && actions[i].StreamAndScan?
    ensures actions[i].d in states[i + 1].deliveries && DeliveryEarned(states, actions, i + 1, actions[i].d)
  {
    var s, a := states[i], actions[i];
    ReachableInv(states, actions, i);
    assert Step(s, a, states[i + 1]);
    var f := s.deliveries[a.d].file;
    assert DeliveryOk(s.files[f], Stored(s, f), f in s.scanLog, s.deliveries[a.d].pc);
    OutcomeIsDeserved(Stored(s, f), s.files[f].sha256, a.verdict);
    assert Scans(states, actions, i, f, a.verdict);
  }

  /** A delivery that did not scan in this step has what it had. */
  lemma OtherKeeps(s: System, a: Action, d: nat)
    requires Enabled(s, a) && d in NextDeliveries(s, a) && NextDeliveries(s, a)[d].pc.Scanned?
    requires !(a.StreamAndScan? && a.d == d)
    ensures d in s.deliveries && NextDeliveries(s, a)[d] == s.deliveries[d]
  {
  }

  lemma {:induction false} DeliveriesEarn(states: seq<System>, actions: seq<Action>, i: nat, d: nat)
    requires IsRun(states, actions) && i < |states| && d in states[i].deliveries
    ensures DeliveryEarned(states, actions, i, d)
  {
    if i > 0 && states[i].deliveries[d].pc.Scanned? {
      var s, a := states[i - 1], actions[i - 1];
      assert Step(s, a, states[i]);
      if a.StreamAndScan? && a.d == d {
        ScanEarns(states, actions, i - 1);
      } else {
        OtherKeeps(s, a, d);
        DeliveriesEarn(states, actions, i - 1, d);
        EarnedLater(states, actions, i - 1, s.deliveries[d].file, s.deliveries[d].pc.state, s.deliveries[d].pc.result);
      }
    }
  }

  /** A row that a scan decided was so before, or takes what a delivery has to store. */
  lemma RowStep(s: System, a: Action, f: nat)
    requires DeliveryInv(s) && Enabled(s, a) && f in NextFiles(s, a) && ByScan(NextFiles(s, a)[f])
    ensures (f in s.files && NextFiles(s, a)[f] == s.files[f])
            || (a.CommitScan? && s.deliveries[a.d].file == f
                && NextFiles(s, a)[f].state == s.deliveries[a.d].pc.state
                && NextFiles(s, a)[f].scanResult == Some(s.deliveries[a.d].pc.result))
            || (f in s.files && ByScan(s.files[f]) && NextFiles(s, a)[f].state == s.files[f].state
                && NextFiles(s, a)[f].scanResult == s.files[f].scanResult)
  {
  }

  lemma {:induction false} FilesEarn(states: seq<System>, actions: seq<Action>, i: nat, f: nat)
    requires IsRun(states, actions) && i < |states| && f in states[i].files
    ensures FileEarned(states, actions, i, f)
  {
    if i > 0 && ByScan(states[i].files[f]) {
      var s, a := states[i - 1], actions[i - 1];
      assert Step(s, a, states[i]);
      ReachableInv(states, actions, i - 1);
      RowStep(s, a, f);
      if f in s.files && ByScan(s.files[f]) && s.files[f].state == states[i].files[f].state
         && s.files[f].scanResult == states[i].files[f].scanResult {
        FilesEarn(states, actions, i - 1, f);
        EarnedLater(states, actions, i - 1, f, s.files[f].state, s.files[f].scanResult.value);
      } else {
        DeliveriesEarn(states, actions, i - 1, a.d);
        EarnedLater(states, actions, i - 1, f, s.deliveries[a.d].pc.state, s.deliveries[a.d].pc.result);
      }
    }
  }

  /** A scan is logged, and what is logged stays. */
  lemma {:induction false} ScanIsLogged(states: seq<System>, actions: seq<Action>, k: nat, i: nat, f: nat)
    requires IsRun(states, actions) && k < i < |states|
    requires actions[k].StreamAndScan? && Scans(states, actions, k, f, actions[k].verdict)
    ensures f in states[i].scanLog
    decreases i
  {
    assert Step(states[i - 1], actions[i - 1], states[i]);
    if k < i - 1 {
      ScanIsLogged(states, actions, k, i - 1, f);
    }
  }

  /** A file is scanned in at most one step of a run. */
  lemma OneScan(states: seq<System>, actions: seq<Action>, k: nat, m: nat, f: nat)
    requires IsRun(states, actions) && k < |actions| && m < |actions|
    requires actions[k].StreamAndScan? && Scans(states, actions, k, f, actions[k].verdict)
    requires actions[m].StreamAndScan? && Scans(states, actions, m, f, actions[m].verdict)
    ensures k == m
  {
    if k < m {
      ScanIsLogged(states, actions, k, m, f);
      ScansUnlogged(states, actions, m, f);
    } else if m < k {
      ScanIsLogged(states, actions, m, k, f);
      ScansUnlogged(states, actions, k, f);
    }
  }

  lemma ScansUnlogged(states: seq<System>, actions: seq<Action>, m: nat, f: nat)
    requires IsRun(states, actions) && m < |actions|
    requires actions[m].StreamAndScan? && Scans(states, actions, m, f, actions[m].verdict)
    ensures f !in states[m].scanLog
  {
    ReachableInv(states, actions, m);
    assert Step(states[m], actions[m], states[m + 1]);
    var d := actions[m].d;
    assert DeliveryOk(states[m].files[f], Stored(states[m], f), f in states[m].scanLog, states[m].deliveries[d].pc);
  }

  /**
   * A verdict is the scanner's: a file is CLEAN, INFECTED with a signature, or failed by its scan only
   * if its one scan deserved that. In particular it is clean only on a clean answer for the declared
   * bytes, and infected only on an answer with that very signature.
   */
  lemma VerdictsAreTheScanners(states: seq<System>, actions: seq<Action>, i: nat, f: nat)
    requires IsRun(states, actions) && i < |states| && f in states[i].files && ByScan(states[i].files[f])
    ensures states[i].files[f].scanResult.Some?
    ensures exists k :: 0 <= k < i && actions[k].StreamAndScan? && Scans(states, actions, k, f, actions[k].verdict)
    ensures forall k ::
              0 <= k < |actions| && actions[k].StreamAndScan? && Scans(states, actions, k, f, actions[k].verdict) ==>
              Deserved(Stored(states[k], f), states[k].files[f].sha256, actions[k].verdict,
                       states[i].files[f].state, states[i].files[f].scanResult.value)
  {
    FilesEarn(states, actions, i, f);
    var row := states[i].files[f];
    var k :| 0 <= k < i && actions[k].StreamAndScan? && Scans(states, actions, k, f, actions[k].verdict)
             && Deserved(Stored(states[k], f), states[k].files[f].sha256, actions[k].verdict, row.state,
                         row.scanResult.value);
    forall m | 0 <= m < |actions| && actions[m].StreamAndScan? && Scans(states, actions, m, f, actions[m].verdict)
      ensures m == k
    {
      OneScan(states, actions, k, m, f);
    }
  }

  // ----- the steps of a delivery -----

  /** Claimed, scanned and stored: the file has what its scan deserved, and a bad object is deleted first. */
  lemma ScanIsThreeSteps(s: System, claimed: System, scanned: System, t: System, d: nat, verdict: Option<Verdict>)
    requires Step(s, BeginScan(d), claimed) && Step(claimed, StreamAndScan(d, verdict), scanned)
    requires Step(scanned, CommitScan(d), t)
    requires s.files[s.deliveries[d].file].state == Quarantined
    ensures var f := s.deliveries[d].file;
      && f in t.files && t.files == s.files[f := t.files[f]] && t.objects == s.objects && t.jobs == s.jobs
      && t.files[f].scanResult.Some?
      && Deserved(Stored(s, f), s.files[f].sha256, verdict, t.files[f].state, t.files[f].scanResult.value)
      && t.deliveries[d] == Delivery(f, if t.files[f].state == Clean then OwesReconcile else OwesDelete)
  {
    OutcomeIsDeserved(Stored(s, s.deliveries[d].file), s.files[s.deliveries[d].file].sha256, verdict);
  }

  /** Whatever storage says to the delete, the jobs of the file come next, all of them. */
  lemma ReconcileFollows(s: System, t: System, u: System, d: nat, deleted: bool)
    requires Step(s, DeleteScanned(d, deleted), t) && Step(t, FindJobs(d), u)
    ensures var f := s.deliveries[d].file;
      && t.objects == (if deleted then s.objects - {f} else s.objects)
      && u.deliveries[d].file == f && u.deliveries[d].pc.Reconciling?
      && forall j ::
           j in u.deliveries[d].pc.todo <==> j in s.jobs && exists a :: a in s.jobs[j].attachments && a.file == f
  {
  }

  // ----- what becomes of a bad object -----

  /** Step k is a delete of f's object that storage refused, or the death of the worker that owed it. */
  ghost predicate Misses(states: seq<System>, actions: seq<Action>, k: nat, f: nat)
    requires k < |actions| && |states| == |actions| + 1
  {
    var a := actions[k];
    && (a.KillDelivery? || (a.DeleteScanned? && !a.deleted))
    && Owing(states[k], a.d, f)
  }

  predicate Owing(s: System, d: nat, f: nat) {
    d in s.deliveries && s.deliveries[d] == Delivery(f, OwesDelete)
  }

  ghost predicate Accounted(states: seq<System>, actions: seq<Action>, i: nat, f: nat)
    requires i < |states| && |states| == |actions| + 1 && f in states[i].files
  {
    if ByScan(states[i].files[f])
    then (exists d :: Owing(states[i], d, f)) || exists k :: 0 <= k < i && Misses(states, actions, k, f)
    else f in states[i].deletes
  }

  predicate Bad(s: System, f: nat) {
    f in s.files && DiscardedState(s.files[f].state)
  }

  /** An upload is failed, and a bad verdict stored, together with the duty to delete. */
  lemma TurnsBad(states: seq<System>, actions: seq<Action>, i: nat, f: nat)
    requires IsRun(states, actions) && i < |actions| && Bad(states[i + 1], f) && !Bad(states[i], f)
    ensures Accounted(states, actions, i + 1, f)
  {
    var s, a := states[i], actions[i];
    assert Step(s, a, states[i + 1]);
    if a.CommitScan? {
      DeliveriesEarn(states, actions, i, a.d);
      assert Owing(states[i + 1], a.d, f);
    }
  }

  /** The duty stays until it is done or missed. */
  lemma StaysBad(states: seq<System>, actions: seq<Action>, i: nat, f: nat)
    requires IsRun(states, actions) && i < |actions| && Bad(states[i], f)
    requires f in states[i].objects ==> Accounted(states, actions, i, f)
    requires f in states[i + 1].objects
    ensures Bad(states[i + 1], f) && Accounted(states, actions, i + 1, f)
  {
    var s, a := states[i], actions[i];
    assert Step(s, a, states[i + 1]);
    assert f in s.objects && states[i + 1].files[f] == s.files[f];
    if ByScan(s.files[f]) {
      if k :| 0 <= k < i && Misses(states, actions, k, f) {
        assert 0 <= k < i + 1 && Misses(states, actions, k, f);
      } else {
        var d :| Owing(s, d, f);
        assert Owing(states[i + 1], d, f) || Misses(states, actions, i, f);
      }
    }
  }

  /**
   * The object of an infected or failed file does not stay by design: it is still there only while a
   * worker owes the delete, or after storage refused it or that worker died; for an upload that failed
   * its size check or expired, the service owes it.
   */
  lemma {:induction false} BadObjectsAreOwed(states: seq<System>, actions: seq<Action>, i: nat, f: nat)
    requires IsRun(states, actions) && i < |states| && Bad(states[i], f) && f in states[i].objects
    ensures Accounted(states, actions, i, f)
  {
    if i > 0 {
      assert Step(states[i - 1], actions[i - 1], states[i]);
      if Bad(states[i - 1], f) {
        if f in states[i - 1].objects {
          BadObjectsAreOwed(states, actions, i - 1, f);
        }
        StaysBad(states, actions, i - 1, f);
      } else {
        TurnsBad(states, actions, i - 1, f);
      }
    }
  }

  /** Every attachment of a RECEIVED job had its one scan, of its declared bytes, answered clean. */
  lemma ReceivedWasScannedClean(states: seq<System>, actions: seq<Action>, i: nat, j: nat, a: Attachment)
    requires IsRun(states, actions) && i < |states|
    requires j in states[i].jobs && states[i].jobs[j].status == Received && a in states[i].jobs[j].attachments
    ensures exists k :: 0 <= k < i && Scans(states, actions, k, a.file, Some(VerdictClean))
    ensures forall k, v :: 0 <= k < |actions| && Scans(states, actions, k, a.file, v) ==>
              v == Some(VerdictClean) && Genuine(Stored(states[k], a.file), states[k].files[a.file].sha256)
  {
    ReceivedIsTruthful(states, actions, i, j);
    assert Delivered(states[i], a);
    VerdictsAreTheScanners(states, actions, i, a.file);
    var k :| 0 <= k < i && actions[k].StreamAndScan? && Scans(states, actions, k, a.file, actions[k].verdict);
    assert Scans(states, actions, k, a.file, Some(VerdictClean));
    forall m, v | 0 <= m < |actions| && Scans(states, actions, m, a.file, v)
      ensures v == Some(VerdictClean) && Genuine(Stored(states[m], a.file), states[m].files[a.file].sha256)
    {
      assert Scans(states, actions, m, a.file, actions[m].verdict);
    }
  }
}
