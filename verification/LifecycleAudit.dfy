/** The audit trail records exactly the transitions a job made, under distinct event keys. */
module LifecycleAudit {
  import opened Common
  import opened Rows
  import opened Lifecycle
  import opened LifecycleInvariant

  lemma RecordedAppend(audit: seq<AuditRow>, row: AuditRow, j: nat)
    ensures Recorded(audit + [row], j) ==
            if row.job == j then Recorded(audit, j) + [row.status] else Recorded(audit, j)
  {
    assert (audit + [row])[..|audit|] == audit;
  }

  lemma {:induction false} RecordedHas(audit: seq<AuditRow>, j: nat)
    ensures forall r :: r in audit && r.job == j ==> r.status in Recorded(audit, j)
    ensures (forall r :: r in audit ==> r.job != j) ==> Recorded(audit, j) == []
  {
    if audit != [] {
      var front := audit[..|audit| - 1];
      RecordedHas(front, j);
      assert audit == front + [audit[|audit| - 1]];
      assert forall r :: r in front ==> r in audit;
      assert forall r :: r in audit ==> r in front || r == audit[|audit| - 1];
      assert audit[|audit| - 1] in audit;
    }
  }

  /** Once written, a transition moves the recorded history on by one admissible status. */
  lemma TransitionRow(job: JobRow, holder: Holder, write: Evaluation, obs: seq<Observation>, recorded: seq<JobStatus>,
                      now: int)
    requires JobOk(job, obs) && WriteInv(job, holder, write, obs)
    requires RowChecks(job) && HistoryShape(recorded, job.status) && job.updatedAt <= now
    ensures HistoryShape(recorded + [write.status], write.status)
    ensures RowChecks(Transitioned(job, write, now))
    ensures write.status !in recorded
  {
  }

  /** The row a transition appends is new, and every trail still ends in its job's status. */
  lemma TransitionAudited(audit: seq<AuditRow>, jobs: map<nat, JobRow>, j: nat, holder: Holder, write: Evaluation,
                          obs: seq<Observation>, now: int)
    requires j in jobs && JobOk(jobs[j], obs) && WriteInv(jobs[j], holder, write, obs)
    requires Distinct(audit) && forall k :: k in jobs ==> JobRecorded(audit, k, jobs[k], now)
    ensures var row := AuditRow(ActionOf(holder), j, write.status, write.code);
      && Distinct(audit + [row])
      && forall k :: k in jobs ==> JobRecorded(audit + [row], k, jobs[j := Transitioned(jobs[j], write, now)][k], now)
  {
    var row := AuditRow(ActionOf(holder), j, write.status, write.code);
    TransitionRow(jobs[j], holder, write, obs, Recorded(audit, j), now);
    RecordedHas(audit, j);
    assert row !in audit;
    forall k | k in jobs
      ensures JobRecorded(audit + [row], k, jobs[j := Transitioned(jobs[j], write, now)][k], now)
    {
      RecordedAppend(audit, row, k);
    }
  }

  lemma AuditStep(s: System, a: Action)
    requires JobsKnown(s) && AuditInv(s) && Enabled(s, a)
    requires a.CommitJob? && s.locks[a.j].write.Some? ==>
               && JobOk(s.jobs[a.j], Observe(s.files, s.jobs[a.j]))
               && WriteInv(s.jobs[a.j], s.locks[a.j].holder, s.locks[a.j].write.value, Observe(s.files, s.jobs[a.j]))
    ensures AuditInv(Apply(s, a))
  {
    if a.CommitJob? && s.locks[a.j].write.Some? {
      var txn := s.locks[a.j];
      TransitionAudited(s.audit, s.jobs, a.j, txn.holder, txn.write.value, Observe(s.files, s.jobs[a.j]), s.clock);
    } else if a.CreateJob? {
      RecordedHas(s.audit, a.j);
    }
  }
}
