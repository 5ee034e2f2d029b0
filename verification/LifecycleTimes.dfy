/** The time stamps of a job are the clocks of its transitions. */
module LifecycleTimes {
  import opened Common
  import opened Rows
  import opened Lifecycle
  import opened LifecycleInvariant
  import opened LifecycleRuns

  /** Step k creates job j or commits a transition of it. */
  ghost predicate Changes(states: seq<System>, actions: seq<Action>, k: nat, j: nat)
    requires k < |actions| && |states| == |actions| + 1
  {
    && j in states[k + 1].jobs
    && (if j in states[k].jobs
        then actions[k] == CommitJob(j) && states[k + 1].jobs[j].status != states[k].jobs[j].status
        else actions[k].CreateJob? && actions[k].j == j)
  }

  /** Job j did not change between state k and state i. */
  ghost predicate Unchanged(states: seq<System>, k: nat, i: nat, j: nat)
    requires k <= i < |states|
  {
    forall m :: k <= m <= i ==> j in states[m].jobs && j in states[i].jobs && states[m].jobs[j] == states[i].jobs[j]
  }

  /** A step that does not change job j leaves its row; one that does stamps it with the clock. */
  lemma StepStamps(states: seq<System>, actions: seq<Action>, k: nat, j: nat)
    requires IsRun(states, actions) && k < |actions| && j in states[k + 1].jobs
    ensures if Changes(states, actions, k, j) then states[k + 1].jobs[j].updatedAt == states[k].clock
            else j in states[k].jobs && states[k + 1].jobs[j] == states[k].jobs[j]
  {
    ReachableInv(states, actions, k);
    assert Step(states[k], actions[k], states[k + 1]);
    if actions[k].CommitJob? && j == actions[k].j && states[k].locks[j].write.Some? {
      var s := states[k];
      assert WriteInv(s.jobs[j], s.locks[j].holder, s.locks[j].write.value, Observe(s.files, s.jobs[j]));
    }
  }

  /** updated_at is the clock of the last transition, or of the creation. */
  lemma {:induction false} UpdatedAtLastChange(states: seq<System>, actions: seq<Action>, i: nat, j: nat)
    requires IsRun(states, actions) && i < |states| && j in states[i].jobs
    ensures exists k :: 0 <= k < i && Changes(states, actions, k, j) && Unchanged(states, k + 1, i, j)
                        && states[i].jobs[j].updatedAt == states[k].clock
  {
    if i > 0 {
      StepStamps(states, actions, i - 1, j);
      if Changes(states, actions, i - 1, j) {
        assert Unchanged(states, i, i, j);
      } else {
        UpdatedAtLastChange(states, actions, i - 1, j);
        var k :| 0 <= k < i - 1 && Changes(states, actions, k, j) && Unchanged(states, k + 1, i - 1, j)
                 && states[i - 1].jobs[j].updatedAt == states[k].clock;
        assert Unchanged(states, k + 1, i, j);
      }
    }
  }

  /** Step k is the commit with which job j leaves UPLOADING. */
  ghost predicate Submits(states: seq<System>, actions: seq<Action>, k: nat, j: nat)
    requires k < |actions| && |states| == |actions| + 1
  {
    && actions[k] == CommitJob(j) && j in states[k].jobs && j in states[k + 1].jobs
    && states[k].jobs[j].status == JobUploading && states[k + 1].jobs[j].status != JobUploading
  }

  lemma SubmitStamps(states: seq<System>, actions: seq<Action>, k: nat, j: nat)
    requires IsRun(states, actions) && k < |actions| && Submits(states, actions, k, j)
    ensures states[k + 1].jobs[j].submittedAt == Some(states[k].clock)
  {
    ReachableInv(states, actions, k);
    assert Step(states[k], actions[k], states[k + 1]);
    assert JobRecorded(states[k].audit, j, states[k].jobs[j], states[k].clock);
  }

  /** submitted_at is the clock of the one commit with which the job left UPLOADING, then and ever after. */
  lemma {:induction false} SubmittedAtSubmission(states: seq<System>, actions: seq<Action>, i: nat, j: nat)
    requires IsRun(states, actions) && i < |states| && j in states[i].jobs && states[i].jobs[j].status != JobUploading
    ensures exists k :: 0 <= k < i && Submits(states, actions, k, j)
                        && states[i].jobs[j].submittedAt == Some(states[k].clock)
  {
    if i > 0 {
      if j in states[i - 1].jobs && states[i - 1].jobs[j].status != JobUploading {
        SubmittedAtSubmission(states, actions, i - 1, j);
        StampKept(states, actions, i - 1, j);
      } else {
        LeavesNow(states, actions, i - 1, j);
        SubmitStamps(states, actions, i - 1, j);
      }
    }
  }

  /** A submit that holds a job with something to write was permitted. */
  lemma {:induction false} LockWasPermitted(states: seq<System>, actions: seq<Action>, i: nat, j: nat)
    requires IsRun(states, actions) && i < |states|
    requires j in states[i].locks && states[i].locks[j].holder == ByDevice && states[i].locks[j].write.Some?
    ensures exists k :: 0 <= k < i && actions[k] == LockForSubmit(j, true)
  {
    if i > 0 {
      assert Step(states[i - 1], actions[i - 1], states[i]);
      if j in states[i - 1].locks && states[i - 1].locks[j] == states[i].locks[j] {
        LockWasPermitted(states, actions, i - 1, j);
      } else {
        assert actions[i - 1] == LockForSubmit(j, true);
      }
    }
  }

  /** Nothing but a permitted submit takes a job out of UPLOADING. */
  lemma SubmittedByPermission(states: seq<System>, actions: seq<Action>, i: nat, j: nat)
    requires IsRun(states, actions) && i < |states| && j in states[i].jobs && states[i].jobs[j].status != JobUploading
    ensures exists k :: 0 <= k < i && actions[k] == LockForSubmit(j, true)
  {
    SubmittedAtSubmission(states, actions, i, j);
    var n :| 0 <= n < i && Submits(states, actions, n, j);
    var s := states[n];
    ReachableInv(states, actions, n);
    assert Step(s, actions[n], states[n + 1]);
    assert WriteInv(s.jobs[j], s.locks[j].holder, s.locks[j].write.value, Observe(s.files, s.jobs[j]));
    LockWasPermitted(states, actions, n, j);
  }

  lemma StampKept(states: seq<System>, actions: seq<Action>, i: nat, j: nat)
    requires IsRun(states, actions) && i < |actions| && j in states[i].jobs && states[i].jobs[j].submittedAt.Some?
    ensures j in states[i + 1].jobs && states[i + 1].jobs[j].submittedAt == states[i].jobs[j].submittedAt
  {
    RunStepGrows(states, actions, i);
    assert JobGrows(states[i].jobs[j], states[i + 1].jobs[j]);
  }

  lemma LeavesNow(states: seq<System>, actions: seq<Action>, i: nat, j: nat)
    requires IsRun(states, actions) && i < |actions| && j in states[i + 1].jobs
    requires states[i + 1].jobs[j].status != JobUploading
    requires j in states[i].jobs ==> states[i].jobs[j].status == JobUploading
    ensures Submits(states, actions, i, j)
  {
    assert Step(states[i], actions[i], states[i + 1]);
    LeavesByCommit(states[i], actions[i], j);
  }

  lemma LeavesByCommit(s: System, a: Action, j: nat)
    requires JobsKnown(s) && Enabled(s, a) && j in NextJobs(s, a) && NextJobs(s, a)[j].status != JobUploading
    requires j in s.jobs ==> s.jobs[j].status == JobUploading
    ensures j in s.jobs && a == CommitJob(j)
  {
  }
}
