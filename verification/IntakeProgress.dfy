/** Creates succeed: what makes one wait, what a job is made of, and how many steps it takes. */
module IntakeProgress {
  import opened Common
  import opened Rows
  import opened Keys
  import opened Intake
  import opened IntakeRuns

  // ----- waiting -----

  /** In step k call c provisions an upload, with this answer. */
  predicate Provisions(states: seq<State>, events: seq<Event>, k: nat, c: nat, id: nat, answer: bool)
    requires k < |events| && |states| == |events| + 1
  {
    && events[k] == Advance(c, answer)
    && c in states[k].calls && states[k].calls[c].stage.Provision? && states[k].calls[c].stage.id == id
  }

  /** A call goes on after a provisioned upload and waits after any other. */
  lemma ProvisionAnswers(s: State, c: nat, answer: bool)
    requires c in s.calls && s.calls[c].stage.Provision? && StageFits(s.calls[c])
    ensures c in Apply(s, Advance(c, answer)).calls
    ensures Apply(s, Advance(c, answer)).calls[c].stage == Pending <==> !answer
  {
  }

  lemma PendingFrom(s: State, e: Event, c: nat)
    requires Enabled(s, e) && (e.Advance? ==> StageFits(s.calls[e.c]))
    requires c in Apply(s, e).calls && Apply(s, e).calls[c].stage == Pending
    ensures c in s.calls
    ensures || s.calls[c].stage == Pending
            || (s.calls[c].stage.Provision? && e == Advance(c, false))
            || (s.calls[c].stage.InsertJob? && JobKeyOf(s.calls[c]) !in s.jobs && FileTaken(s, s.calls[c].stage.ids))
  {
  }

  lemma PendingStep(s: State, e: Event, c: nat)
    requires Inv(s) && Enabled(s, e) && (e.Advance? ==> StageFits(s.calls[e.c]))
    requires c in Apply(s, e).calls && Apply(s, e).calls[c].stage == Pending
    ensures c in s.calls
    ensures s.calls[c].stage == Pending || (s.calls[c].stage.Provision? && e == Advance(c, false))
  {
    PendingFrom(s, e, c);
    if s.calls[c].stage.InsertJob? && JobKeyOf(s.calls[c]) !in s.jobs {
      NotTaken(s, c);
    }
  }

  /** A create is answered PENDING only because one of its own uploads was not provisioned. */
  lemma {:induction false} PendingOnlyUnprovisioned(states: seq<State>, events: seq<Event>, i: nat, c: nat)
    requires IsRun(states, events) && i < |states|
    requires c in states[i].calls && states[i].calls[c].stage == Pending
    ensures exists k, id :: 0 <= k < i && Provisions(states, events, k, c, id, false)
  {
    if i > 0 {
      ReachableInv(states, events, i - 1);
      assert Step(states[i - 1], events[i - 1], states[i]);
      PendingStep(states[i - 1], events[i - 1], c);
      if states[i - 1].calls[c].stage == Pending {
        PendingOnlyUnprovisioned(states, events, i - 1, c);
      } else {
        assert Provisions(states, events, i - 1, c, states[i - 1].calls[c].stage.id, false);
      }
    }
  }

  // ----- what a job is made of -----

  /** Upload id was provisioned for call c before state i. */
  predicate WasProvisioned(states: seq<State>, events: seq<Event>, i: nat, c: nat, id: nat)
    requires i < |states| && |states| == |events| + 1
  {
    exists k :: 0 <= k < i && Provisions(states, events, k, c, id, true)
  }

  function IdsOf(stage: Stage): seq<nat> {
    match stage
    case LookForFile(ids) => ids
    case InsertFile(ids) => ids
    case Provision(ids, _) => ids
    case LookAgain(ids) => ids
    case InsertJob(ids) => ids
    case _ => []
  }

  /** What a step adds to the uploads of a call was provisioned in that step. */
  lemma IdsStep(s: State, e: Event, c: nat, id: nat)
    requires Enabled(s, e) && (e.Advance? ==> StageFits(s.calls[e.c]))
    requires c in Apply(s, e).calls && id in IdsOf(Apply(s, e).calls[c].stage)
    ensures c in s.calls
    ensures id in IdsOf(s.calls[c].stage)
            || (e == Advance(c, true) && s.calls[c].stage.Provision? && s.calls[c].stage.id == id)
  {
  }

  lemma {:induction false} GatheredIsProvisioned(states: seq<State>, events: seq<Event>, i: nat, c: nat, id: nat)
    requires IsRun(states, events) && i < |states|
    requires c in states[i].calls && id in IdsOf(states[i].calls[c].stage)
    ensures WasProvisioned(states, events, i, c, id)
  {
    if i > 0 {
      assert Step(states[i - 1], events[i - 1], states[i]);
      IdsStep(states[i - 1], events[i - 1], c, id);
      if id in IdsOf(states[i - 1].calls[c].stage) {
        GatheredIsProvisioned(states, events, i - 1, c, id);
      } else {
        assert Provisions(states, events, i - 1, c, id, true);
      }
    }
  }

  /** A job appears when its creator inserts it, over the uploads it has gathered. */
  lemma JobStep(s: State, e: Event, k: JobKey)
    requires Enabled(s, e) && (e.Advance? ==> StageFits(s.calls[e.c])) && k in Apply(s, e).jobs
    ensures if k in s.jobs then Apply(s, e).jobs[k] == s.jobs[k]
            else e.Advance? && s.calls[e.c].stage.InsertJob?
                 && Apply(s, e).jobs[k].creator == e.c && Apply(s, e).jobs[k].files == s.calls[e.c].stage.ids
  {
  }

  /** Every file of a job was provisioned, for the very call that inserted the job. */
  lemma {:induction false} JobsAreProvisioned(states: seq<State>, events: seq<Event>, i: nat, k: JobKey, id: nat)
    requires IsRun(states, events) && i < |states| && k in states[i].jobs && id in states[i].jobs[k].files
    ensures WasProvisioned(states, events, i, states[i].jobs[k].creator, id)
  {
    if i > 0 {
      var s, e := states[i - 1], events[i - 1];
      assert Step(s, e, states[i]);
      JobStep(s, e, k);
      if k in s.jobs {
        JobsAreProvisioned(states, events, i - 1, k, id);
      } else {
        GatheredIsProvisioned(states, events, i - 1, e.c, id);
      }
    }
  }

  predicate Final(stage: Stage) {
    stage.Created? || stage == KeyConflict || stage == Pending
  }

  lemma {:induction false} FinalStays(states: seq<State>, events: seq<Event>, i: nat, k: nat, c: nat)
    requires IsRun(states, events) && i <= k < |states|
    requires c in states[i].calls && Final(states[i].calls[c].stage)
    ensures c in states[k].calls && states[k].calls[c].stage == states[i].calls[c].stage
    decreases k
  {
    if i < k {
      FinalStays(states, events, i, k - 1, c);
      assert Step(states[k - 1], events[k - 1], states[k]);
    }
  }

  /** A call that was answered with a job never had an upload that was not provisioned. */
  lemma CreatedWasProvisioned(states: seq<State>, events: seq<Event>, i: nat, c: nat, k: nat, id: nat)
    requires IsRun(states, events) && k < i < |states|
    requires c in states[i].calls && states[i].calls[c].stage != Pending
    ensures !Provisions(states, events, k, c, id, false)
  {
    if Provisions(states, events, k, c, id, false) {
      assert Step(states[k], events[k], states[k + 1]);
      ProvisionAnswers(states[k], c, false);
      FinalStays(states, events, k + 1, i, c);
    }
  }

  // ----- progress -----

  /** More than the steps that a call still needs. */
  function Left(call: Call): nat
    requires StageFits(call)
  {
    var n := |call.manifest.attachments|;
    match call.stage
    case LookForJob => 3 * n + 3
    case LookForFile(ids) => 3 * (n - |ids|) + 2
    case InsertFile(ids) => 3 * (n - |ids|) + 1
    case Provision(ids, _) => 3 * (n - |ids|)
    case LookAgain(_) => 2
    case InsertJob(_) => 1
    case _ => 0
  }

  /** One step with the upload provisioned: in conflict, or closer and not waiting. */
  lemma LeftStep(s: State, c: nat)
    requires c in s.calls && StageFits(s.calls[c]) && !Final(s.calls[c].stage)
    requires s.calls[c].stage.InsertJob? && JobKeyOf(s.calls[c]) !in s.jobs ==> !FileTaken(s, s.calls[c].stage.ids)
    ensures var t := Apply(s, Advance(c, true));
      && c in t.calls && t.calls[c].manifest == s.calls[c].manifest && t.calls[c].stage != Pending
      && (t.calls[c].stage == KeyConflict || (StageFits(t.calls[c]) && Left(t.calls[c]) < Left(s.calls[c])))
  {
  }

  /** Advancing a call brings no new contender. */
  lemma StaysUncontended(s: State, c: nat)
    requires c in s.calls && StageFits(s.calls[c]) && !Contended(s, s.calls[c])
    ensures c in Apply(s, Advance(c, true)).calls
    ensures !Contended(Apply(s, Advance(c, true)), Apply(s, Advance(c, true)).calls[c])
  {
    var t := Apply(s, Advance(c, true));
    StepExtends(s, Advance(c, true));
    forall d | d in t.calls && SameKey(t.calls[d], t.calls[c]) ensures t.calls[d].manifest == t.calls[c].manifest {
      assert SameKey(s.calls[d], s.calls[c]);
    }
  }

  /** A call that is not contended and not pending. */
  ghost predicate Underway(s: State, c: nat) {
    && Inv(s) && c in s.calls && CallOk(s, s.calls[c]) && !Contended(s, s.calls[c])
    && s.calls[c].stage != Pending
  }

  /** One step of an uncontended call with its upload provisioned: closer, and neither refused nor waiting. */
  lemma AloneStep(s: State, c: nat)
    requires Underway(s, c) && !s.calls[c].stage.Created?
    ensures var t := Apply(s, Advance(c, true));
      && Underway(t, c) && Left(t.calls[c]) < Left(s.calls[c]) && t.calls[c].manifest == s.calls[c].manifest
  {
    var t := Apply(s, Advance(c, true));
    StepKeepsInv(s, Advance(c, true));
    StaysUncontended(s, c);
    if s.calls[c].stage.InsertJob? && JobKeyOf(s.calls[c]) !in s.jobs {
      NotTaken(s, c);
    }
    LeftStep(s, c);
    assert CallOk(t, t.calls[c]);
  }

  /** The call goes on alone for n steps, each upload provisioned. */
  ghost function Alone(s: State, c: nat, n: nat): State
    requires Inv(s) && c in s.calls
    decreases n
  {
    if n == 0 then s
    else
      assert CallOk(s, s.calls[c]);
      StepKeepsInv(s, Advance(c, true));
      StepExtends(s, Advance(c, true));
      Alone(Apply(s, Advance(c, true)), c, n - 1)
  }

  /** The call has its job, with one file for each declaration. */
  ghost predicate Whole(s: State, c: nat, m: Manifest) {
    && c in s.calls && s.calls[c].stage.Created? && s.calls[c].manifest == m
    && |s.calls[c].stage.ids| == |m.attachments|
    && Bound(s, s.calls[c], s.calls[c].stage.id, s.calls[c].stage.ids)
    && HoldsAll(s, s.calls[c], s.calls[c].stage.ids)
  }

  lemma CreatedStays(s: State, c: nat, n: nat)
    requires Inv(s) && c in s.calls && s.calls[c].stage.Created?
    ensures Alone(s, c, n) == s && Whole(s, c, s.calls[c].manifest)
    decreases n
  {
    assert CallOk(s, s.calls[c]);
    BoundIsWhole(s, s.calls[c]);
    if n > 0 {
      assert Apply(s, Advance(c, true)) == s;
      CreatedStays(s, c, n - 1);
    }
  }

  /** A job with this call's manifest has its declared uploads, in order. */
  lemma BoundIsWhole(s: State, call: Call)
    requires Inv(s) && CallOk(s, call) && call.stage.Created?
    ensures |call.stage.ids| == |call.manifest.attachments| && HoldsAll(s, call, call.stage.ids)
  {
    assert JobOk(s, JobKeyOf(call));
    var maker := s.calls[s.jobs[JobKeyOf(call)].creator];
    assert CallOk(s, maker);
    forall i | 0 <= i < |call.stage.ids| ensures Holds(s, call, i, call.stage.ids[i]) {
      assert Holds(s, maker, i, call.stage.ids[i]);
    }
  }

  /**
   * A create whose key nobody uses for another manifest succeeds: with its uploads provisioned it has
   * its job, with one file for each declaration, after at most three steps for each and three more.
   */
  lemma {:induction false} AloneIsCreated(s: State, c: nat, n: nat)
    requires Underway(s, c) && n >= Left(s.calls[c])
    ensures Whole(Alone(s, c, n), c, s.calls[c].manifest)
    decreases n
  {
    if s.calls[c].stage.Created? {
      CreatedStays(s, c, n);
    } else {
      AloneStep(s, c);
      AloneIsCreated(Apply(s, Advance(c, true)), c, n - 1);
    }
  }
}
