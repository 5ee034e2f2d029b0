/** Creating an import is linearisable: one key, one job, however many calls race for it. */
module IntakeRuns {
  import opened Common
  import opened Rows
  import opened Keys
  import opened Intake

  // ----- every step keeps the invariant -----

  lemma HoldsAllExtends(s: State, t: State, call: Call, later: Call, ids: seq<nat>)
    requires Extends(s, t) && HoldsAll(s, call, ids)
    requires later == call.(stage := later.stage)
    ensures HoldsAll(t, later, ids)
  {
    forall i | 0 <= i < |ids| ensures Holds(t, later, i, ids[i]) {
      assert Holds(s, call, i, ids[i]);
    }
  }

  lemma ContendedExtends(s: State, t: State, call: Call, later: Call)
    requires Extends(s, t) && Contended(s, call)
    requires later == call.(stage := later.stage)
    ensures Contended(t, later)
  {
    var d :| d in s.calls && SameKey(s.calls[d], call) && s.calls[d].manifest != call.manifest;
    assert SameKey(t.calls[d], later);
  }

  lemma CallOkExtends(s: State, t: State, call: Call)
    requires Extends(s, t) && CallOk(s, call)
    ensures CallOk(t, call)
  {
    match call.stage {
      case LookForFile(ids) => HoldsAllExtends(s, t, call, call, ids);
      case InsertFile(ids) => HoldsAllExtends(s, t, call, call, ids);
      case Provision(ids, id) => HoldsAllExtends(s, t, call, call, ids + [id]);
      case LookAgain(ids) => HoldsAllExtends(s, t, call, call, ids);
      case InsertJob(ids) => HoldsAllExtends(s, t, call, call, ids);
      case KeyConflict => ContendedExtends(s, t, call, call);
      case _ =>
    }
  }

  lemma FileOkExtends(s: State, t: State, k: FileKey)
    requires Extends(s, t) && FileOk(s, k)
    ensures FileOk(t, k)
  {
    var call := s.calls[s.files[k].creator];
    var i :| 0 <= i < |call.manifest.attachments| && FileKeyOf(call, i) == k
        && FingerprintOf(call, i) == s.files[k].fingerprint;
    assert FileKeyOf(t.calls[t.files[k].creator], i) == k;
  }

  lemma JobOkExtends(s: State, t: State, k: JobKey)
    requires Extends(s, t) && JobOk(s, k)
    ensures JobOk(t, k)
  {
    var call := s.calls[s.jobs[k].creator];
    HoldsAllExtends(s, t, call, t.calls[s.jobs[k].creator], s.jobs[k].files);
  }

  /** Asking for a key that is bound gives its job or a conflict with a call that bound it otherwise. */
  lemma MatchingOk(s: State, call: Call)
    requires Inv(s) && ValidCall(call) && JobKeyOf(call) in s.jobs
    ensures CallOk(s, call.(stage := Matching(call, s.jobs[JobKeyOf(call)])))
  {
    var k := JobKeyOf(call);
    assert JobOk(s, k);
    var other := s.calls[s.jobs[k].creator];
    assert SameKey(other, call);
  }

  lemma ReuseOk(s: State, call: Call, ids: seq<nat>)
    requires Inv(s) && ValidCall(call) && |ids| < |call.manifest.attachments|
    requires HoldsAll(s, call, ids) && FileKeyOf(call, |ids|) in s.files
    ensures CallOk(s, call.(stage := Reuse(call, ids, s.files[FileKeyOf(call, |ids|)])))
  {
    var k := FileKeyOf(call, |ids|);
    assert FileOk(s, k);
    var next := call.(stage := Reuse(call, ids, s.files[k]));
    if s.files[k].fingerprint != FingerprintOf(call, |ids|) {
      assert CallOk(s, s.calls[s.files[k].creator]);
      MismatchIsContention(s, call, |ids|);
      assert Contended(s, next) by {
        var d :| d in s.calls && SameKey(s.calls[d], call) && s.calls[d].manifest != call.manifest;
        assert SameKey(s.calls[d], next);
      }
    } else {
      var all := ids + [s.files[k].id];
      forall i | 0 <= i < |all| ensures Holds(s, next, i, all[i]) {
        if i < |ids| {
          assert Holds(s, call, i, ids[i]);
        }
      }
    }
  }

  /** The tables are unchanged and the stage alone moves, in every step but two. */
  predicate OnlyStage(s: State, c: nat) {
    && c in s.calls
    && match s.calls[c].stage
       case InsertFile(ids) => |ids| < |s.calls[c].manifest.attachments| && FileKeyOf(s.calls[c], |ids|) in s.files
       case InsertJob(ids) => JobKeyOf(s.calls[c]) in s.jobs || FileTaken(s, ids)
       case _ => true
  }

  lemma HeldByStage(s: State, call: Call, stage: Stage, ids: seq<nat>)
    requires HoldsAll(s, call, ids)
    ensures HoldsAll(s, call.(stage := stage), ids)
  {
    var next := call.(stage := stage);
    forall i | 0 <= i < |ids| ensures Holds(s, next, i, ids[i]) {
      assert Holds(s, call, i, ids[i]);
    }
  }

  lemma StageOk(s: State, call: Call, next: Call)
    requires Inv(s) && CallOk(s, call)
    requires match call.stage
             case LookForFile(ids) => next == call.(stage := if FileKeyOf(call, |ids|) in s.files
                                                             then Reuse(call, ids, s.files[FileKeyOf(call, |ids|)])
                                                             else InsertFile(ids))
             case InsertFile(ids) => FileKeyOf(call, |ids|) in s.files
                                     && next == call.(stage := Reuse(call, ids, s.files[FileKeyOf(call, |ids|)]))
             case _ => false
    ensures CallOk(s, next)
  {
    var ids := call.stage.ids;
    if FileKeyOf(call, |ids|) in s.files {
      ReuseOk(s, call, ids);
    }
    HeldByStage(s, call, next.stage, ids);
  }

  lemma LookTables(s: State, c: nat, provisioned: bool)
    requires OnlyStage(s, c) && StageFits(s.calls[c])
    ensures var t := Apply(s, Advance(c, provisioned));
      && t.files == s.files && t.jobs == s.jobs && t.nextFile == s.nextFile && t.nextJob == s.nextJob
      && c in t.calls && t.calls == s.calls[c := t.calls[c]]
  {
  }

  lemma LookCall(s: State, c: nat, provisioned: bool)
    requires Inv(s) && OnlyStage(s, c) && CallOk(s, s.calls[c])
    ensures c in Apply(s, Advance(c, provisioned)).calls
    ensures CallOk(s, Apply(s, Advance(c, provisioned)).calls[c])
  {
    var call := s.calls[c];
    var next := Apply(s, Advance(c, provisioned)).calls[c];
    if JobKeyOf(call) in s.jobs {
      MatchingOk(s, call);
    }
    match call.stage {
      case LookForFile(ids) => StageOk(s, call, next);
      case InsertFile(ids) => StageOk(s, call, next);
      case Provision(ids, id) => HeldByStage(s, call, next.stage, ids + [id]);
      case LookAgain(ids) => HeldByStage(s, call, next.stage, ids);
      case _ =>
    }
  }

  lemma LookStep(s: State, c: nat, provisioned: bool)
    requires Inv(s) && OnlyStage(s, c) && StageFits(s.calls[c])
    ensures var t := Apply(s, Advance(c, provisioned));
      && t.files == s.files && t.jobs == s.jobs && t.nextFile == s.nextFile && t.nextJob == s.nextJob
      && c in t.calls && t.calls == s.calls[c := t.calls[c]] && CallOk(s, t.calls[c])
  {
    assert CallOk(s, s.calls[c]);
    LookTables(s, c, provisioned);
    LookCall(s, c, provisioned);
  }

  lemma InsertedIsHeld(s: State, c: nat, provisioned: bool)
    requires c in s.calls && s.calls[c].stage.InsertFile? && CallOk(s, s.calls[c]) && !OnlyStage(s, c)
    ensures CallOk(Apply(s, Advance(c, provisioned)), Apply(s, Advance(c, provisioned)).calls[c])
  {
    var t, ids := Apply(s, Advance(c, provisioned)), s.calls[c].stage.ids;
    StepExtends(s, Advance(c, provisioned));
    HoldsAllExtends(s, t, s.calls[c], t.calls[c], ids);
    var all := ids + [s.nextFile];
    assert forall i :: 0 <= i < |ids| ==> all[i] == ids[i];
    assert Holds(t, t.calls[c], |ids|, s.nextFile);
  }

  lemma InsertedCalls(s: State, c: nat, provisioned: bool, d: nat)
    requires Inv(s) && c in s.calls && StageFits(s.calls[c]) && s.calls[c].stage.InsertFile? && !OnlyStage(s, c)
    requires d in Apply(s, Advance(c, provisioned)).calls
    ensures CallOk(Apply(s, Advance(c, provisioned)), Apply(s, Advance(c, provisioned)).calls[d])
  {
    if d == c {
      assert CallOk(s, s.calls[c]);
      InsertedIsHeld(s, c, provisioned);
    } else {
      assert CallOk(s, s.calls[d]);
      StepExtends(s, Advance(c, provisioned));
      CallOkExtends(s, Apply(s, Advance(c, provisioned)), s.calls[d]);
    }
  }

  lemma InsertedFiles(s: State, c: nat, provisioned: bool, l: FileKey)
    requires Inv(s) && c in s.calls && StageFits(s.calls[c]) && s.calls[c].stage.InsertFile? && !OnlyStage(s, c)
    requires l in Apply(s, Advance(c, provisioned)).files
    ensures FileOk(Apply(s, Advance(c, provisioned)), l)
  {
    var t := Apply(s, Advance(c, provisioned));
    var ids := s.calls[c].stage.ids;
    assert CallOk(s, s.calls[c]);
    if l == FileKeyOf(s.calls[c], |ids|) {
      assert FileKeyOf(t.calls[c], |ids|) == l && FingerprintOf(t.calls[c], |ids|) == t.files[l].fingerprint;
    } else {
      StepExtends(s, Advance(c, provisioned));
      FileOkExtends(s, t, l);
    }
  }

  lemma InsertFileStep(s: State, c: nat, provisioned: bool)
    requires Inv(s) && c in s.calls && StageFits(s.calls[c]) && s.calls[c].stage.InsertFile? && !OnlyStage(s, c)
    ensures Inv(Apply(s, Advance(c, provisioned)))
  {
    var t := Apply(s, Advance(c, provisioned));
    StepExtends(s, Advance(c, provisioned));
    forall d | d in t.calls ensures CallOk(t, t.calls[d]) {
      InsertedCalls(s, c, provisioned, d);
    }
    forall l | l in t.files ensures FileOk(t, l) {
      InsertedFiles(s, c, provisioned, l);
    }
    assert forall l :: l in s.files ==> FileOk(s, l);
    forall l | l in t.jobs ensures JobOk(t, l) {
      JobOkExtends(s, t, l);
    }
  }

  lemma InsertJobStep(s: State, c: nat, provisioned: bool)
    requires Inv(s) && c in s.calls && StageFits(s.calls[c]) && s.calls[c].stage.InsertJob? && !OnlyStage(s, c)
    ensures Inv(Apply(s, Advance(c, provisioned)))
  {
    var call := s.calls[c];
    assert CallOk(s, call);
    var ids := call.stage.ids;
    var t := Apply(s, Advance(c, provisioned));
    StepExtends(s, Advance(c, provisioned));
    forall d | d in t.calls ensures CallOk(t, t.calls[d]) {
      if d != c {
        assert CallOk(s, s.calls[d]);
        CallOkExtends(s, t, s.calls[d]);
      }
    }
    forall l | l in t.files ensures FileOk(t, l) {
      FileOkExtends(s, t, l);
    }
    forall l | l in t.jobs ensures JobOk(t, l) {
      if l == JobKeyOf(call) {
        HoldsAllExtends(s, t, call, t.calls[c], ids);
      } else {
        JobOkExtends(s, t, l);
      }
    }
    assert forall l :: l in s.jobs ==> JobOk(s, l);
  }

  lemma StepKeepsInv(s: State, e: Event)
    requires Inv(s) && Enabled(s, e)
    ensures e.Advance? ==> StageFits(s.calls[e.c])
    ensures Inv(Apply(s, e))
  {
    assert e.Advance? ==> CallOk(s, s.calls[e.c]);
    if e.Advance? && !OnlyStage(s, e.c) {
      if s.calls[e.c].stage.InsertFile? {
        InsertFileStep(s, e.c, e.provisioned);
      } else {
        InsertJobStep(s, e.c, e.provisioned);
      }
    } else {
      if e.Advance? {
        LookStep(s, e.c, e.provisioned);
      }
      TablesUntouched(s, e);
    }
  }

  lemma TablesUntouched(s: State, e: Event)
    requires Inv(s) && Enabled(s, e) && (e.Advance? ==> StageFits(s.calls[e.c]))
    requires var t := Apply(s, e);
      t.files == s.files && t.jobs == s.jobs && t.nextFile == s.nextFile && t.nextJob == s.nextJob
      && e.c in t.calls && t.calls == s.calls[e.c := t.calls[e.c]] && CallOk(s, t.calls[e.c])
    ensures Inv(Apply(s, e))
  {
    var t := Apply(s, e);
    StepExtends(s, e);
    forall d | d in t.calls ensures CallOk(t, t.calls[d]) {
      if d != e.c {
        assert CallOk(s, s.calls[d]);
      }
      CallOkExtends(s, t, t.calls[d]);
    }
    forall l | l in t.files ensures FileOk(t, l) {
      FileOkExtends(s, t, l);
    }
    forall l | l in t.jobs ensures JobOk(t, l) {
      JobOkExtends(s, t, l);
    }
  }

  // ----- runs -----

  ghost predicate Step(s: State, e: Event, t: State) {
    Enabled(s, e) && (e.Advance? ==> StageFits(s.calls[e.c])) && t == Apply(s, e)
  }

  ghost predicate IsRun(states: seq<State>, events: seq<Event>) {
    && |states| == |events| + 1
    && states[0] == EMPTY
    && forall i :: 0 <= i < |events| ==> Step(states[i], events[i], states[i + 1])
  }

  lemma {:induction false} ReachableInv(states: seq<State>, events: seq<Event>, i: nat)
    requires IsRun(states, events) && i < |states|
    ensures Inv(states[i])
  {
    if i > 0 {
      ReachableInv(states, events, i - 1);
      assert Step(states[i - 1], events[i - 1], states[i]);
      StepKeepsInv(states[i - 1], events[i - 1]);
    }
  }

  lemma {:induction false} RunExtends(states: seq<State>, events: seq<Event>, i: nat, k: nat)
    requires IsRun(states, events) && i <= k < |states|
    ensures Extends(states[i], states[k])
    decreases k
  {
    if i < k {
      RunExtends(states, events, i, k - 1);
      assert Step(states[k - 1], events[k - 1], states[k]);
      StepExtends(states[k - 1], events[k - 1]);
    }
  }

  /** All successes under one device and key name the same job and files and sent the same manifest. */
  lemma SuccessesAgree(states: seq<State>, events: seq<Event>, i: nat, c: nat, d: nat)
    requires IsRun(states, events) && i < |states|
    requires c in states[i].calls && d in states[i].calls
    requires SameKey(states[i].calls[c], states[i].calls[d])
    requires states[i].calls[c].stage.Created? && states[i].calls[d].stage.Created?
    ensures states[i].calls[c].stage == states[i].calls[d].stage
    ensures states[i].calls[c].manifest == states[i].calls[d].manifest
  {
    ReachableInv(states, events, i);
    assert CallOk(states[i], states[i].calls[c]) && CallOk(states[i], states[i].calls[d]);
  }

  /** A conflict is only ever reported when another manifest was really sent under the same key. */
  lemma ConflictIsReal(states: seq<State>, events: seq<Event>, i: nat, c: nat)
    requires IsRun(states, events) && i < |states|
    requires c in states[i].calls && states[i].calls[c].stage == KeyConflict
    ensures exists d :: && d in states[i].calls && d != c
                        && SameKey(states[i].calls[d], states[i].calls[c])
                        && states[i].calls[d].manifest != states[i].calls[c].manifest
  {
    ReachableInv(states, events, i);
    assert CallOk(states[i], states[i].calls[c]);
  }

  /** Once a key has its job, a new call gets that job if it sends the same manifest and a conflict otherwise. */
  lemma BoundKeyAnswers(states: seq<State>, events: seq<Event>, i: nat, c: nat, d: nat)
    requires IsRun(states, events) && i < |events| && c in states[i].calls && d in states[i].calls
    requires states[i].calls[c].stage.Created? && SameKey(states[i].calls[c], states[i].calls[d])
    requires states[i].calls[d].stage == LookForJob && events[i].Advance? && events[i].c == d
    ensures states[i + 1].calls[d].stage ==
            if states[i].calls[d].manifest == states[i].calls[c].manifest then states[i].calls[c].stage else KeyConflict
  {
    ReachableInv(states, events, i);
    assert CallOk(states[i], states[i].calls[c]);
    assert Step(states[i], events[i], states[i + 1]);
  }

  /** No file is attached twice, neither across jobs nor inside one. */
  lemma FileBelongsToOneJob(states: seq<State>, events: seq<Event>, n: nat, k: JobKey, i: nat, l: JobKey, m: nat)
    requires IsRun(states, events) && n < |states|
    requires k in states[n].jobs && i < |states[n].jobs[k].files|
    requires l in states[n].jobs && m < |states[n].jobs[l].files|
    requires states[n].jobs[k].files[i] == states[n].jobs[l].files[m]
    ensures k == l && i == m
  {
    var s := states[n];
    ReachableInv(states, events, n);
    assert JobOk(s, k) && JobOk(s, l);
    var x, y := s.calls[s.jobs[k].creator], s.calls[s.jobs[l].creator];
    assert CallOk(s, x) && CallOk(s, y);
    assert Holds(s, x, i, s.jobs[k].files[i]) && Holds(s, y, m, s.jobs[l].files[m]);
    FilesIdentifyCalls(s, x, i, y, m, s.jobs[k].files[i]);
  }

  /** A file held by a call and attached to a job ties the two to one key. */
  lemma AttachedUnderOwnKey(s: State, x: Call, ids: seq<nat>, k: JobKey, id: nat)
    requires Inv(s) && ValidCall(x) && HoldsAll(s, x, ids) && id in ids
    requires k in s.jobs && id in s.jobs[k].files
    ensures k == JobKeyOf(x)
  {
    assert JobOk(s, k);
    var y := s.calls[s.jobs[k].creator];
    assert CallOk(s, y);
    var i :| 0 <= i < |ids| && ids[i] == id;
    var m :| 0 <= m < |s.jobs[k].files| && s.jobs[k].files[m] == id;
    assert Holds(s, x, i, ids[i]) && Holds(s, y, m, s.jobs[k].files[m]);
    FilesIdentifyCalls(s, x, i, y, m, id);
  }

  /** A call that can insert its job finds its uploads attached to no other job. */
  lemma NotTaken(s: State, c: nat)
    requires Inv(s) && c in s.calls && s.calls[c].stage.InsertJob? && JobKeyOf(s.calls[c]) !in s.jobs
    ensures !FileTaken(s, s.calls[c].stage.ids)
  {
    var x := s.calls[c];
    assert CallOk(s, x);
    forall k, id | k in s.jobs && id in x.stage.ids ensures id !in s.jobs[k].files {
      if id in s.jobs[k].files {
        AttachedUnderOwnKey(s, x, x.stage.ids, k, id);
      }
    }
  }

  /** The unique key on attached files is never what refuses a job: an unbound key's uploads are unattached. */
  lemma UploadsAreFree(states: seq<State>, events: seq<Event>, n: nat, c: nat)
    requires IsRun(states, events) && n < |states|
    requires c in states[n].calls && states[n].calls[c].stage.InsertJob?
    requires JobKeyOf(states[n].calls[c]) !in states[n].jobs
    ensures !FileTaken(states[n], states[n].calls[c].stage.ids)
  {
    ReachableInv(states, events, n);
    NotTaken(states[n], c);
  }
}
