/** A run in which the last delivery that owes a job is lost: the job waits although its file decides it. */
module LifecycleWitness {
  import opened Common
  import opened Rows
  import opened Lifecycle
  import opened LifecycleInvariant
  import opened LifecycleWake
  import opened LifecycleRuns

  const CONTENT: Bytes := [7]
  const ATTACHMENTS := [Attachment(K3_RAW, 0)]
  const WAIT := Evaluation(JobScanning, None)

  const ROW := FileRow(Uploading, None, 1, Sha256(CONTENT), 0)
  const JOB := JobRow(0, 0, None, ATTACHMENTS, JobUploading, None, None, 0, 0)
  const SUBMITTED := JOB.(status := JobScanning, submittedAt := Some(0))
  const ENTRY := AuditRow(ImportSubmit, 0, JobScanning, None)

  const S1 := INITIAL.(files := map[0 := ROW])
  const S2 := S1.(jobs := map[0 := JOB])
  const S3 := S2.(files := map[0 := ROW.(state := Quarantined)], objects := map[0 := CONTENT])
  const S4 := S3.(locks := map[0 := Txn(ByDevice, Some(WAIT))])
  const S5 := S3.(jobs := map[0 := SUBMITTED], audit := [ENTRY])
  const S6 := S5.(deliveries := map[0 := Delivery(0, Queued)])
  const S7 := S5.(files := map[0 := ROW.(state := Scanning)],
                  deliveries := map[0 := Delivery(0, ToScan(Sha256(CONTENT)))])
  const S8 := S7.(deliveries := map[0 := Delivery(0, Scanned(Clean, NoThreat))], scanLog := [0])
  const S9 := S8.(files := map[0 := ROW.(state := Clean, scanResult := Some(NoThreat))],
                  deliveries := map[0 := Delivery(0, OwesReconcile)])
  const S10 := S9.(deliveries := map[])

  const STATES := [INITIAL, S1, S2, S3, S4, S5, S6, S7, S8, S9, S10]

  const ACTIONS := [
    CreateFile(0, 1, Sha256(CONTENT)),
    CreateJob(0, 0, 0, None, ATTACHMENTS),
    Complete(0, CONTENT),
    LockForSubmit(0, true),
    CommitJob(0),
    Enqueue(0, 0),
    BeginScan(0),
    StreamAndScan(0, Some(VerdictClean)),
    CommitScan(0),
    KillDelivery(0, false)]

  lemma Step0()
    ensures Step(INITIAL, ACTIONS[0], S1)
  {
  }

  lemma Step1()
    ensures Step(S1, ACTIONS[1], S2)
  {
  }

  lemma Step2()
    ensures Step(S2, ACTIONS[2], S3)
  {
  }

  lemma Step3()
    ensures Step(S3, ACTIONS[3], S4)
  {
    Undecided();
  }

  lemma Undecided()
    ensures AttachmentsKnown(S3.files, JOB)
    ensures SubmitWrite(JOB, Observe(S3.files, JOB)) == Some(WAIT)
  {
    var obs := Observe(S3.files, JOB);
    assert obs == [Observation(K3_RAW, Quarantined, Sha256(CONTENT))];
    StatesMeaning(obs);
  }

  lemma Step4()
    ensures Step(S4, ACTIONS[4], S5)
  {
    assert S4.locks - {0} == map[];
  }

  lemma Step5()
    ensures Step(S5, ACTIONS[5], S6)
  {
  }

  lemma Step6()
    ensures Step(S6, ACTIONS[6], S7)
  {
  }

  lemma Step7()
    ensures Step(S7, ACTIONS[7], S8)
  {
  }

  lemma Step8()
    ensures Step(S8, ACTIONS[8], S9)
  {
  }

  lemma Step9()
    ensures Step(S9, ACTIONS[9], S10)
  {
    assert S9.deliveries - {0} == map[];
  }

  /** The delivery was the only one past the verdict, and the job goes on waiting for it. */
  lemma Stranded()
    ensures LosesLast(S9, ACTIONS[9], 0) && !Owed(S10, 0)
    ensures Waiting(S10, 0) && ReadyNow(S10, 0)
  {
    assert SUBMITTED.attachments[0] in SUBMITTED.attachments;
    assert Owes(S9, 0, 0);
    var obs := Observe(S10.files, SUBMITTED);
    assert obs == [Observation(K3_RAW, Clean, Sha256(CONTENT))];
    StatesMeaning(obs);
  }

  lemma TenSteps(states: seq<System>, actions: seq<Action>)
    requires |actions| == 10 && |states| == 11 && states[0] == INITIAL
    requires Step(states[0], actions[0], states[1]) && Step(states[1], actions[1], states[2])
    requires Step(states[2], actions[2], states[3]) && Step(states[3], actions[3], states[4])
    requires Step(states[4], actions[4], states[5]) && Step(states[5], actions[5], states[6])
    requires Step(states[6], actions[6], states[7]) && Step(states[7], actions[7], states[8])
    requires Step(states[8], actions[8], states[9]) && Step(states[9], actions[9], states[10])
    ensures IsRun(states, actions)
  {
  }

  lemma StatesInOrder()
    ensures STATES[0] == INITIAL && STATES[1] == S1 && STATES[2] == S2 && STATES[3] == S3 && STATES[4] == S4
    ensures STATES[5] == S5 && STATES[6] == S6 && STATES[7] == S7 && STATES[8] == S8 && STATES[9] == S9
    ensures |STATES| == 11 && STATES[10] == S10
  {
  }

  /** The exception of the wake-up result is real: losing the last owing delivery strands a decided job. */
  lemma LosingTheLastDeliveryStrands()
    ensures IsRun(STATES, ACTIONS)
    ensures Waiting(STATES[10], 0) && ReadyNow(STATES[10], 0) && !Owed(STATES[10], 0)
    ensures LosesLast(STATES[9], ACTIONS[9], 0)
  {
    Step0();
    Step1();
    Step2();
    Step3();
    Step4();
    Step5();
    Step6();
    Step7();
    Step8();
    Step9();
    Stranded();
    StatesInOrder();
    TenSteps(STATES, ACTIONS);
  }
}
