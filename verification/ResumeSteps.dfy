/** Every move keeps the joint invariant. */
module ResumeSteps {
  import opened Common
  import opened Rows
  import opened Parts
  import opened Outbox
  import opened OutboxProgress
  import opened OutboxRuns
  import L = Lifecycle
  import I = LifecycleInvariant
  import R = LifecycleRuns
  import opened Resume
  import opened ResumeInvariant
  import opened ResumeExchange

  function NextMine(x: Joint, m: Move): set<nat> {
    if m.ServeNewJob? then x.mine + (set f | f in m.files) else x.mine
  }

  lemma ServerMoves(x: Joint, m: Move)
    requires I.Inv(x.server) && Possible(x, m)
    ensures L.JobsKnown(x.server) && I.Inv(NextServer(x, m)) && I.Grows(x.server, NextServer(x, m))
  {
    assert L.JobsKnown(x.server);
    var a := ServerAction(x, m);
    if a.Some? {
      R.StepKeepsInv(x.server, a.value);
    } else {
      R.GrowsReflexive(x.server);
    }
  }

  lemma KeysStep(s: L.System, a: L.Action)
    requires L.Enabled(s, a) && OneJobPerKey(s.jobs)
    ensures OneJobPerKey(L.NextJobs(s, a))
  {
  }

  // ----- the files of this workstation -----

  /** A server step outside this workstation's uploads leaves its objects whole. */
  lemma FileElsewhere(x: Joint, a: L.Action, f: nat)
    requires L.JobsKnown(x.server) && L.Enabled(x.server, a)
    requires I.DeliveryInv(x.server) && WorkersInv(x)
    requires f in x.mine && f in x.server.files && FileIntact(x.server.files[f], L.Stored(x.server, f))
    requires (a.Complete? || a.CompleteLost?) && a.f == f ==> a.content == Original(x.server.files[f])
    ensures f in L.NextFiles(x.server, a)
    ensures FileIntact(L.NextFiles(x.server, a)[f], L.Stored(L.Apply(x.server, a), f))
  {
  }

  lemma WorkerElsewhere(x: Joint, a: L.Action, d: nat)
    requires L.JobsKnown(x.server) && L.Enabled(x.server, a)
    requires I.DeliveryInv(x.server) && WorkersInv(x)
    requires forall f :: f in x.mine ==> f in x.server.files && FileIntact(x.server.files[f], L.Stored(x.server, f))
    requires var t := L.NextDeliveries(x.server, a); d in t && t[d].file in x.mine && t[d].pc.Scanned?
    ensures Harmless(L.NextDeliveries(x.server, a)[d].pc.result)
  {
    if L.OwnStep(a) && a.d == d {
      var f := x.server.deliveries[d].file;
      assert FileIntact(x.server.files[f], L.Stored(x.server, f));
    }
  }

  /** All parts named and all parts intact: what storage puts together is the original. */
  lemma AssemblyIsOriginal(row: FileRow, parts: seq<Piece>, stored: map<nat, Bytes>)
    requires NamesAll(row, parts) && PartsIntact(row, stored) && PartsMatch(parts, stored)
    ensures Assembled(parts, stored) == Original(row)
  {
    var pieces := seq(|parts|, i requires 0 <= i < |parts| => assert parts[i] in parts; stored[parts[i].number]);
    forall i | 0 <= i < |parts| ensures pieces[i] == PartsOf(Original(row))[i] {
      assert parts[i] in parts;
      assert IsPart(row, parts[i].number, stored[parts[i].number]);
    }
    assert pieces == PartsOf(Original(row));
    PartsReassemble(Original(row));
  }

  /** What a move does to storage assembles to the original, where it completes one of these files. */
  lemma OwnAssembly(x: Joint, m: Move, f: nat)
    requires Possible(x, m) && f in x.mine && f in x.server.files
    requires ExchangeInv(x) && MineInv(x)
    ensures var a := ServerAction(x, m);
      a.Some? && (a.value.Complete? || a.value.CompleteLost?) && a.value.f == f ==>
          a.value.content == Original(x.server.files[f])
  {
    if m.ServeAssembly? && m.request.file == f {
      assert RequestOk(x.server, x.mine, m.request);
      AssemblyIsOriginal(x.server.files[f], m.request.parts, x.multipart[f]);
    }
  }

  lemma FileStep(x: Joint, m: Move, f: nat)
    requires JointInv(x) && Possible(x, m) && L.JobsKnown(x.server)
    requires f in NextMine(x, m)
    ensures f in NextServer(x, m).files
    ensures FileIntact(NextServer(x, m).files[f], L.Stored(NextServer(x, m), f))
  {
    var a := ServerAction(x, m);
    if f in x.mine {
      if a.Some? {
        OwnAssembly(x, m, f);
        FileElsewhere(x, a.value, f);
      }
    } else {
      NewFile(x, m, f);
    }
  }

  /** The files of a new job start intact. */
  lemma NewFile(x: Joint, m: Move, f: nat)
    requires ExchangeInv(x) && Possible(x, m) && L.JobsKnown(x.server)
    requires m.ServeNewJob? && f in m.files
    ensures f in x.server.files && f !in x.mine && FileIntact(x.server.files[f], L.Stored(x.server, f))
    ensures f in NextServer(x, m).files
    ensures FileIntact(NextServer(x, m).files[f], L.Stored(NextServer(x, m), f))
  {
    var i :| 0 <= i < |m.files| && m.files[i] == f;
    assert FreshUpload(x, f, m.request.manifest.items[i]);
    assert RequestOk(x.server, x.mine, m.request);
    assert m.request.manifest.items[i] in m.request.manifest.items;
  }

  lemma PartsKept(row: FileRow, next: FileRow, stored: map<nat, Bytes>)
    requires next.sha256 == row.sha256 && PartsIntact(row, stored)
    ensures PartsIntact(next, stored)
  {
  }

  lemma MultipartStep(x: Joint, m: Move, f: nat)
    requires MineInv(x) && ExchangeInv(x) && Possible(x, m) && L.JobsKnown(x.server)
    requires I.Grows(x.server, NextServer(x, m))
    requires f in x.multipart && f in NextMultipart(x, m) && (m.ServeNewJob? ==> f !in m.files)
    ensures f in x.server.files && f in NextServer(x, m).files
    ensures PartsIntact(NextServer(x, m).files[f], NextMultipart(x, m)[f])
  {
    var row := x.server.files[f];
    assert I.FileGrows(row, NextServer(x, m).files[f]);
    if m.ServePut? && m.request.file == f {
      assert RequestOk(x.server, x.mine, m.request);
      assert PartsIntact(row, WithPart(x.multipart[f], m.request.number, m.request.content));
    }
    PartsKept(row, NextServer(x, m).files[f], NextMultipart(x, m)[f]);
  }

  lemma PartsStep(x: Joint, m: Move, f: nat)
    requires MineInv(x) && ExchangeInv(x) && Possible(x, m) && L.JobsKnown(x.server)
    requires I.Grows(x.server, NextServer(x, m))
    requires f in NextMultipart(x, m)
    ensures f in NextMine(x, m) && f in NextServer(x, m).files
    ensures PartsIntact(NextServer(x, m).files[f], NextMultipart(x, m)[f])
  {
    if f in x.multipart && (m.ServeNewJob? ==> f !in m.files) {
      MultipartStep(x, m, f);
    } else {
      NewFile(x, m, f);
    }
  }

  lemma MineStep(x: Joint, m: Move)
    requires JointInv(x) && Possible(x, m) && L.JobsKnown(x.server)
    requires I.Grows(x.server, NextServer(x, m))
    ensures MineInv(Next(x, m))
  {
    forall f | f in NextMine(x, m)
      ensures f in NextServer(x, m).files && FileIntact(NextServer(x, m).files[f], L.Stored(NextServer(x, m), f))
    {
      FileStep(x, m, f);
    }
    forall f | f in NextMultipart(x, m)
      ensures f in NextMine(x, m) && f in NextServer(x, m).files
      ensures PartsIntact(NextServer(x, m).files[f], NextMultipart(x, m)[f])
    {
      PartsStep(x, m, f);
    }
  }

  /** Nobody scans a file that is still being provisioned. */
  lemma NoWorkerYet(x: Joint, m: Move, d: nat)
    requires I.DeliveryInv(x.server) && Possible(x, m) && m.ServeNewJob?
    requires d in x.server.deliveries && x.server.deliveries[d].file in m.files
    ensures !x.server.deliveries[d].pc.Scanned?
  {
    var f := x.server.deliveries[d].file;
    var i :| 0 <= i < |m.files| && m.files[i] == f;
    assert FreshUpload(x, f, m.request.manifest.items[i]);
    assert I.DeliveryOk(x.server.files[f], L.Stored(x.server, f), f in x.server.scanLog, x.server.deliveries[d].pc);
  }

  lemma WorkerStep(x: Joint, m: Move, d: nat)
    requires I.DeliveryInv(x.server) && WorkersInv(x) && MineInv(x) && Possible(x, m) && L.JobsKnown(x.server)
    requires var t := NextServer(x, m).deliveries; d in t && t[d].file in NextMine(x, m) && t[d].pc.Scanned?
    ensures Harmless(NextServer(x, m).deliveries[d].pc.result)
  {
    if m.ServeNewJob? {
      if x.server.deliveries[d].file in m.files {
        NoWorkerYet(x, m, d);
      }
    } else if ServerAction(x, m).Some? {
      WorkerElsewhere(x, ServerAction(x, m).value, d);
    }
  }

  // ----- requests and answers -----

  lemma ViewOk(x: Joint, d: nat, request: Request, j: nat)
    requires OwnFiles(x) && ExchangeInv(x) && Possible(x, ServeJobView(d, request, j))
    ensures ReplyOk(x.server, x.mine, d, request,
                    JobView(j, x.server.jobs[j].status, Listed(x.server.files, x.server.jobs[j])))
  {
    assert d in x.own;
    ViewOrderMembers(x.server.jobs[j].attachments);
  }

  /** The answer to a submit is the result the job has from that commit on. */
  lemma ResultOk(s: L.System, a: L.Action)
    requires L.JobsKnown(s) && L.Enabled(s, a) && a.CommitJob? && I.AuditInv(L.Apply(s, a))
    requires L.NextJobs(s, a)[a.j].status != JobUploading
    ensures EvidenceAgrees(EvidenceOf(a.j, L.NextJobs(s, a)[a.j]), L.NextJobs(s, a)[a.j])
  {
    var t := L.Apply(s, a);
    assert I.JobRecorded(t.audit, a.j, t.jobs[a.j], t.clock);
  }

  lemma AnswerOk(x: Joint, m: Move, a: Answer)
    requires OwnFiles(x) && ExchangeInv(x) && Possible(x, m) && L.JobsKnown(x.server)
    requires I.AuditInv(NextServer(x, m))
    requires a in NewAnswers(x, m)
    ensures ReplyOk(NextServer(x, m), NextMine(x, m), a.device, a.request, a.reply)
  {
    if m.ServeJobView? {
      ViewOk(x, m.d, m.request, m.j);
    } else if m.Elsewhere? {
      ResultOk(x.server, m.a);
    }
  }

  /** A job that was there before keeps its device and its attachments. */
  lemma OldJob(x: Joint, m: Move, j: nat)
    requires Possible(x, m) && L.JobsKnown(x.server)
    requires I.RowsInv(x.server) && I.JobInv(x.server)
    requires j in x.server.jobs
    ensures j in NextServer(x, m).jobs
    ensures NextServer(x, m).jobs[j].device == x.server.jobs[j].device
    ensures NextServer(x, m).jobs[j].attachments == x.server.jobs[j].attachments
  {
    if ServerAction(x, m).Some? {
      I.JobsGrow(x.server, ServerAction(x, m).value);
    }
  }

  lemma NewFilesAreMine(x: Joint, m: Move, j: nat)
    requires Possible(x, m) && L.JobsKnown(x.server)
    requires j !in x.server.jobs && j in NextServer(x, m).jobs && NextServer(x, m).jobs[j].device in x.own
    ensures forall a :: a in NextServer(x, m).jobs[j].attachments ==> a.file in NextMine(x, m)
  {
  }

  lemma OwnFilesStep(x: Joint, m: Move)
    requires OwnFiles(x) && Possible(x, m) && L.JobsKnown(x.server)
    requires I.RowsInv(x.server) && I.JobInv(x.server)
    ensures OwnFiles(Next(x, m))
  {
    forall j | OwnJob(Next(x, m), j)
      ensures forall a :: a in NextServer(x, m).jobs[j].attachments ==> a.file in NextMine(x, m)
    {
      if j in x.server.jobs {
        OldJob(x, m, j);
        assert JobOf(x, x.server.jobs[j].device, j);
      } else {
        NewFilesAreMine(x, m, j);
      }
    }
  }

  /** The documents of the connector after a move, against the server as it was. */
  lemma LocalDocuments(x: Joint, ev: Event)
    requires I.RowsInv(x.server) && ConnectorInv(x.connector) && ExchangeInv(x) && DocumentsAgree(x)
    requires Possible(x, Local(ev))
    ensures var c := After(x.connector, ev);
      && (c.disk.Some? ==> EntryAgrees(x.server, x.mine, c.disk.value))
      && (c.pc.Saving? ==> EntryAgrees(x.server, x.mine, c.pc.next))
  {
    if ev.Receive? {
      var request := x.connector.pc.request;
      assert ReplyOk(x.server, x.mine, x.device, request, ev.reply) by {
        assert Answer(x.device, request, ev.reply) in x.answers;
      }
      SentOk(x.server, x.mine, x.connector.disk.value, request);
      UpdatedAgrees(x.server, x.mine, x.device, x.connector.disk.value, request, ev.reply);
    } else if ev.Advance? {
      var e := x.connector.disk.value;
      assert e.(phase := SUBMIT).attachments == e.attachments;
    }
  }

  lemma DocumentsStep(x: Joint, m: Move)
    requires I.RowsInv(x.server) && ConnectorInv(x.connector) && ExchangeInv(x) && DocumentsAgree(x)
    requires Possible(x, m) && L.JobsKnown(x.server)
    requires I.Grows(x.server, NextServer(x, m))
    ensures DocumentsAgree(Next(x, m))
  {
    var c := Next(x, m).connector;
    if m.Local? {
      LocalDocuments(x, m.ev);
    }
    if c.disk.Some? {
      EntryKept(x.server, NextServer(x, m), x.mine, NextMine(x, m), c.disk.value);
    }
    if c.pc.Saving? {
      EntryKept(x.server, NextServer(x, m), x.mine, NextMine(x, m), c.pc.next);
    }
  }

  lemma RequestsStep(x: Joint, m: Move, d: nat, r: Request)
    requires ConnectorInv(x.connector) && ExchangeInv(x) && DocumentsAgree(x)
    requires Possible(x, m) && L.JobsKnown(x.server)
    requires I.Grows(x.server, NextServer(x, m))
    requires Sent(d, r) in x.sent || (m == Local(Send(r)) && d == x.device)
    ensures d in x.own && RequestOk(NextServer(x, m), NextMine(x, m), r)
  {
    if Sent(d, r) !in x.sent {
      SentOk(x.server, x.mine, x.connector.disk.value, r);
    }
    RequestKept(x.server, NextServer(x, m), x.mine, NextMine(x, m), r);
  }

  lemma ExchangeStep(x: Joint, m: Move)
    requires JointInv(x) && Possible(x, m) && L.JobsKnown(x.server)
    requires I.Grows(x.server, NextServer(x, m)) && I.AuditInv(NextServer(x, m))
    ensures ExchangeInv(Next(x, m))
  {
    var y := Next(x, m);
    forall q | q in y.sent ensures q.device in y.own && RequestOk(y.server, y.mine, q.request) {
      RequestsStep(x, m, q.device, q.request);
    }
    forall a | a in y.answers ensures ReplyOk(y.server, y.mine, a.device, a.request, a.reply) {
      if a in x.answers {
        ReplyKept(x.server, y.server, x.mine, y.mine, a.device, a.request, a.reply);
      } else {
        AnswerOk(x, m, a);
      }
    }
  }

  lemma WorkersStep(x: Joint, m: Move)
    requires I.DeliveryInv(x.server) && WorkersInv(x) && MineInv(x) && Possible(x, m) && L.JobsKnown(x.server)
    ensures WorkersInv(Next(x, m))
  {
    forall d | d in NextServer(x, m).deliveries && NextServer(x, m).deliveries[d].file in NextMine(x, m)
                 && NextServer(x, m).deliveries[d].pc.Scanned?
      ensures Harmless(NextServer(x, m).deliveries[d].pc.result)
    {
      WorkerStep(x, m, d);
    }
  }

  lemma JobKeysStep(x: Joint, m: Move)
    requires OneJobPerKey(x.server.jobs) && Possible(x, m) && L.JobsKnown(x.server)
    ensures OneJobPerKey(NextServer(x, m).jobs)
  {
    if ServerAction(x, m).Some? {
      KeysStep(x.server, ServerAction(x, m).value);
    }
  }

  lemma ConnectorMoves(x: Joint, m: Move)
    requires ConnectorInv(x.connector) && Possible(x, m) && L.JobsKnown(x.server)
    ensures ConnectorInv(Next(x, m).connector)
  {
    if m.Local? {
      ConnectorStep(x.connector, m.ev);
    }
  }

  lemma JointStep(x: Joint, m: Move)
    requires JointInv(x) && Possible(x, m)
    ensures L.JobsKnown(x.server) && JointInv(Next(x, m)) && I.Grows(x.server, Next(x, m).server)
  {
    ServerMoves(x, m);
    ConnectorMoves(x, m);
    JobKeysStep(x, m);
    OwnFilesStep(x, m);
    MineStep(x, m);
    WorkersStep(x, m);
    ExchangeStep(x, m);
    DocumentsStep(x, m);
  }
}
