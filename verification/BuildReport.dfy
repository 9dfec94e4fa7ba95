/** RunBuildPlan of engine/engine.go around Engine.Run: the build of BuildPlan pushes its statuses into
    the queue of Reporter, the reader of the log of Rendezvous pushes its chunks, and the queue is shut
    down when Run has returned. A goroutine whose send is blocked does not go on. */
module BuildReport {
  import opened Options
  import opened Texts
  import Engine
  import B = BuildPlan
  import L = Rendezvous
  import R = Reporter

  /** Who pushes into the queue: Engine.Run, the command goroutine, and reportLogChunks. */
  datatype Goroutine = MainGoroutine | CommandGoroutine | LogGoroutine

  datatype Payload = JobStatus(effect: B.Effect) | CommandStatus(event: Engine.Event) | LogChunk(chunk: Text)

  function Sender(p: Payload): Goroutine {
    match p
    case JobStatus(_) => MainGoroutine
    case CommandStatus(_) => CommandGoroutine
    case LogChunk(_) => LogGoroutine
  }

  datatype State = State(
    build: B.State,
    log: L.State,
    queue: R.State,
    sent: seq<Payload>,           // the payload of every send, by its number
    last: map<Goroutine, nat>,    // the last send of each goroutine
    pushesChunks: bool)           // whether the reporter is set up to push log chunks

  predicate Init(s: State) {
    && s.build == B.Start() && L.Init(s.log) && R.Init(s.queue)
    && s.sent == [] && s.last == map[]
  }

  /** Engine.Run has returned. */
  predicate Returned(s: State) {
    s.log.main == L.Returned
  }

  /** In Build, `reports` says whether there are metrics to report. */
  datatype Action =
    | Build(a: B.Action, reports: bool)
    | Log(l: L.Event)
    | Close
    | Queue(e: R.Event)

  predicate Waits(s: State, g: Goroutine) {
    g in s.last && R.IsBlocked(s.queue.sends, s.last[g])
  }

  predicate IsCommandAction(a: B.Action) {
    a == B.BeginCommand || a.RunEnds? || a == B.Report || a.Publish?
  }

  /** A rendezvous needs both goroutines; a signal needs none. */
  predicate MayAct(s: State, a: B.Action) {
    && (IsCommandAction(a) || a == B.Receive ==> !Waits(s, CommandGoroutine))
    && (!IsCommandAction(a) && a != B.Cancel ==> !Waits(s, MainGoroutine))
  }

  /** The send that goes with a step of the build, if any: image statuses and artifacts are not sent
      through the queue. */
  function Push(b: B.Build, s: B.State, a: B.Action, reports: bool): Option<Payload>
    requires B.Enabled(b, s, a)
  {
    match a
    case Begin => Some(JobStatus(B.JobInProgress))
    case ReportMetrics => if reports then Some(JobStatus(B.Metrics)) else None
    case Finish => Some(JobStatus(B.JobFinished(s.main.result)))
    case BeginCommand =>
      if s.worker.k < |b.cmds| then Some(CommandStatus(Engine.InProgress(s.worker.k))) else None
    case Report => Some(CommandStatus(Engine.EndOf(b.cmds[s.worker.k], s.worker.run, s.worker.k)))
    case _ => None
  }

  /** The reader of the log waits for its push; the log is closed after the last status of the job. */
  predicate LogMayAct(s: State, e: L.Event) {
    && (e.Meet? || e == L.Push || e == L.Stop ==> !Waits(s, LogGoroutine))
    && (e == L.Close ==> s.build.main.Done? && !Waits(s, MainGoroutine))
  }

  function Chunk(s: State, e: L.Event): Option<Payload>
    requires L.Enabled(s.log, e)
  {
    if e == L.Push && s.pushesChunks then Some(LogChunk(s.log.reader.chunk)) else None
  }

  /** Nothing goes on after a panic. */
  predicate Enabled(b: B.Build, cap: nat, s: State, a: Action) {
    && !s.queue.panicked
    && match a
       case Build(a, _) => B.Enabled(b, s.build, a) && MayAct(s, a)
       case Log(e) => L.Enabled(s.log, e) && LogMayAct(s, e)
       case Close => Returned(s) && s.queue.shutdown == R.NotCalled
       case Queue(e) => R.Enabled(cap, s.queue, e) && !e.BeginSend? && !e.CloseChannel?
  }

  ghost function Send(cap: nat, s: State, p: Option<Payload>): State
    requires p.Some? ==> |s.sent| !in s.queue.sends
  {
    if p.None? then s
    else s.(queue := R.Next(cap, s.queue, R.BeginSend(|s.sent|)), sent := s.sent + [p.value],
            last := s.last[Sender(p.value) := |s.sent|])
  }

  ghost predicate Numbered(s: State) {
    forall id: nat :: id in s.queue.sends <==> id < |s.sent|
  }

  ghost function Next(b: B.Build, cap: nat, s: State, a: Action): State
    requires Numbered(s) && Enabled(b, cap, s, a)
  {
    match a
    case Build(a, reports) =>
      Send(cap, s, Push(b, s.build, a, reports)).(build := B.Next(b, s.build, a))
    case Log(e) => Send(cap, s, Chunk(s, e)).(log := L.Next(s.log, e))
    case Close => s.(queue := R.Next(cap, s.queue, R.CloseChannel))
    case Queue(e) => s.(queue := R.Next(cap, s.queue, e))
  }

  ghost predicate Step(b: B.Build, cap: nat, s: State, s': State) {
    Numbered(s) && exists a :: Enabled(b, cap, s, a) && s' == Next(b, cap, s, a)
  }

  ghost predicate Run(b: B.Build, cap: nat, states: seq<State>) {
    && states != [] && Init(states[0])
    && forall i :: 0 <= i < |states| - 1 ==> Step(b, cap, states[i], states[i + 1])
  }

  // ---------- What every state keeps ----------

  /** Only the last send of a goroutine can be blocked. */
  ghost predicate SendsInv(s: State) {
    && Numbered(s)
    && (forall g :: g in s.last ==> s.last[g] < |s.sent| && Sender(s.sent[s.last[g]]) == g)
    && (forall id: nat :: id < |s.sent| ==> Sender(s.sent[id]) in s.last && id <= s.last[Sender(s.sent[id])])
    && (forall id: nat :: id < |s.sent| && R.IsBlocked(s.queue.sends, id) ==> id == s.last[Sender(s.sent[id])])
  }

  predicate Idle(w: B.Worker) {
    w == B.NotStarted || w.Delivered?
  }

  /** When Run has returned only the command goroutine can have something left to send. */
  predicate OrderInv(s: State) {
    && (s.queue.closed ==> Returned(s))
    && (s.log.closed ==> s.build.main.Done? && !Waits(s, MainGoroutine))
    && (s.log.reader == L.Finished ==> !Waits(s, LogGoroutine))
    && (Idle(s.build.worker) ==> !Waits(s, CommandGoroutine))
  }

  ghost predicate Inv(b: B.Build, cap: nat, s: State) {
    && B.Inv(b, s.build) && B.InRange(b, s.build.worker)
    && L.Inv(s.log) && R.Inv(cap, s.queue)
    && SendsInv(s) && OrderInv(s)
    && (s.queue.panicked ==> s.build.main == B.Done(Engine.Aborted, false) && Returned(s))
  }

  lemma ReturnedSays(s: State)
    requires L.Inv(s.log) && OrderInv(s) && Returned(s)
    ensures s.build.main.Done? && !Waits(s, MainGoroutine) && !Waits(s, LogGoroutine)
    ensures s.log.closed && s.log.reader == L.Finished
  {
  }

  lemma SendKeepsSends(cap: nat, s: State, p: Payload)
    requires SendsInv(s) && !Waits(s, Sender(p))
    ensures SendsInv(Send(cap, s, Some(p)))
    ensures forall g :: g != Sender(p) ==> (Waits(Send(cap, s, Some(p)), g) <==> Waits(s, g))
  {
    var s' := Send(cap, s, Some(p));
    forall id: nat | id < |s'.sent| && R.IsBlocked(s'.queue.sends, id) ensures id == s'.last[Sender(s'.sent[id])] {
      if id < |s.sent| {
        assert R.IsBlocked(s.queue.sends, id);
      }
    }
  }

  lemma QueueKeepsSends(cap: nat, s: State, e: R.Event)
    requires SendsInv(s) && R.Enabled(cap, s.queue, e) && !e.BeginSend?
    ensures SendsInv(s.(queue := R.Next(cap, s.queue, e)))
    ensures forall g :: Waits(s.(queue := R.Next(cap, s.queue, e)), g) ==> Waits(s, g)
  {
    var s' := s.(queue := R.Next(cap, s.queue, e));
    forall id: nat | id < |s'.sent| && R.IsBlocked(s'.queue.sends, id) ensures id == s'.last[Sender(s'.sent[id])] {
      assert R.IsBlocked(s.queue.sends, id);
    }
  }

  /** Who may still panic the program: a command goroutine whose send is blocked or yet to come. */
  predicate MayPush(b: B.Build, w: B.Worker) {
    w.Reporting? || B.RunLeft(b, w)
  }

  predicate Owes(b: B.Build, s: State) {
    Waits(s, CommandGoroutine) || MayPush(b, s.build.worker)
  }

  /** Only an aborted build leaves a command goroutine behind. */
  lemma OnlyAbortedOwes(b: B.Build, cap: nat, s: State)
    requires Inv(b, cap, s) && B.HasResult(s.build.main) && Owes(b, s)
    ensures s.build.main.result == Engine.Aborted && !s.build.main.err
  {
  }

  lemma BlockedOwes(b: B.Build, cap: nat, s: State, id: nat)
    requires SendsInv(s) && L.Inv(s.log) && OrderInv(s) && Returned(s) && R.IsBlocked(s.queue.sends, id)
    ensures Waits(s, CommandGoroutine)
  {
    ReturnedSays(s);
    var g := Sender(s.sent[id]);
    assert id == s.last[g] && Waits(s, g);
  }

  lemma BuildMoves(b: B.Build, s: B.State, a: B.Action)
    requires B.Inv(b, s) && B.InRange(b, s.worker) && B.Enabled(b, s, a)
    ensures B.Inv(b, B.Next(b, s, a)) && B.InRange(b, B.Next(b, s, a).worker)
  {
    B.StepProgresses(b, s, a);
    B.StepKeepsInv(b, s, a);
  }

  lemma SendKeepsQueue(cap: nat, s: State, p: Option<Payload>)
    requires Numbered(s) && R.Inv(cap, s.queue)
    ensures R.Inv(cap, Send(cap, s, p).queue)
    ensures Send(cap, s, p).queue.closed == s.queue.closed
    ensures Send(cap, s, p).queue.panicked <==> s.queue.panicked || (p.Some? && s.queue.closed)
  {
    if p.Some? {
      R.StepKeepsInv(cap, s.queue, R.BeginSend(|s.sent|));
    }
  }

  lemma PushComesFrom(b: B.Build, s: B.State, a: B.Action, reports: bool)
    requires B.Enabled(b, s, a) && Push(b, s, a, reports).Some?
    ensures Sender(Push(b, s, a, reports).value) == if IsCommandAction(a) then CommandGoroutine else MainGoroutine
    ensures a != B.Receive && a != B.Cancel
    ensures IsCommandAction(a) ==> MayPush(b, s.worker)
    ensures s.main.Done? ==> IsCommandAction(a)
  {
  }

  /** When the command goroutine is not yet there or gone after a step, it has not sent anything in
      that step, and before it was so too or it handed over its result. */
  lemma IdleFrom(b: B.Build, s: B.State, a: B.Action)
    requires B.Enabled(b, s, a) && Idle(B.Next(b, s, a).worker)
    ensures !IsCommandAction(a) && (a == B.Receive || Idle(s.worker))
  {
  }

  lemma DoneStays(b: B.Build, s: B.State, a: B.Action)
    requires B.Enabled(b, s, a) && s.main.Done?
    ensures B.Next(b, s, a).main == s.main
  {
  }

  lemma BuildKeepsOrder(b: B.Build, cap: nat, s: State, a: B.Action, reports: bool)
    requires SendsInv(s) && OrderInv(s) && R.Inv(cap, s.queue) && Enabled(b, cap, s, Build(a, reports))
    ensures OrderInv(Next(b, cap, s, Build(a, reports)))
  {
    hide R.Inv, B.Next, B.Enabled, Push;
    var s' := Next(b, cap, s, Build(a, reports));
    var p := Push(b, s.build, a, reports);
    SendKeepsQueue(cap, s, p);
    if p.Some? {
      PushComesFrom(b, s.build, a, reports);
      SendKeepsSends(cap, s, p.value);
    }
    if s.build.main.Done? {
      DoneStays(b, s.build, a);
    }
    if Idle(s'.build.worker) {
      IdleFrom(b, s.build, a);
    }
  }

  lemma BuildKeepsSends(b: B.Build, cap: nat, s: State, a: B.Action, reports: bool)
    requires SendsInv(s) && Enabled(b, cap, s, Build(a, reports))
    ensures SendsInv(Next(b, cap, s, Build(a, reports)))
  {
    var p := Push(b, s.build, a, reports);
    if p.Some? {
      PushComesFrom(b, s.build, a, reports);
      SendKeepsSends(cap, s, p.value);
    }
  }

  lemma BuildPanics(b: B.Build, cap: nat, s: State, a: B.Action, reports: bool)
    requires Inv(b, cap, s) && Enabled(b, cap, s, Build(a, reports))
    requires Next(b, cap, s, Build(a, reports)).queue.panicked
    ensures s.build.main == B.Done(Engine.Aborted, false) && IsCommandAction(a) && Returned(s)
  {
    SendKeepsQueue(cap, s, Push(b, s.build, a, reports));
    ReturnedSays(s);
    PushComesFrom(b, s.build, a, reports);
    OnlyAbortedOwes(b, cap, s);
  }

  lemma BuildKeepsInv(b: B.Build, cap: nat, s: State, a: B.Action, reports: bool)
    requires Inv(b, cap, s) && Enabled(b, cap, s, Build(a, reports))
    ensures Inv(b, cap, Next(b, cap, s, Build(a, reports)))
  {
    BuildMoves(b, s.build, a);
    SendKeepsQueue(cap, s, Push(b, s.build, a, reports));
    BuildKeepsSends(b, cap, s, a, reports);
    BuildKeepsOrder(b, cap, s, a, reports);
    if Next(b, cap, s, Build(a, reports)).queue.panicked {
      BuildPanics(b, cap, s, a, reports);
      DoneStays(b, s.build, a);
    }
  }

  lemma QueueKeepsInv(b: B.Build, cap: nat, s: State, e: R.Event)
    requires Inv(b, cap, s) && Enabled(b, cap, s, Queue(e))
    ensures Inv(b, cap, Next(b, cap, s, Queue(e)))
  {
    R.StepKeepsInv(cap, s.queue, e);
    QueueKeepsSends(cap, s, e);
  }

  lemma CloseKeepsInv(b: B.Build, cap: nat, s: State)
    requires Inv(b, cap, s) && Enabled(b, cap, s, Close)
    ensures Inv(b, cap, Next(b, cap, s, Close))
  {
    R.StepKeepsInv(cap, s.queue, R.CloseChannel);
    QueueKeepsSends(cap, s, R.CloseChannel);
    if R.SomeoneBlocked(s.queue.sends) {
      var id :| R.IsBlocked(s.queue.sends, id);
      BlockedOwes(b, cap, s, id);
      OnlyAbortedOwes(b, cap, s);
    }
  }

  lemma LogKeepsOrder(cap: nat, s: State, e: L.Event)
    requires SendsInv(s) && L.Inv(s.log) && OrderInv(s) && L.Enabled(s.log, e) && LogMayAct(s, e)
    ensures OrderInv(Send(cap, s, Chunk(s, e)).(log := L.Next(s.log, e)))
    ensures SendsInv(Send(cap, s, Chunk(s, e)).(log := L.Next(s.log, e)))
    ensures Chunk(s, e).Some? ==> !Returned(s) && !s.queue.closed
  {
    if Chunk(s, e).Some? {
      SendKeepsSends(cap, s, Chunk(s, e).value);
    }
  }

  lemma LogKeepsInv(b: B.Build, cap: nat, s: State, e: L.Event)
    requires Inv(b, cap, s) && Enabled(b, cap, s, Log(e))
    ensures Inv(b, cap, Next(b, cap, s, Log(e)))
  {
    assert Numbered(s);
    hide B.Inv, R.Inv, L.Inv, SendsInv, OrderInv, Chunk, L.Next, L.Enabled;
    LogKeepsOrder(cap, s, e);
    SendKeepsQueue(cap, s, Chunk(s, e));
    L.StepKeepsInv(s.log, e);
  }

  lemma StepKeepsInv(b: B.Build, cap: nat, s: State, a: Action)
    requires Inv(b, cap, s) && Enabled(b, cap, s, a)
    ensures Inv(b, cap, Next(b, cap, s, a))
  {
    match a
    case Build(a, reports) => BuildKeepsInv(b, cap, s, a, reports);
    case Log(e) => LogKeepsInv(b, cap, s, e);
    case Close => CloseKeepsInv(b, cap, s);
    case Queue(e) => QueueKeepsInv(b, cap, s, e);
  }

  lemma StepFromInv(b: B.Build, cap: nat, s: State, s': State)
    requires Inv(b, cap, s) && Step(b, cap, s, s')
    ensures Inv(b, cap, s')
  {
    hide Inv, Enabled, Next;
    var a :| Enabled(b, cap, s, a) && s' == Next(b, cap, s, a);
    StepKeepsInv(b, cap, s, a);
  }

  lemma {:induction false} RunKeepsInv(b: B.Build, cap: nat, states: seq<State>, i: nat)
    requires Run(b, cap, states) && i < |states|
    ensures Inv(b, cap, states[i])
  {
    hide Step;
    if i > 0 {
      RunKeepsInv(b, cap, states, i - 1);
      StepFromInv(b, cap, states[i - 1], states[i]);
    }
  }

  /** A panic happens only in an aborted build, after Run has returned. */
  lemma OnlyAbortedPanics(b: B.Build, cap: nat, states: seq<State>, i: nat)
    requires Run(b, cap, states) && i < |states| && states[i].queue.panicked
    ensures states[i].build.main == B.Done(Engine.Aborted, false) && Returned(states[i])
  {
    RunKeepsInv(b, cap, states, i);
  }

  // ---------- In which order the statuses are reported ----------

  ghost predicate SameSender(s: State, x: nat, y: nat)
    requires x < |s.queue.accepted| && y < |s.queue.accepted|
  {
    && s.queue.accepted[x] < |s.sent| && s.queue.accepted[y] < |s.sent|
    && Sender(s.sent[s.queue.accepted[x]]) == Sender(s.sent[s.queue.accepted[y]])
  }

  /** Of two sends of one goroutine the channel has taken the earlier one first. */
  ghost predicate InOrder(s: State) {
    && (forall x :: 0 <= x < |s.queue.accepted| ==> s.queue.accepted[x] < |s.sent|)
    && (forall x, y :: 0 <= x < y < |s.queue.accepted| && SameSender(s, x, y) ==> s.queue.accepted[x] < s.queue.accepted[y])
  }

  predicate IsStatus(e: Engine.Event) {
    e.InProgress? || e.Finished?
  }

  /** The events of commands that are statuses, not work. */
  function Statuses(events: seq<Engine.Event>): seq<Engine.Event> {
    if events == [] then []
    else
      var e := events[|events| - 1];
      Statuses(events[..|events| - 1]) + if IsStatus(e) then [e] else []
  }

  /** What the command goroutine has sent. */
  function CommandsSent(sent: seq<Payload>): seq<Engine.Event> {
    if sent == [] then []
    else
      var p := sent[|sent| - 1];
      CommandsSent(sent[..|sent| - 1]) + if p.CommandStatus? then [p.event] else []
  }

  /** What the reader of the log has sent. */
  function ChunksSent(sent: seq<Payload>): seq<Text> {
    if sent == [] then []
    else
      var p := sent[|sent| - 1];
      ChunksSent(sent[..|sent| - 1]) + if p.LogChunk? then [p.chunk] else []
  }

  lemma AcceptKeepsOrder(cap: nat, s: State, e: R.Event)
    requires R.Inv(cap, s.queue) && SendsInv(s) && InOrder(s)
    requires R.Enabled(cap, s.queue, e) && (e.Enqueue? || e.Handoff?)
    ensures InOrder(s.(queue := R.Next(cap, s.queue, e)))
  {
    var s' := s.(queue := R.Next(cap, s.queue, e));
    var n := |s.queue.accepted|;
    assert e.id in s.queue.sends && e.id == s.last[Sender(s.sent[e.id])];
    forall x, y | 0 <= x < y < |s'.queue.accepted| && SameSender(s', x, y)
      ensures s'.queue.accepted[x] < s'.queue.accepted[y]
    {
      if y == n {
        assert s.queue.accepted[x] in s.queue.accepted;
      } else {
        assert SameSender(s, x, y);
      }
    }
  }

  lemma SendKeepsOrder(cap: nat, s: State, p: Payload)
    requires Numbered(s) && InOrder(s)
    ensures InOrder(Send(cap, s, Some(p)))
  {
    var s' := Send(cap, s, Some(p));
    forall x, y | 0 <= x < y < |s'.queue.accepted| && SameSender(s', x, y)
      ensures s'.queue.accepted[x] < s'.queue.accepted[y]
    {
      assert SameSender(s, x, y);
    }
  }

  lemma OrderOfParts(s: State, s': State)
    requires InOrder(s) && s'.sent == s.sent && s'.queue.accepted == s.queue.accepted
    ensures InOrder(s')
  {
    forall x, y | 0 <= x < y < |s'.queue.accepted| && SameSender(s', x, y)
      ensures s'.queue.accepted[x] < s'.queue.accepted[y]
    {
      assert SameSender(s, x, y);
    }
  }

  lemma StepKeepsOrder(b: B.Build, cap: nat, s: State, a: Action)
    requires Inv(b, cap, s) && InOrder(s) && Enabled(b, cap, s, a)
    ensures InOrder(Next(b, cap, s, a))
  {
    match a
    case Build(a, reports) =>
      var p := Push(b, s.build, a, reports);
      if p.Some? {
        SendKeepsOrder(cap, s, p.value);
        OrderOfParts(Send(cap, s, p), Next(b, cap, s, Build(a, reports)));
      } else {
        OrderOfParts(s, Next(b, cap, s, Build(a, reports)));
      }
    case Log(e) =>
      var p := Chunk(s, e);
      if p.Some? {
        SendKeepsOrder(cap, s, p.value);
        OrderOfParts(Send(cap, s, p), Next(b, cap, s, a));
      } else {
        OrderOfParts(s, Next(b, cap, s, a));
      }
    case Close => OrderOfParts(s, Next(b, cap, s, a));
    case Queue(e) =>
      if e.Enqueue? || e.Handoff? {
        AcceptKeepsOrder(cap, s, e);
      } else {
        OrderOfParts(s, Next(b, cap, s, a));
      }
  }

  lemma StatusesSnoc(events: seq<Engine.Event>, e: Engine.Event)
    ensures Statuses(events + [e]) == Statuses(events) + if IsStatus(e) then [e] else []
  {
    assert (events + [e])[..|events|] == events;
  }

  lemma CommandsSentSnoc(sent: seq<Payload>, p: Payload)
    ensures CommandsSent(sent + [p]) == CommandsSent(sent) + if p.CommandStatus? then [p.event] else []
  {
    assert (sent + [p])[..|sent|] == sent;
  }

  /** The status of a command is what a step of the build both records and sends. */
  lemma SendsWhatItRecords(b: B.Build, s: B.State, a: B.Action, reports: bool)
    requires B.Enabled(b, s, a)
    ensures var p, s' := Push(b, s, a, reports), B.Next(b, s, a);
      if p.Some? && p.value.CommandStatus? then s'.commands == s.commands + [p.value.event] && IsStatus(p.value.event)
      else s'.commands == s.commands || exists e :: s'.commands == s.commands + [e] && !IsStatus(e)
  {
    if a.RunEnds? {
      assert !IsStatus(Engine.Ran(s.worker.k));
    } else if a.Publish? {
      assert !IsStatus(Engine.Published(s.worker.k));
    }
  }

  lemma BuildKeepsStatuses(b: B.Build, cap: nat, s: State, a: B.Action, reports: bool)
    requires Numbered(s) && CommandsSent(s.sent) == Statuses(s.build.commands) && Enabled(b, cap, s, Build(a, reports))
    ensures var s' := Next(b, cap, s, Build(a, reports)); CommandsSent(s'.sent) == Statuses(s'.build.commands)
  {
    var p, commands := Push(b, s.build, a, reports), B.Next(b, s.build, a).commands;
    SendsWhatItRecords(b, s.build, a, reports);
    if p.Some? {
      CommandsSentSnoc(s.sent, p.value);
    }
    if p.Some? && p.value.CommandStatus? {
      StatusesSnoc(s.build.commands, p.value.event);
    } else if commands != s.build.commands {
      var e :| commands == s.build.commands + [e] && !IsStatus(e);
      StatusesSnoc(s.build.commands, e);
    }
  }

  lemma StepKeepsStatuses(b: B.Build, cap: nat, s: State, a: Action)
    requires Numbered(s) && CommandsSent(s.sent) == Statuses(s.build.commands) && Enabled(b, cap, s, a)
    ensures CommandsSent(Next(b, cap, s, a).sent) == Statuses(Next(b, cap, s, a).build.commands)
  {
    match a
    case Build(a, reports) => BuildKeepsStatuses(b, cap, s, a, reports);
    case Log(e) =>
      if Chunk(s, e).Some? {
        CommandsSentSnoc(s.sent, Chunk(s, e).value);
      }
    case _ =>
  }

  lemma ChunksSentSnoc(sent: seq<Payload>, p: Payload)
    ensures ChunksSent(sent + [p]) == ChunksSent(sent) + if p.LogChunk? then [p.chunk] else []
  {
    assert (sent + [p])[..|sent|] == sent;
  }

  ghost predicate ChunksKept(s: State) {
    ChunksSent(s.sent) == if s.pushesChunks then s.log.pushed else []
  }

  lemma BuildKeepsChunks(b: B.Build, cap: nat, s: State, a: B.Action, reports: bool)
    requires Numbered(s) && ChunksKept(s) && Enabled(b, cap, s, Build(a, reports))
    ensures ChunksKept(Next(b, cap, s, Build(a, reports)))
  {
    var p := Push(b, s.build, a, reports);
    if p.Some? {
      ChunksSentSnoc(s.sent, p.value);
    }
  }

  lemma StepKeepsChunks(b: B.Build, cap: nat, s: State, a: Action)
    requires Numbered(s) && ChunksKept(s) && Enabled(b, cap, s, a)
    ensures ChunksKept(Next(b, cap, s, a))
  {
    match a
    case Build(a, reports) => BuildKeepsChunks(b, cap, s, a, reports);
    case Log(e) =>
      if Chunk(s, e).Some? {
        ChunksSentSnoc(s.sent, Chunk(s, e).value);
      }
    case _ =>
  }

  ghost predicate OrderKept(s: State) {
    InOrder(s) && CommandsSent(s.sent) == Statuses(s.build.commands) && ChunksKept(s)
  }

  lemma StepKeepsBoth(b: B.Build, cap: nat, s: State, s': State)
    requires Inv(b, cap, s) && OrderKept(s) && Step(b, cap, s, s')
    ensures OrderKept(s')
  {
    hide Inv, Enabled, Next, InOrder, CommandsSent, Statuses, ChunksKept;
    var a :| Enabled(b, cap, s, a) && s' == Next(b, cap, s, a);
    StepKeepsOrder(b, cap, s, a);
    StepKeepsStatuses(b, cap, s, a);
    StepKeepsChunks(b, cap, s, a);
  }

  lemma {:induction false} RunKeepsOrder(b: B.Build, cap: nat, states: seq<State>, i: nat)
    requires Run(b, cap, states) && i < |states|
    ensures OrderKept(states[i])
  {
    hide Step, Inv;
    if i > 0 {
      RunKeepsOrder(b, cap, states, i - 1);
      RunKeepsInv(b, cap, states, i - 1);
      StepKeepsBoth(b, cap, states[i - 1], states[i]);
    }
  }

  ghost predicate AttemptedInOrder(s: State) {
    var tried := s.queue.attempted;
    && (forall x :: 0 <= x < |tried| ==> tried[x] < |s.sent|)
    && (forall x, y :: 0 <= x < y < |tried| && Sender(s.sent[tried[x]]) == Sender(s.sent[tried[y]]) ==> tried[x] < tried[y])
  }

  lemma AcceptedFirst(cap: nat, q: R.State, x: nat)
    requires R.Inv(cap, q) && x < |q.attempted|
    ensures x < |q.accepted| && q.accepted[x] == q.attempted[x]
  {
    assert q.accepted == q.attempted + (R.InFlight(q) + q.queue);
  }

  lemma TriedInOrder(cap: nat, s: State)
    requires InOrder(s) && R.Inv(cap, s.queue)
    ensures AttemptedInOrder(s)
  {
    hide R.Inv;
    var tried := s.queue.attempted;
    forall x | 0 <= x < |tried| ensures x < |s.queue.accepted| && tried[x] == s.queue.accepted[x] {
      AcceptedFirst(cap, s.queue, x);
    }
    forall x, y | 0 <= x < y < |tried| && Sender(s.sent[tried[x]]) == Sender(s.sent[tried[y]])
      ensures tried[x] < tried[y]
    {
      assert SameSender(s, x, y);
    }
  }

  /** At every moment what the command goroutine has sent are the statuses of its commands, and what the
      reader of the log has sent are the chunks it has pushed, in their order; and the payloads of each
      goroutine are attempted in the order in which it sent them. */
  lemma ReportedInOrder(b: B.Build, cap: nat, states: seq<State>, i: nat)
    requires Run(b, cap, states) && i < |states|
    ensures CommandsSent(states[i].sent) == Statuses(states[i].build.commands)
    ensures ChunksSent(states[i].sent) == if states[i].pushesChunks then states[i].log.pushed else []
    ensures AttemptedInOrder(states[i])
  {
    hide B.Inv, L.Inv, R.Inv, SendsInv, OrderInv, InOrder, CommandsSent, Statuses;
    RunKeepsOrder(b, cap, states, i);
    RunKeepsInv(b, cap, states, i);
    TriedInOrder(cap, states[i]);
  }

  ghost predicate AllAttempted(s: State) {
    forall id: nat :: id < |s.sent| <==> id in s.queue.attempted
  }

  lemma QuietExit(b: B.Build, cap: nat, s: State)
    requires Inv(b, cap, s) && s.queue.shutdown == R.Returned && !s.queue.panicked
    ensures AllAttempted(s)
  {
    hide B.Inv, L.Inv, OrderInv;
    var q := s.queue;
    assert q.attempted + [] + [] == q.attempted;
    forall id: nat ensures id < |s.sent| <==> id in q.attempted {
      assert id < |s.sent| <==> id in q.sends;
      assert id in q.sends ==> !R.IsBlocked(q.sends, id);
    }
  }

  /** When the program exits without a panic, and so after every build that was not aborted, all
      statuses and chunks sent by any goroutine have been attempted. If chunks are pushed at all, the
      chunks sent are the payloads of exactly the writes to the log that were acknowledged. */
  lemma EverythingReported(b: B.Build, cap: nat, states: seq<State>, i: nat)
    requires Run(b, cap, states) && i < |states|
    requires states[i].queue.shutdown == R.Returned
    ensures states[i].build.main.Done?
    ensures states[i].build.main.result != Engine.Aborted ==> !states[i].queue.panicked
    ensures !states[i].queue.panicked ==> AllAttempted(states[i])
    ensures states[i].pushesChunks ==> L.Delivered(states[i].log, ChunksSent(states[i].sent))
  {
    var s := states[i];
    RunKeepsInv(b, cap, states, i);
    RunKeepsOrder(b, cap, states, i);
    hide B.Inv, SendsInv, InOrder, CommandsSent, Statuses;
    ReturnedSays(s);
    L.InvDelivers(s.log);
    assert s.log.pushed + [] == s.log.pushed;
    if !s.queue.panicked {
      QuietExit(b, cap, s);
    }
  }
}
