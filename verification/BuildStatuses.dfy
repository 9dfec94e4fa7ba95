/** What the server has been told when the program exits: build, command loop, log and queue together. */
module BuildStatuses {
  import opened BuildReport
  import opened Options
  import opened Texts
  import Engine
  import B = BuildPlan
  import L = Rendezvous
  import R = Reporter

  // ---------- The statuses of the job ----------

  /** What Engine.Run has sent, metrics aside. */
  function JobSent(sent: seq<Payload>): seq<B.Effect> {
    if sent == [] then []
    else
      var p := sent[|sent| - 1];
      JobSent(sent[..|sent| - 1]) + if p.JobStatus? && p.effect != B.Metrics then [p.effect] else []
  }

  predicate IsJobStatus(effect: B.Effect) {
    effect.JobInProgress? || effect.JobFinished?
  }

  function JobEffects(log: seq<B.Effect>): seq<B.Effect> {
    if log == [] then []
    else
      var effect := log[|log| - 1];
      JobEffects(log[..|log| - 1]) + if IsJobStatus(effect) then [effect] else []
  }

  lemma JobSentSnoc(sent: seq<Payload>, p: Payload)
    ensures JobSent(sent + [p]) == JobSent(sent) + if p.JobStatus? && p.effect != B.Metrics then [p.effect] else []
  {
    assert (sent + [p])[..|sent|] == sent;
  }

  lemma JobEffectsSnoc(log: seq<B.Effect>, effect: B.Effect)
    ensures JobEffects(log + [effect]) == JobEffects(log) + if IsJobStatus(effect) then [effect] else []
  {
    assert (log + [effect])[..|log|] == log;
  }

  /** A step of the build logs at most one effect, and sends it if it is a status of the job. */
  lemma SendsWhatItLogs(b: B.Build, s: B.State, a: B.Action, reports: bool)
    requires B.Enabled(b, s, a)
    ensures var p, s' := Push(b, s, a, reports), B.Next(b, s, a);
      if p.Some? && p.value.JobStatus? && p.value.effect != B.Metrics then
        s'.log == s.log + [p.value.effect] && IsJobStatus(p.value.effect)
      else s'.log == s.log || exists effect :: s'.log == s.log + [effect] && !IsJobStatus(effect)
  {
    match a
    case ReportMetrics => assert !IsJobStatus(B.Metrics);
    case Capture(ok) => assert !IsJobStatus(B.Captured(ok));
    case PushImage(ok) => assert !IsJobStatus(B.ImageStatus(s.captured.value, ok));
    case ShutdownAdapter => assert !IsJobStatus(B.AdapterShutdown);
    case _ =>
  }

  /** Metrics are sent if there are any, each time they are taken. */
  lemma MetricsSent(b: B.Build, cap: nat, s: State, reports: bool)
    requires Numbered(s) && Enabled(b, cap, s, Build(B.ReportMetrics, reports))
    ensures var s' := Next(b, cap, s, Build(B.ReportMetrics, reports));
      && s'.sent == (if reports then s.sent + [JobStatus(B.Metrics)] else s.sent)
      && s'.build.log == s.build.log + [B.Metrics]
  {
  }

  ghost predicate JobKept(s: State) {
    JobSent(s.sent) == JobEffects(s.build.log)
  }

  lemma BuildKeepsJob(b: B.Build, cap: nat, s: State, a: B.Action, reports: bool)
    requires Numbered(s) && JobKept(s) && Enabled(b, cap, s, Build(a, reports))
    ensures JobKept(Next(b, cap, s, Build(a, reports)))
  {
    var p, log := Push(b, s.build, a, reports), B.Next(b, s.build, a).log;
    SendsWhatItLogs(b, s.build, a, reports);
    hide B.Next, B.Enabled, Push;
    if p.Some? {
      JobSentSnoc(s.sent, p.value);
    }
    if p.Some? && p.value.JobStatus? && p.value.effect != B.Metrics {
      JobEffectsSnoc(s.build.log, p.value.effect);
    } else if log != s.build.log {
      var effect :| log == s.build.log + [effect] && !IsJobStatus(effect);
      JobEffectsSnoc(s.build.log, effect);
    }
  }

  lemma StepKeepsJob(b: B.Build, cap: nat, s: State, a: Action)
    requires Numbered(s) && JobKept(s) && Enabled(b, cap, s, a)
    ensures JobKept(Next(b, cap, s, a))
  {
    match a
    case Build(a, reports) => BuildKeepsJob(b, cap, s, a, reports);
    case Log(e) =>
      if Chunk(s, e).Some? {
        JobSentSnoc(s.sent, Chunk(s, e).value);
      }
    case _ =>
  }

  lemma StepFromJob(b: B.Build, cap: nat, s: State, s': State)
    requires JobKept(s) && Step(b, cap, s, s')
    ensures JobKept(s')
  {
    hide JobKept, Enabled, Next;
    var a :| Enabled(b, cap, s, a) && s' == Next(b, cap, s, a);
    StepKeepsJob(b, cap, s, a);
  }

  lemma {:induction false} RunKeepsJob(b: B.Build, cap: nat, states: seq<State>, i: nat)
    requires Run(b, cap, states) && i < |states|
    ensures JobKept(states[i])
  {
    hide Step;
    if i > 0 {
      RunKeepsJob(b, cap, states, i - 1);
      StepFromJob(b, cap, states[i - 1], states[i]);
    }
  }

  // ---------- Each status is sent ----------

  lemma {:induction false} InCommandsSent(sent: seq<Payload>, e: Engine.Event)
    ensures e in CommandsSent(sent) <==> CommandStatus(e) in sent
  {
    if sent != [] {
      var front, p := sent[..|sent| - 1], sent[|sent| - 1];
      InCommandsSent(front, e);
      assert sent == front + [p];
    }
  }

  lemma {:induction false} InStatuses(events: seq<Engine.Event>, e: Engine.Event)
    ensures e in Statuses(events) <==> e in events && (e.InProgress? || e.Finished?)
  {
    if events != [] {
      var front, last := events[..|events| - 1], events[|events| - 1];
      InStatuses(front, e);
      assert events == front + [last];
    }
  }

  lemma {:induction false} InJobSent(sent: seq<Payload>, effect: B.Effect)
    ensures effect in JobSent(sent) <==> JobStatus(effect) in sent && effect != B.Metrics
  {
    if sent != [] {
      var front, p := sent[..|sent| - 1], sent[|sent| - 1];
      InJobSent(front, effect);
      assert sent == front + [p];
    }
  }

  lemma {:induction false} InJobEffects(log: seq<B.Effect>, effect: B.Effect)
    ensures effect in JobEffects(log) <==> effect in log && (effect.JobInProgress? || effect.JobFinished?)
  {
    if log != [] {
      var front, last := log[..|log| - 1], log[|log| - 1];
      InJobEffects(front, effect);
      assert log == front + [last];
    }
  }

  lemma {:induction false} InChunksSent(sent: seq<Payload>, chunk: Text)
    ensures chunk in ChunksSent(sent) <==> LogChunk(chunk) in sent
  {
    if sent != [] {
      var front, p := sent[..|sent| - 1], sent[|sent| - 1];
      InChunksSent(front, chunk);
      assert sent == front + [p];
    }
  }

  /** At every moment of every run: the beginning and the end of each command so far are sent, the
      beginning and the end of the job, and the chunks pushed so far if any are pushed at all; and of
      these nothing else is. */
  lemma StatusesSent(b: B.Build, cap: nat, states: seq<State>, i: nat)
    requires Run(b, cap, states) && i < |states|
    ensures var s := states[i];
      && (forall e :: CommandStatus(e) in s.sent <==> e in s.build.commands && (e.InProgress? || e.Finished?))
      && (forall effect :: effect != B.Metrics ==>
            (JobStatus(effect) in s.sent <==> effect in s.build.log && (effect.JobInProgress? || effect.JobFinished?)))
      && (forall chunk :: LogChunk(chunk) in s.sent <==> s.pushesChunks && chunk in s.log.pushed)
  {
    hide Step, CommandsSent, Statuses, JobSent, JobEffects, ChunksSent;
    ReportedInOrder(b, cap, states, i);
    RunKeepsJob(b, cap, states, i);
    var s := states[i];
    forall e ensures CommandStatus(e) in s.sent <==> e in s.build.commands && (e.InProgress? || e.Finished?) {
      InCommandsSent(s.sent, e);
      InStatuses(s.build.commands, e);
    }
    forall effect | effect != B.Metrics
      ensures JobStatus(effect) in s.sent <==> effect in s.build.log && (effect.JobInProgress? || effect.JobFinished?)
    {
      InJobSent(s.sent, effect);
      InJobEffects(s.build.log, effect);
    }
    forall chunk ensures LogChunk(chunk) in s.sent <==> s.pushesChunks && chunk in s.log.pushed {
      InChunksSent(s.sent, chunk);
    }
  }

  // ---------- What has been told at the exit ----------

  lemma EventOfBuild(b: B.Build, cap: nat, s: State, a: Action, states: seq<B.State>) returns (states': seq<B.State>)
    requires Numbered(s) && Enabled(b, cap, s, a) && B.Run(b, states) && states[|states| - 1] == s.build
    ensures B.Run(b, states') && states'[|states'| - 1] == Next(b, cap, s, a).build
  {
    hide B.Run, B.Enabled, B.Next;
    match a
    case Build(a, _) => states' := B.Act(b, states, a);
    case _ => states' := states;
  }

  /** The build inside a run of the whole is a run of the build. */
  lemma {:induction false} BuildRuns(b: B.Build, cap: nat, states: seq<State>, i: nat) returns (builds: seq<B.State>)
    requires Run(b, cap, states) && i < |states|
    ensures builds != [] && B.Run(b, builds) && builds[|builds| - 1] == states[i].build
  {
    if i == 0 {
      builds := [states[0].build];
      assert B.Path(b, builds);
    } else {
      hide B.Run;
      builds := BuildRuns(b, cap, states, i - 1);
      assert Step(b, cap, states[i - 1], states[i]);
      hide Enabled, Next;
      var a :| Enabled(b, cap, states[i - 1], a) && states[i] == Next(b, cap, states[i - 1], a);
      builds := EventOfBuild(b, cap, states[i - 1], a, builds);
    }
  }

  /** The payload has been sent, and its posting attempted. */
  ghost predicate Told(s: State, p: Payload) {
    exists id: nat :: id < |s.sent| && s.sent[id] == p && id in s.queue.attempted
  }

  lemma SentIsTold(s: State, p: Payload)
    requires AllAttempted(s)
    ensures Told(s, p) <==> p in s.sent
  {
    if p in s.sent {
      var id :| 0 <= id < |s.sent| && s.sent[id] == p;
      assert id as nat in s.queue.attempted;
    }
  }

  /** The final status of command k in the trace of a build. */
  predicate EndsWith(b: B.Build, k: nat, code: int, withOutput: bool)
    requires k < |b.cmds|
  {
    match b.world(k).run
    case Success => code == 0 && withOutput == b.cmds[k].captureOutput
    case Failure => code == 1 && !withOutput
    case RunError => code == 255 && !withOutput
  }

  lemma CommandTold(b: B.Build, k: nat, code: int, withOutput: bool)
    requires k < |b.cmds|
    ensures Engine.InProgress(k) in B.Trace(b, b.world) <==> Engine.WentWell(b.world, k)
    ensures Engine.Finished(k, code, withOutput) in B.Trace(b, b.world) <==>
      Engine.WentWell(b.world, k) && EndsWith(b, k, code, withOutput)
  {
    hide Engine.Blocks, Engine.CommandsRun, Engine.WentWell;
    Engine.ReturnCodes(b.cmds, b.world, k, code, withOutput);
    Engine.TraceEvents(b.cmds, b.world, k, Engine.InProgress(k));
  }

  /** When the program exits after a build that was prepared and not aborted, the server has been told
      of the beginning and the end of the job, and of each command that was reached, how it began and
      with which return code it ended; and of no other command and no other code. */
  lemma BuildIsTold(b: B.Build, cap: nat, states: seq<State>, i: nat, k: nat, code: int, withOutput: bool)
    requires Run(b, cap, states) && i < |states| && states[i].queue.shutdown == R.Returned
    requires states[i].build.prepared && states[i].build.main.Done? && states[i].build.main.result != Engine.Aborted
    requires k < |b.cmds|
    ensures var s := states[i];
      && Told(s, JobStatus(B.JobInProgress)) && Told(s, JobStatus(B.JobFinished(s.build.main.result)))
      && (Told(s, CommandStatus(Engine.InProgress(k))) <==> Engine.WentWell(b.world, k))
      && (Told(s, CommandStatus(Engine.Finished(k, code, withOutput))) <==>
            Engine.WentWell(b.world, k) && EndsWith(b, k, code, withOutput))
  {
    hide Step, Told, AllAttempted, B.Run, B.Trace, Engine.WentWell, EndsWith;
    var s := states[i];
    EverythingReported(b, cap, states, i);
    StatusesSent(b, cap, states, i);
    var builds := BuildRuns(b, cap, states, i);
    B.ResultIsCoherent(b, builds, |builds| - 1);
    CommandTold(b, k, code, withOutput);
    SentIsTold(s, JobStatus(B.JobInProgress));
    SentIsTold(s, JobStatus(B.JobFinished(s.build.main.result)));
    SentIsTold(s, CommandStatus(Engine.InProgress(k)));
    SentIsTold(s, CommandStatus(Engine.Finished(k, code, withOutput)));
    assert B.JobInProgress in s.build.log && B.JobFinished(s.build.main.result) in s.build.log;
  }
}
