/** Run and runBuildPlan of engine/engine.go as interleavings: the main goroutine, the goroutine
    that runs the commands, and the abort signal. While the adapter is up the commands get the answers
    of a fixed world; once it has been shut down beneath them anything may come back. */
module BuildPlan {
  import opened Options
  import opened Engine

  /** A build: its commands, the answers they get from adapter and reporter as long as the adapter is
      up, and whether an output snapshot is asked for. */
  datatype Build = Build(cmds: seq<Command>, world: World, wantsSnapshot: bool)

  /** Where Engine.Run is. The values carried are the result and whether the error is non-nil. */
  datatype Main =
    | Fresh
    | Checking
    | Initializing
    | Preparing
    | Metering
    | Selecting
    | Capturing
    | PushingImage
    | Unwinding(result: Result, err: bool)
    | Remetering(result: Result, err: bool)
    | Finishing(result: Result, err: bool)
    | Done(result: Result, err: bool)

  /** The command goroutine: before it is started; about to begin command k; inside adapter.Run;
      about to report how the command ended; publishing its artifacts; offering its result on the
      unbuffered channel; or gone. */
  datatype Worker =
    | NotStarted
    | Working(k: nat)
    | Executing(k: nat)
    | Reporting(k: nat, run: RunOutcome)
    | Publishing(k: nat, run: RunOutcome)
    | Offering(result: Result)
    | Delivered(result: Result)

  /** What the main goroutine does to reporter and adapter. The status of the snapshot image is
      active or failed, and its push may fail. */
  datatype Effect =
    | JobInProgress
    | Metrics
    | Captured(ok: bool)
    | ImageStatus(active: bool, pushed: bool)
    | AdapterShutdown
    | JobFinished(result: Result)

  datatype State = State(
    main: Main,
    worker: Worker,
    cancelled: bool,
    commands: seq<Event>,       // what the command goroutine has done
    runs: seq<RunOutcome>,      // the adapter's answers so far
    publishes: seq<bool>,       // for each publication so far whether it failed
    prepared: bool,
    captured: Option<bool>,
    image: Option<bool>,
    log: seq<Effect>)

  function Start(): State {
    State(Fresh, NotStarted, false, [], [], [], false, None, None, [])
  }

  datatype Action =
    | Begin
    | Check(ok: bool)
    | InitAdapter(ok: bool)
    | Prepare(ok: bool)
    | ReportMetrics
    | BeginCommand
    | RunEnds(run: RunOutcome)
    | Report
    | Publish(fails: bool)
    | Receive
    | Abort
    | Capture(ok: bool)
    | PushImage(ok: bool)
    | ShutdownAdapter
    | Finish
    | Cancel

  /** The adapter has been shut down, or was never there. */
  predicate AdapterDown(s: State) {
    s.main.Remetering? || s.main.Finishing? || s.main.Done?
  }

  /** A call that is under way when the adapter goes down, or begins later, may end in any way. */
  predicate Enabled(b: Build, s: State, a: Action) {
    match a
    case Begin => s.main == Fresh
    case Check(_) => s.main == Checking
    case InitAdapter(_) => s.main == Initializing
    case Prepare(_) => s.main == Preparing
    case ReportMetrics => s.main == Metering || s.main.Remetering?
    case BeginCommand => s.worker.Working?
    case RunEnds(run) => s.worker.Executing? && (AdapterDown(s) || run == b.world(s.worker.k).run)
    case Report => s.worker.Reporting? && s.worker.k < |b.cmds|
    case Publish(fails) => s.worker.Publishing? && (AdapterDown(s) || fails == b.world(s.worker.k).publishFails)
    case Receive => s.main == Selecting && s.worker.Offering?
    case Abort => s.main == Selecting && s.cancelled
    case Capture(_) => s.main == Capturing
    case PushImage(_) => s.main == PushingImage && s.captured.Some?
    case ShutdownAdapter => s.main.Unwinding?
    case Finish => s.main.Finishing?
    case Cancel => true
  }

  function Log(s: State, effect: Effect): State {
    s.(log := s.log + [effect])
  }

  function Do(s: State, event: Event): State {
    s.(commands := s.commands + [event])
  }

  function Fail(s: State): State {
    s.(main := Finishing(InfraFailed, true))
  }

  /** What becomes of the command goroutine once the end of a command is reported. */
  function AfterReport(cmd: Command, k: nat, run: RunOutcome): Worker {
    if run == RunError || (run == Failure && cmd.infraSetup) then Offering(InfraFailed) else Publishing(k, run)
  }

  function AfterPublish(k: nat, run: RunOutcome, fails: bool): Worker {
    if fails then Offering(InfraFailed) else if run == Failure then Offering(Failed) else Working(k + 1)
  }

  function Next(b: Build, s: State, a: Action): State
    requires Enabled(b, s, a)
  {
    match a
    case Begin => Log(s, JobInProgress).(main := Checking)
    case Check(ok) => if ok then s.(main := Initializing) else Fail(s)
    case InitAdapter(ok) => if ok then s.(main := Preparing) else Fail(s)
    case Prepare(ok) => if ok then s.(main := Metering, prepared := true) else Fail(s)
    case ReportMetrics =>
      if s.main == Metering then Log(s, Metrics).(main := Selecting, worker := Working(0))
      else Log(s, Metrics).(main := Finishing(s.main.result, s.main.err))
    case BeginCommand =>
      var k := s.worker.k;
      if k < |b.cmds| then Do(s, InProgress(k)).(worker := Executing(k)) else s.(worker := Offering(Passed))
    case RunEnds(run) =>
      Do(s, Ran(s.worker.k)).(worker := Reporting(s.worker.k, run), runs := s.runs + [run])
    case Report =>
      var Reporting(k, run) := s.worker;
      Do(s, EndOf(b.cmds[k], run, k)).(worker := AfterReport(b.cmds[k], k, run))
    case Publish(fails) =>
      var Publishing(k, run) := s.worker;
      Do(s, Published(k)).(worker := AfterPublish(k, run, fails), publishes := s.publishes + [fails])
    case Receive =>
      var r := s.worker.result;
      s.(worker := Delivered(r),
         main := if r == InfraFailed then Unwinding(r, true)
                 else if r == Passed && b.wantsSnapshot then Capturing
                 else Unwinding(r, false))
    case Abort => s.(main := Unwinding(Aborted, false))
    case Capture(ok) => Log(s, Captured(ok)).(main := PushingImage, captured := Some(ok))
    case PushImage(ok) =>
      var active := s.captured.value;
      Log(s, ImageStatus(active, ok)).(image := Some(ok),
         main := if active && ok then Unwinding(Passed, false) else Unwinding(InfraFailed, true))
    case ShutdownAdapter => Log(s, AdapterShutdown).(main := Remetering(s.main.result, s.main.err))
    case Finish => Log(s, JobFinished(s.main.result)).(main := Done(s.main.result, s.main.err))
    case Cancel => s.(cancelled := true)
  }

  ghost predicate Step(b: Build, s: State, s': State) {
    exists a :: Enabled(b, s, a) && s' == Next(b, s, a)
  }

  /** A stretch of steps. */
  ghost predicate Path(b: Build, states: seq<State>) {
    states != [] && forall i :: 0 <= i < |states| - 1 ==> Step(b, states[i], states[i + 1])
  }

  ghost predicate Run(b: Build, states: seq<State>) {
    Path(b, states) && states[0] == Start()
  }

  lemma Extend(b: Build, states: seq<State>, a: Action) returns (states': seq<State>)
    requires Path(b, states) && Enabled(b, states[|states| - 1], a)
    ensures Path(b, states') && states'[0] == states[0] && states' == states + [Next(b, states[|states| - 1], a)]
    ensures states'[|states'| - 1] == Next(b, states[|states| - 1], a)
  {
    var s := Next(b, states[|states| - 1], a);
    states' := states + [s];
    assert Step(b, states[|states| - 1], s);
    forall i | 0 <= i < |states'| - 1 ensures Step(b, states'[i], states'[i + 1]) {
      if i < |states| - 1 {
        assert states'[i] == states[i] && states'[i + 1] == states[i + 1];
      }
    }
  }

  lemma Act(b: Build, states: seq<State>, a: Action) returns (states': seq<State>)
    requires Run(b, states) && Enabled(b, states[|states| - 1], a)
    ensures Run(b, states') && states' == states + [Next(b, states[|states| - 1], a)]
    ensures states'[|states'| - 1] == Next(b, states[|states| - 1], a)
  {
    states' := Extend(b, states, a);
  }

  // ---------- The main goroutine ----------

  predicate HasResult(m: Main) {
    m.Unwinding? || m.Remetering? || m.Finishing? || m.Done?
  }

  predicate InSnapshot(m: Main) {
    m == Capturing || m == PushingImage
  }

  /** What has been done about the snapshot. */
  function Snapshot(s: State): seq<Effect> {
    if s.captured.None? then []
    else if s.image.None? then [Captured(s.captured.value)]
    else [Captured(s.captured.value), ImageStatus(s.captured.value, s.image.value)]
  }

  /** The effects up to the last status, in their order. */
  function EffectsBefore(s: State): seq<Effect> {
    if s.prepared then [JobInProgress, Metrics] + Snapshot(s) + [AdapterShutdown, Metrics] else [JobInProgress]
  }

  /** All effects so far. */
  function Effects(s: State): seq<Effect> {
    match s.main
    case Fresh => []
    case Finishing(_, _) => EffectsBefore(s)
    case Done(r, _) => EffectsBefore(s) + [JobFinished(r)]
    case Remetering(_, _) => [JobInProgress, Metrics] + Snapshot(s) + [AdapterShutdown]
    case _ =>
      if s.main == Selecting || InSnapshot(s.main) || s.main.Unwinding? then [JobInProgress, Metrics] + Snapshot(s)
      else [JobInProgress]
  }

  /** The adapter is prepared before anything that needs it, and shut down on the way out. */
  predicate PreparedInv(s: State) {
    && (s.prepared ==> s.main == Metering || s.main == Selecting || InSnapshot(s.main) || HasResult(s.main))
    && (s.main == Metering || s.main == Selecting || InSnapshot(s.main) || s.main.Unwinding? || s.main.Remetering? ==> s.prepared)
    && (s.worker == NotStarted <==> !s.prepared || s.main == Metering)
  }

  /** A snapshot is taken only after the commands have passed, and is on record as it is made. */
  predicate SnapshotInv(b: Build, s: State) {
    && (InSnapshot(s.main) || s.captured.Some? ==> s.worker == Delivered(Passed) && b.wantsSnapshot)
    && (s.main == Capturing || !(s.main == PushingImage || HasResult(s.main)) ==> s.captured == None)
    && (s.main == PushingImage ==> s.captured.Some?)
    && (s.captured.None? || s.main == PushingImage ==> s.image == None)
    && (s.captured.Some? && s.main != PushingImage ==> s.image.Some?)
  }

  predicate SnapshotFailed(s: State) {
    s.captured == Some(false) || s.image == Some(false)
  }

  /** The result tells what happened. */
  predicate ResultInv(b: Build, s: State) {
    && (s.worker.Delivered? ==> s.main != Selecting)
    && (s.worker.Offering? || s.worker.Delivered? ==> s.worker.result != Aborted)
    && (HasResult(s.main) ==>
          && (s.main.err <==> s.main.result == InfraFailed)
          && (s.main.result == Aborted ==> s.cancelled && s.prepared && !s.worker.Delivered?)
          && (s.main.result != Aborted && s.prepared ==> s.worker.Delivered?)
          && (s.main.result == Failed || s.main.result == Passed ==> s.worker == Delivered(s.main.result))
          && (s.main.result == Passed && b.wantsSnapshot ==> s.captured == Some(true) && s.image == Some(true))
          && (s.main.result == InfraFailed && s.worker.Delivered? ==> s.worker.result == InfraFailed || SnapshotFailed(s)))
  }

  predicate Inv(b: Build, s: State) {
    PreparedInv(s) && SnapshotInv(b, s) && ResultInv(b, s) && s.log == Effects(s)
  }

  lemma StepKeepsPrepared(b: Build, s: State, a: Action)
    requires PreparedInv(s) && Enabled(b, s, a)
    ensures PreparedInv(Next(b, s, a))
  {
  }

  lemma StepKeepsSnapshot(b: Build, s: State, a: Action)
    requires PreparedInv(s) && SnapshotInv(b, s) && ResultInv(b, s) && Enabled(b, s, a)
    ensures SnapshotInv(b, Next(b, s, a))
  {
  }

  lemma StepKeepsResult(b: Build, s: State, a: Action)
    requires PreparedInv(s) && SnapshotInv(b, s) && ResultInv(b, s) && Enabled(b, s, a)
    ensures ResultInv(b, Next(b, s, a))
  {
  }

  lemma StepKeepsLog(b: Build, s: State, a: Action)
    requires Inv(b, s) && Enabled(b, s, a)
    ensures Next(b, s, a).log == Effects(Next(b, s, a))
  {
    var front := [JobInProgress, Metrics];
    if a == ReportMetrics && s.main.Remetering? {
      assert front + Snapshot(s) + [AdapterShutdown] + [Metrics] == front + Snapshot(s) + [AdapterShutdown, Metrics];
    } else if a == ReportMetrics {
      assert Snapshot(s) == [] && [JobInProgress] + [Metrics] == front;
    } else if a.Capture? {
      assert Snapshot(s) == [] && front + [] + [Captured(a.ok)] == front + [Captured(a.ok)];
    } else if a.PushImage? {
      assert [Captured(s.captured.value)] + [ImageStatus(s.captured.value, a.ok)]
          == [Captured(s.captured.value), ImageStatus(s.captured.value, a.ok)];
    }
  }

  lemma StepKeepsInv(b: Build, s: State, a: Action)
    requires Inv(b, s) && Enabled(b, s, a)
    ensures Inv(b, Next(b, s, a))
  {
    StepKeepsPrepared(b, s, a);
    StepKeepsSnapshot(b, s, a);
    StepKeepsResult(b, s, a);
    StepKeepsLog(b, s, a);
  }

  lemma StepFromInv(b: Build, s: State, s': State)
    requires Inv(b, s) && Step(b, s, s')
    ensures Inv(b, s')
  {
    hide Inv, Enabled, Next;
    var a :| Enabled(b, s, a) && s' == Next(b, s, a);
    StepKeepsInv(b, s, a);
  }

  lemma {:induction false} RunKeepsInv(b: Build, states: seq<State>, i: nat)
    requires Run(b, states) && i < |states|
    ensures Inv(b, states[i])
  {
    hide Step;
    if i > 0 {
      RunKeepsInv(b, states, i - 1);
      StepFromInv(b, states[i - 1], states[i]);
    }
  }

  // ---------- The command goroutine ----------

  function Trace(b: Build, world: World): seq<Event> {
    Blocks(b.cmds, world, CommandsRun(b.cmds, world))
  }

  /** The world gives the answers that have been given so far. */
  ghost predicate Agrees(s: State, world: World) {
    && (forall j :: 0 <= j < |s.runs| ==> world(j).run == s.runs[j])
    && (forall j :: 0 <= j < |s.publishes| ==> world(j).publishFails == s.publishes[j])
  }

  ghost predicate CleanUpTo(world: World, k: nat) {
    forall j :: 0 <= j < k ==> Clean(world, j)
  }

  /** Which part of the trace has been reported in each position of the goroutine. */
  ghost predicate Fits(b: Build, s: State, world: World) {
    match s.worker
    case NotStarted => s.commands == []
    case Working(k) => k <= |b.cmds| && CleanUpTo(world, k) && s.commands == Blocks(b.cmds, world, k)
    case Executing(k) =>
      k < |b.cmds| && CleanUpTo(world, k) && s.commands == Blocks(b.cmds, world, k) + [InProgress(k)]
    case Reporting(k, run) =>
      k < |b.cmds| && CleanUpTo(world, k) && world(k).run == run
      && s.commands == Blocks(b.cmds, world, k) + [InProgress(k), Ran(k)]
    case Publishing(k, run) =>
      k < |b.cmds| && CleanUpTo(world, k) && world(k).run == run && Publishes(b.cmds[k], world(k))
      && s.commands == Blocks(b.cmds, world, k) + [InProgress(k), Ran(k), EndOf(b.cmds[k], run, k)]
    case Offering(r) => s.commands == Trace(b, world) && r == ResultOf(b.cmds, world)
    case Delivered(r) => s.commands == Trace(b, world) && r == ResultOf(b.cmds, world)
  }

  /** How many answers there are in each position. */
  predicate Counted(s: State) {
    match s.worker
    case NotStarted => s.runs == [] && s.publishes == []
    case Working(k) => |s.runs| == |s.publishes| == k
    case Executing(k) => |s.runs| == |s.publishes| == k
    case Reporting(k, _) => |s.runs| == k + 1 && |s.publishes| == k
    case Publishing(k, _) => |s.runs| == k + 1 && |s.publishes| == k
    case _ => true
  }

  lemma BlockOf(b: Build, world: World, k: nat)
    requires k < |b.cmds|
    ensures Blocks(b.cmds, world, k + 1) == Blocks(b.cmds, world, k) + Block(b.cmds[k], world(k), k)
  {
  }

  /** A command that is not clean is the last one in the trace. */
  lemma StopsAt(b: Build, world: World, k: nat)
    requires k < |b.cmds| && CleanUpTo(world, k) && !Clean(world, k)
    ensures Trace(b, world) == Blocks(b.cmds, world, k) + Block(b.cmds[k], world(k), k)
    ensures ResultOf(b.cmds, world)
      == if world(k).run == Failure && !b.cmds[k].infraSetup && !world(k).publishFails then Failed else InfraFailed
  {
    StopHere(b.cmds, world, k);
    BlockOf(b, world, k);
  }

  lemma RunsThrough(b: Build, world: World)
    requires CleanUpTo(world, |b.cmds|)
    ensures Trace(b, world) == Blocks(b.cmds, world, |b.cmds|) && ResultOf(b.cmds, world) == Passed
  {
    NeverStops(b.cmds, world);
  }

  lemma ReportFits(b: Build, s: State, world: World)
    requires Fits(b, s, world) && Enabled(b, s, Report)
    ensures Fits(b, Next(b, s, Report), world)
  {
    var Reporting(k, run) := s.worker;
    var front := Blocks(b.cmds, world, k);
    assert front + [InProgress(k), Ran(k)] + [EndOf(b.cmds[k], run, k)]
        == front + [InProgress(k), Ran(k), EndOf(b.cmds[k], run, k)];
    if AfterReport(b.cmds[k], k, run).Offering? {
      StopsAt(b, world, k);
    }
  }

  lemma PublishFits(b: Build, s: State, fails: bool, world: World)
    requires Fits(b, s, world) && Enabled(b, s, Publish(fails)) && world(s.worker.k).publishFails == fails
    ensures Fits(b, Next(b, s, Publish(fails)), world)
  {
    var Publishing(k, run) := s.worker;
    var front := Blocks(b.cmds, world, k);
    assert front + [InProgress(k), Ran(k), EndOf(b.cmds[k], run, k)] + [Published(k)]
        == front + Block(b.cmds[k], world(k), k);
    if AfterPublish(k, run, fails).Offering? {
      StopsAt(b, world, k);
    } else {
      BlockOf(b, world, k);
    }
  }

  lemma RunEndsFits(b: Build, s: State, run: RunOutcome, world: World)
    requires Fits(b, s, world) && Enabled(b, s, RunEnds(run)) && world(s.worker.k).run == run
    ensures Fits(b, Next(b, s, RunEnds(run)), world)
  {
    var k := s.worker.k;
    assert Blocks(b.cmds, world, k) + [InProgress(k)] + [Ran(k)] == Blocks(b.cmds, world, k) + [InProgress(k), Ran(k)];
  }

  lemma BeginFits(b: Build, s: State, world: World)
    requires Fits(b, s, world) && s.worker.Working?
    ensures Fits(b, Next(b, s, BeginCommand), world)
  {
    if s.worker.k == |b.cmds| {
      RunsThrough(b, world);
    }
  }

  /** Steps of the main goroutine do not change what has been reported. */
  lemma MainFits(b: Build, s: State, a: Action, world: World)
    requires Fits(b, s, world) && Enabled(b, s, a) && (s.main == Metering ==> s.worker == NotStarted)
    requires a != BeginCommand && !a.RunEnds? && a != Report && !a.Publish?
    ensures Fits(b, Next(b, s, a), world)
  {
  }

  lemma StepKeepsFits(b: Build, s: State, a: Action, world: World)
    requires Fits(b, s, world) && Counted(s) && (s.main == Metering ==> s.worker == NotStarted)
    requires Enabled(b, s, a) && Agrees(Next(b, s, a), world)
    ensures Fits(b, Next(b, s, a), world)
  {
    hide Fits;
    if a.RunEnds? {
      assert Next(b, s, a).runs[s.worker.k] == a.run;
      RunEndsFits(b, s, a.run, world);
    } else if a.Report? {
      ReportFits(b, s, world);
    } else if a.Publish? {
      assert Next(b, s, a).publishes[s.worker.k] == a.fails;
      PublishFits(b, s, a.fails, world);
    } else if a.BeginCommand? {
      BeginFits(b, s, world);
    } else {
      MainFits(b, s, a, world);
    }
  }

  lemma StepKeepsCounted(b: Build, s: State, a: Action)
    requires Counted(s) && Enabled(b, s, a) && (s.main == Metering ==> s.worker == NotStarted)
    ensures Counted(Next(b, s, a))
  {
  }

  lemma AnswersGrow(b: Build, s: State, a: Action, world: World)
    requires Enabled(b, s, a) && Agrees(Next(b, s, a), world)
    ensures Agrees(s, world)
  {
    var s' := Next(b, s, a);
    assert forall j :: 0 <= j < |s.runs| ==> s'.runs[j] == s.runs[j];
    assert forall j :: 0 <= j < |s.publishes| ==> s'.publishes[j] == s.publishes[j];
  }

  lemma StepFollowsAnswers(b: Build, s: State, s': State, world: World)
    requires Inv(b, s) && Step(b, s, s') && Agrees(s', world)
    ensures Agrees(s, world)
    ensures Fits(b, s, world) && Counted(s) ==> Fits(b, s', world) && Counted(s')
  {
    hide SnapshotInv, ResultInv, Effects, Enabled, Next, Fits, Counted, Agrees;
    var a :| Enabled(b, s, a) && s' == Next(b, s, a);
    AnswersGrow(b, s, a, world);
    if Fits(b, s, world) && Counted(s) {
      StepKeepsFits(b, s, a, world);
      StepKeepsCounted(b, s, a);
    }
  }

  lemma {:induction false} RunFits(b: Build, states: seq<State>, i: nat, world: World)
    requires Run(b, states) && i < |states| && Agrees(states[i], world)
    ensures Fits(b, states[i], world) && Counted(states[i])
  {
    hide Step, Inv;
    if i > 0 {
      RunKeepsInv(b, states, i - 1);
      StepFollowsAnswers(b, states[i - 1], states[i], world);
      RunFits(b, states, i - 1, world);
    }
  }

  lemma {:induction false} BlocksGrow(b: Build, world: World, m: nat, n: nat)
    requires m <= n <= |b.cmds|
    ensures Blocks(b.cmds, world, m) <= Blocks(b.cmds, world, n)
  {
    if m < n {
      BlocksGrow(b, world, m, n - 1);
    }
  }

  lemma {:induction false} FirstStopFrom(cmds: seq<Command>, world: World, from: nat, k: nat)
    requires from <= k <= |cmds| && forall j :: from <= j < k ==> Clean(world, j)
    ensures FirstStop(cmds, world, from) >= k
    decreases k - from
  {
    if from < k {
      FirstStopFrom(cmds, world, from + 1, k);
    }
  }

  lemma CleanPart(b: Build, world: World, k: nat)
    requires k <= |b.cmds| && CleanUpTo(world, k)
    ensures Blocks(b.cmds, world, k) <= Trace(b, world)
    ensures k < |b.cmds| ==> Blocks(b.cmds, world, k) + Block(b.cmds[k], world(k), k) <= Trace(b, world)
  {
    if k == |b.cmds| {
      RunsThrough(b, world);
    } else if Clean(world, k) {
      FirstStopFrom(b.cmds, world, 0, k + 1);
      BlockOf(b, world, k);
      BlocksGrow(b, world, k + 1, CommandsRun(b.cmds, world));
    } else {
      StopsAt(b, world, k);
    }
  }

  lemma FitsIsPrefix(b: Build, s: State, world: World)
    requires Fits(b, s, world)
    ensures s.commands <= Trace(b, world)
  {
    if s.worker.Working? || s.worker.Executing? || s.worker.Reporting? || s.worker.Publishing? {
      var k := s.worker.k;
      CleanPart(b, world, k);
      if k < |b.cmds| {
        var front, block := Blocks(b.cmds, world, k), Block(b.cmds[k], world(k), k);
        assert block[..1] == [InProgress(k)] && block[..2] == [InProgress(k), Ran(k)];
        assert forall n :: 0 <= n <= |block| ==> front + block[..n] <= front + block;
        assert block[..3] == [InProgress(k), Ran(k), EndOf(b.cmds[k], world(k).run, k)];
      }
    }
  }

  // ---------- The promises ----------

  /** Whatever the interleaving, and whatever shutting down the adapter does to a running command: what
      has been reported about commands is the beginning of the trace of every world that gives the
      answers given so far, and a result offered is the result of the loop in that world. */
  lemma CommandsFollowAnswers(b: Build, states: seq<State>, i: nat, world: World)
    requires Run(b, states) && i < |states| && Agrees(states[i], world)
    ensures states[i].commands <= Trace(b, world)
    ensures states[i].worker.Offering? || states[i].worker.Delivered? ==>
      states[i].commands == Trace(b, world) && states[i].worker.result == ResultOf(b.cmds, world)
  {
    RunFits(b, states, i, world);
    FitsIsPrefix(b, states[i], world);
  }

  /** The answers given so far, and the worst where none has been given. */
  function WorldOf(s: State): World {
    (k: nat) => Outcome(if k < |s.runs| then s.runs[k] else RunError, if k < |s.publishes| then s.publishes[k] else true)
  }

  // ---------- As long as the adapter is up ----------

  /** The world of the build has given all answers, up to the shutdown and in a build not aborted. */
  ghost predicate AnswersInv(b: Build, s: State) {
    (!AdapterDown(s) || s.worker.Delivered? || s.worker == NotStarted) ==> Agrees(s, b.world)
  }

  lemma StepKeepsAnswers(b: Build, s: State, a: Action)
    requires AnswersInv(b, s) && Counted(s) && Inv(b, s) && Enabled(b, s, a)
    ensures AnswersInv(b, Next(b, s, a))
  {
  }

  lemma StepFromAnswers(b: Build, s: State, s': State)
    requires AnswersInv(b, s) && Counted(s) && Inv(b, s) && Step(b, s, s')
    ensures AnswersInv(b, s')
  {
    hide AnswersInv, Counted, Inv, Enabled, Next;
    var a :| Enabled(b, s, a) && s' == Next(b, s, a);
    StepKeepsAnswers(b, s, a);
  }

  lemma AgreesWithItself(s: State)
    ensures Agrees(s, WorldOf(s))
  {
  }

  lemma {:induction false} RunKeepsAnswers(b: Build, states: seq<State>, i: nat)
    requires Run(b, states) && i < |states|
    ensures AnswersInv(b, states[i])
  {
    hide Step, Inv, Counted;
    if i > 0 {
      RunKeepsAnswers(b, states, i - 1);
      RunKeepsInv(b, states, i - 1);
      AgreesWithItself(states[i - 1]);
      RunFits(b, states, i - 1, WorldOf(states[i - 1]));
      StepFromAnswers(b, states[i - 1], states[i]);
    }
  }

  /** As long as the adapter is up, and for good in a build that is not aborted, what is reported about
      commands is the beginning of the one trace of the build, and a result is the one of its world. */
  lemma ReportsFollowTrace(b: Build, states: seq<State>, i: nat)
    requires Run(b, states) && i < |states|
    requires !AdapterDown(states[i]) || (HasResult(states[i].main) && states[i].main.result != Aborted)
    ensures Fits(b, states[i], b.world) && states[i].commands <= Trace(b, b.world)
  {
    var s := states[i];
    RunKeepsInv(b, states, i);
    RunKeepsAnswers(b, states, i);
    RunFits(b, states, i, b.world);
    FitsIsPrefix(b, s, b.world);
  }

  lemma PassedRunsThrough(b: Build)
    requires ResultOf(b.cmds, b.world) == Passed
    ensures CleanUpTo(b.world, |b.cmds|) && Trace(b, b.world) == Blocks(b.cmds, b.world, |b.cmds|)
  {
    RunsThrough(b, b.world);
  }

  /** Over every interleaving of the abort with the commands: the effects come in exactly this order,
      and the result is coherent with the error, with the commands and with the snapshot. */
  lemma ResultIsCoherent(b: Build, states: seq<State>, i: nat)
    requires Run(b, states) && i < |states| && states[i].main.Done?
    ensures var s := states[i];
      var r := s.main.result;
      && s.log == EffectsBefore(s) + [JobFinished(r)]
      && (r == InfraFailed <==> s.main.err)
      && (r == Aborted ==> s.cancelled && s.prepared && s.captured == None)
      // not aborted: the whole trace is reported, and the commands decide the result unless the snapshot fails
      && (r != Aborted && s.prepared ==>
            && s.commands == Trace(b, b.world)
            && (r == ResultOf(b.cmds, b.world) || (r == InfraFailed && SnapshotFailed(s))))
      && (r == Passed ==> s.prepared && CleanUpTo(b.world, |b.cmds|))
      && (r == Passed && b.wantsSnapshot ==> s.captured == Some(true) && s.image == Some(true))
      && (!s.prepared ==> r == InfraFailed && s.commands == [])
      // a snapshot is captured only after the commands passed, and only if one is wanted
      && (s.captured.Some? ==> b.wantsSnapshot && CleanUpTo(b.world, |b.cmds|))
  {
    var s := states[i];
    RunKeepsInv(b, states, i);
    if s.main.result != Aborted {
      ReportsFollowTrace(b, states, i);
      if ResultOf(b.cmds, b.world) == Passed {
        PassedRunsThrough(b);
      }
    }
  }

  // ---------- The build comes to an end ----------

  function MainWork(m: Main): nat {
    match m
    case Fresh => 11
    case Checking => 10
    case Initializing => 9
    case Preparing => 8
    case Metering => 7
    case Selecting => 6
    case Capturing => 5
    case PushingImage => 4
    case Unwinding(_, _) => 3
    case Remetering(_, _) => 2
    case Finishing(_, _) => 1
    case Done(_, _) => 0
  }

  function WorkerWork(b: Build, w: Worker): int {
    match w
    case NotStarted => 4 * |b.cmds| + 3
    case Working(k) => 4 * (|b.cmds| - k) + 2
    case Executing(k) => 4 * (|b.cmds| - k) + 1
    case Reporting(k, _) => 4 * (|b.cmds| - k)
    case Publishing(k, _) => 4 * (|b.cmds| - k) - 1
    case Offering(_) => 1
    case Delivered(_) => 0
  }

  function Remaining(b: Build, s: State): int {
    MainWork(s.main) + WorkerWork(b, s.worker)
  }

  predicate InRange(b: Build, w: Worker) {
    && (w.Working? ==> w.k <= |b.cmds|)
    && (w.Executing? || w.Reporting? || w.Publishing? ==> w.k < |b.cmds|)
  }

  /** Every step but a signal makes progress. */
  lemma StepProgresses(b: Build, s: State, a: Action)
    requires Inv(b, s) && InRange(b, s.worker) && Enabled(b, s, a)
    ensures a != Cancel ==> 0 <= Remaining(b, Next(b, s, a)) < Remaining(b, s)
    ensures a == Cancel ==> Next(b, s, a) == s.(cancelled := true)
    ensures InRange(b, Next(b, s, a).worker)
  {
  }

  /** How many of the first `i` steps of a run do more than set the cancelled flag. */
  ghost function Moves(states: seq<State>, i: nat): nat
    requires i < |states|
  {
    if i == 0 then 0
    else Moves(states, i - 1) + if states[i] == states[i - 1].(cancelled := true) then 0 else 1
  }

  lemma StepIsBounded(b: Build, s: State, s': State)
    requires Inv(b, s) && InRange(b, s.worker) && Step(b, s, s')
    ensures InRange(b, s'.worker)
    ensures 0 <= Remaining(b, s') <= Remaining(b, s) - if s' == s.(cancelled := true) then 0 else 1
  {
    hide Inv, Enabled, Next;
    var a :| Enabled(b, s, a) && s' == Next(b, s, a);
    StepProgresses(b, s, a);
  }

  /** However the goroutines interleave and however often the abort signal comes, a build takes at
      most four steps for every command and fourteen more. */
  lemma {:induction false} BuildIsBounded(b: Build, states: seq<State>, i: nat)
    requires Run(b, states) && i < |states|
    ensures Moves(states, i) + Remaining(b, states[i]) <= 4 * |b.cmds| + 14
    ensures InRange(b, states[i].worker) && Remaining(b, states[i]) >= 0
  {
    hide Step, Inv;
    if i > 0 {
      BuildIsBounded(b, states, i - 1);
      RunKeepsInv(b, states, i - 1);
      StepIsBounded(b, states[i - 1], states[i]);
    }
  }

  /** A build comes to rest only when Run has returned. After an abort the command goroutine is left
      behind, offering a result that nobody will take. */
  lemma BuildRestsWhenDone(b: Build, s: State)
    requires Inv(b, s) && InRange(b, s.worker) && forall a :: Enabled(b, s, a) ==> a == Cancel
    ensures s.main.Done?
    ensures s.main.result == Aborted ==> s.worker.Offering?
  {
    assert !Enabled(b, s, Begin) && !Enabled(b, s, Check(true)) && !Enabled(b, s, InitAdapter(true));
    assert !Enabled(b, s, Prepare(true)) && !Enabled(b, s, ReportMetrics) && !Enabled(b, s, Receive);
    assert !Enabled(b, s, BeginCommand) && !Enabled(b, s, Report);
    assert s.worker.Executing? ==> !Enabled(b, s, RunEnds(b.world(s.worker.k).run));
    assert s.worker.Publishing? ==> !Enabled(b, s, Publish(b.world(s.worker.k).publishFails));
    assert !Enabled(b, s, Capture(true)) && !Enabled(b, s, PushImage(true));
    assert !Enabled(b, s, ShutdownAdapter) && !Enabled(b, s, Finish);
  }

  // ---------- When the adapter goes down beneath the commands ----------

  /** A call of adapter.Run is under way or still to come, if the world has its way. */
  predicate RunLeft(b: Build, w: Worker) {
    match w
    case Working(k) => k < |b.cmds|
    case Executing(_) => true
    case Reporting(k, run) => run == Success && k + 1 < |b.cmds|
    case Publishing(k, run) => run != Failure && k + 1 < |b.cmds|
    case _ => false
  }

  ghost predicate Deviates(b: Build, s: State) {
    !(s.commands <= Trace(b, b.world))
  }

  ghost predicate DeviationReachable(b: Build, s: State) {
    exists states :: Path(b, states) && states[0] == s && Deviates(b, states[|states| - 1])
  }

  function Other(run: RunOutcome): RunOutcome {
    if run == RunError then Success else RunError
  }

  lemma WrongEnd(b: Build, k: nat, events: seq<Event>)
    requires k < |b.cmds| && CleanUpTo(b.world, k)
    requires events == Blocks(b.cmds, b.world, k) + [InProgress(k), Ran(k), EndOf(b.cmds[k], Other(b.world(k).run), k)]
    ensures !(events <= Trace(b, b.world))
  {
    CleanPart(b, b.world, k);
    var front, block := Blocks(b.cmds, b.world, k), Block(b.cmds[k], b.world(k), k);
    assert (front + block)[|front| + 2] == block[2] == EndOf(b.cmds[k], b.world(k).run, k);
    assert events[|front| + 2] == EndOf(b.cmds[k], Other(b.world(k).run), k);
  }

  /** The call under way ends otherwise, and that is reported. */
  lemma ExecutingDeviates(b: Build, states: seq<State>) returns (states': seq<State>)
    requires Path(b, states) && AdapterDown(states[|states| - 1]) && Fits(b, states[|states| - 1], b.world)
    requires states[|states| - 1].worker.Executing?
    ensures Path(b, states') && states'[0] == states[0] && Deviates(b, states'[|states'| - 1])
  {
    var s := states[|states| - 1];
    var k, run := s.worker.k, Other(b.world(s.worker.k).run);
    var front := Blocks(b.cmds, b.world, k);
    assert front + [InProgress(k)] + [Ran(k)] + [EndOf(b.cmds[k], run, k)]
        == front + [InProgress(k), Ran(k), EndOf(b.cmds[k], run, k)];
    WrongEnd(b, k, front + [InProgress(k), Ran(k), EndOf(b.cmds[k], run, k)]);
    states' := Extend(b, states, RunEnds(run));
    states' := Extend(b, states', Report);
  }

  /** The artifacts get published although the world has them fail, and another command begins. */
  lemma PublishingDeviates(b: Build, states: seq<State>) returns (states': seq<State>)
    requires Path(b, states) && AdapterDown(states[|states| - 1]) && Fits(b, states[|states| - 1], b.world)
    requires var w := states[|states| - 1].worker;
      w.Publishing? && RunLeft(b, w) && b.world(w.k).publishFails
    ensures Path(b, states') && states'[0] == states[0] && Deviates(b, states'[|states'| - 1])
  {
    var s := states[|states| - 1];
    var Publishing(k, run) := s.worker;
    StopsAt(b, b.world, k);
    assert s.commands + [Published(k)] == Trace(b, b.world);
    states' := Extend(b, states, Publish(false));
    states' := Extend(b, states', BeginCommand);
  }

  /** A goroutine that still has an adapter call under way or ahead when the adapter goes down can come
      to report something else than the trace of the build. */
  lemma {:induction false} CanDeviate(b: Build, states: seq<State>) returns (states': seq<State>)
    requires Path(b, states) && AdapterDown(states[|states| - 1]) && Fits(b, states[|states| - 1], b.world)
    requires RunLeft(b, states[|states| - 1].worker)
    ensures Path(b, states') && states'[0] == states[0] && Deviates(b, states'[|states'| - 1])
    decreases WorkerWork(b, states[|states| - 1].worker)
  {
    var s := states[|states| - 1];
    match s.worker
    case Executing(_) => states' := ExecutingDeviates(b, states);
    case Working(_) =>
      BeginFits(b, s, b.world);
      states' := Extend(b, states, BeginCommand);
      states' := CanDeviate(b, states');
    case Reporting(_, _) =>
      ReportFits(b, s, b.world);
      states' := Extend(b, states, Report);
      states' := CanDeviate(b, states');
    case Publishing(k, _) =>
      if b.world(k).publishFails {
        states' := PublishingDeviates(b, states);
      } else {
        PublishFits(b, s, false, b.world);
        states' := Extend(b, states, Publish(false));
        states' := CanDeviate(b, states');
      }
  }

  /** A goroutine that has made its last call of adapter.Run: what it may still report is in the trace. */
  ghost predicate Harmless(b: Build, s: State) {
    && !RunLeft(b, s.worker) && s.commands <= Trace(b, b.world)
    && (s.worker.Reporting? || s.worker.Publishing? ==> Fits(b, s, b.world))
    && HasResult(s.main)
  }

  lemma EventStaysHarmless(b: Build, s: State, a: Action)
    requires Harmless(b, s) && Enabled(b, s, a)
    ensures Harmless(b, Next(b, s, a))
  {
    if a.Report? {
      ReportFits(b, s, b.world);
      FitsIsPrefix(b, Next(b, s, a), b.world);
    } else if a.Publish? {
      var Publishing(k, run) := s.worker;
      CleanPart(b, b.world, k);
      var front := Blocks(b.cmds, b.world, k);
      assert s.commands + [Published(k)] == front + Block(b.cmds[k], b.world(k), k);
    }
  }

  lemma StepStaysHarmless(b: Build, s: State, s': State)
    requires Harmless(b, s) && Step(b, s, s')
    ensures Harmless(b, s')
  {
    hide Harmless, Enabled, Next;
    var a :| Enabled(b, s, a) && s' == Next(b, s, a);
    EventStaysHarmless(b, s, a);
  }

  lemma {:induction false} PathStaysHarmless(b: Build, states: seq<State>, i: nat)
    requires Path(b, states) && i < |states| && Harmless(b, states[0])
    ensures Harmless(b, states[i])
  {
    hide Step, Harmless;
    if i > 0 {
      PathStaysHarmless(b, states, i - 1);
      StepStaysHarmless(b, states[i - 1], states[i]);
    }
  }

  /** The exact condition, for every state of every run in which a build has been aborted and its adapter
      is about to go down: something else than the trace of the build can come to be reported if and only
      if the command goroutine still has a call of adapter.Run under way or ahead. A last publication
      alone makes no difference: it is recorded in the same way whether it fails or not. */
  lemma DeviationExactly(b: Build, states: seq<State>, i: nat)
    requires Run(b, states) && i < |states| && states[i].main == Unwinding(Aborted, false)
    ensures DeviationReachable(b, states[i]) <==> RunLeft(b, states[i].worker)
  {
    var s := states[i];
    ReportsFollowTrace(b, states, i);
    if RunLeft(b, s.worker) {
      var path := Extend(b, [s], ShutdownAdapter);
      path := CanDeviate(b, path);
    } else if DeviationReachable(b, s) {
      var path :| Path(b, path) && path[0] == s && Deviates(b, path[|path| - 1]);
      PathStaysHarmless(b, path, |path| - 1);
    }
  }

  /** Only an abort can change what is reported, and only once the adapter is down. */
  lemma OnlyAbortDeviates(b: Build, states: seq<State>, i: nat)
    requires Run(b, states) && i < |states| && Deviates(b, states[i])
    ensures AdapterDown(states[i]) && states[i].main.result == Aborted && states[i].cancelled
  {
    RunKeepsInv(b, states, i);
    if !AdapterDown(states[i]) || states[i].main.result != Aborted {
      ReportsFollowTrace(b, states, i);
    }
  }

  lemma EventOnlyAdds(b: Build, s: State, a: Action)
    requires Enabled(b, s, a)
    ensures s.commands <= Next(b, s, a).commands
  {
  }

  lemma StepOnlyAdds(b: Build, s: State, s': State)
    requires Step(b, s, s')
    ensures s.commands <= s'.commands
  {
    hide Enabled, Next;
    var a :| Enabled(b, s, a) && s' == Next(b, s, a);
    EventOnlyAdds(b, s, a);
  }

  lemma {:induction false} RunOnlyAdds(b: Build, states: seq<State>, i: nat, j: nat)
    requires Run(b, states) && i <= j < |states|
    ensures states[i].commands <= states[j].commands
    decreases j
  {
    hide Step;
    if i < j {
      RunOnlyAdds(b, states, i, j - 1);
      StepOnlyAdds(b, states[j - 1], states[j]);
    }
  }

  /** What has been reported before the adapter goes down stays as it is, and stays the beginning of the
      trace of the build. */
  lemma EarlierReportsStay(b: Build, states: seq<State>, i: nat, j: nat)
    requires Run(b, states) && i <= j < |states| && !AdapterDown(states[i])
    ensures states[i].commands <= states[j].commands && states[i].commands <= Trace(b, b.world)
  {
    RunOnlyAdds(b, states, i, j);
    ReportsFollowTrace(b, states, i);
  }

  lemma RunStarts(b: Build)
    ensures Run(b, [Start()])
  {
  }

  /** A run up to an abort in the middle of the first command. */
  lemma AbortWhileRunning(b: Build) returns (states: seq<State>)
    requires b.cmds != []
    ensures Run(b, states)
    ensures states[|states| - 1] == Start().(main := Unwinding(Aborted, false), worker := Executing(0), cancelled := true,
      prepared := true, commands := [InProgress(0)], log := [JobInProgress, Metrics])
  {
    hide Run;
    RunStarts(b);
    states := [Start()];
    states := Act(b, states, Begin);
    states := Act(b, states, Check(true));
    states := Act(b, states, InitAdapter(true));
    states := Act(b, states, Prepare(true));
    states := Act(b, states, ReportMetrics);
    states := Act(b, states, BeginCommand);
    states := Act(b, states, Cancel);
    states := Act(b, states, Abort);
  }

  ghost predicate Busy(w: Worker) {
    w.Working? || w.Executing? || w.Reporting? || w.Publishing?
  }

  ghost predicate NothingToReport(s: State) {
    s.commands == [] && (Busy(s.worker) ==> s.worker == Working(0))
  }

  lemma EventReportsNothing(b: Build, s: State, a: Action)
    requires b.cmds == [] && NothingToReport(s) && Enabled(b, s, a)
    ensures NothingToReport(Next(b, s, a))
  {
  }

  lemma StepReportsNothing(b: Build, s: State, s': State)
    requires b.cmds == [] && NothingToReport(s) && Step(b, s, s')
    ensures NothingToReport(s')
  {
    hide NothingToReport, Enabled, Next;
    var a :| Enabled(b, s, a) && s' == Next(b, s, a);
    EventReportsNothing(b, s, a);
  }

  lemma {:induction false} PathReportsNothing(b: Build, states: seq<State>, i: nat)
    requires b.cmds == [] && Path(b, states) && i < |states| && NothingToReport(states[0])
    ensures NothingToReport(states[i])
  {
    hide Step, NothingToReport;
    if i > 0 {
      PathReportsNothing(b, states, i - 1);
      StepReportsNothing(b, states[i - 1], states[i]);
    }
  }

  /** From the start: some interleaving has something else than the trace of the build reported, if and
      only if there is a command at all. Only aborted builds are among these. */
  lemma AbortChangesReport(b: Build)
    ensures DeviationReachable(b, Start()) <==> b.cmds != []
  {
    if b.cmds != [] {
      var states := AbortWhileRunning(b);
      ReportsFollowTrace(b, states, |states| - 1);
      states := Extend(b, states, ShutdownAdapter);
      states := CanDeviate(b, states);
    } else if DeviationReachable(b, Start()) {
      var states :| Path(b, states) && states[0] == Start() && Deviates(b, states[|states| - 1]);
      PathReportsNothing(b, states, |states| - 1);
    }
  }

  // ---------- The main goroutine as the source writes it ----------

  /** The next step of the command goroutine, while the adapter is up. */
  ghost function WorkerAction(b: Build, s: State): Action
    requires s.worker.Working? || s.worker.Executing? || s.worker.Reporting? || s.worker.Publishing?
  {
    match s.worker
    case Working(_) => BeginCommand
    case Executing(k) => RunEnds(b.world(k).run)
    case Reporting(_, _) => Report
    case _ => Publish(b.world(s.worker.k).publishFails)
  }

  /** Only the command goroutine moves. */
  predicate SameMain(s: State, s': State) {
    s' == s.(worker := s'.worker, commands := s'.commands, runs := s'.runs, publishes := s'.publishes)
  }

  lemma WorkerMoves(b: Build, s: State) returns (a: Action)
    requires Busy(s.worker) && InRange(b, s.worker) && !AdapterDown(s) && Fits(b, s, b.world)
    ensures Enabled(b, s, a) && SameMain(s, Next(b, s, a)) && Fits(b, Next(b, s, a), b.world)
    ensures var w := Next(b, s, a).worker;
      && InRange(b, w) && (Busy(w) || w.Offering?) && 0 <= WorkerWork(b, w) < WorkerWork(b, s.worker)
  {
    a := WorkerAction(b, s);
    hide Fits;
    if a.RunEnds? {
      RunEndsFits(b, s, a.run, b.world);
    } else if a.Report? {
      ReportFits(b, s, b.world);
    } else if a.Publish? {
      PublishFits(b, s, a.fails, b.world);
    } else {
      BeginFits(b, s, b.world);
    }
  }

  lemma WorkerActs(b: Build, states: seq<State>) returns (states': seq<State>)
    requires Run(b, states) && Busy(states[|states| - 1].worker) && InRange(b, states[|states| - 1].worker)
    requires !AdapterDown(states[|states| - 1]) && Fits(b, states[|states| - 1], b.world)
    ensures Run(b, states') && SameMain(states[|states| - 1], states'[|states'| - 1])
    ensures var s, s' := states[|states| - 1], states'[|states'| - 1];
      && InRange(b, s'.worker) && Fits(b, s', b.world)
      && (Busy(s'.worker) || s'.worker.Offering?) && 0 <= WorkerWork(b, s'.worker) < WorkerWork(b, s.worker)
  {
    var a := WorkerMoves(b, states[|states| - 1]);
    hide Enabled, Next, Fits, SameMain, WorkerWork;
    states' := Act(b, states, a);
  }

  /** The command goroutine takes up to `n` steps while the main goroutine waits. */
  lemma {:induction false} WorkerRuns(b: Build, states: seq<State>, n: nat) returns (states': seq<State>)
    requires Run(b, states) && InRange(b, states[|states| - 1].worker) && Fits(b, states[|states| - 1], b.world)
    requires !AdapterDown(states[|states| - 1])
    requires Busy(states[|states| - 1].worker) || states[|states| - 1].worker.Offering?
    ensures Run(b, states') && SameMain(states[|states| - 1], states'[|states'| - 1])
    ensures var s, s' := states[|states| - 1], states'[|states'| - 1];
      && Fits(b, s', b.world) && (Busy(s'.worker) || s'.worker.Offering?)
      && (n >= WorkerWork(b, s.worker) ==> s'.worker.Offering?)
    decreases n
  {
    states' := states;
    if n > 0 && Busy(states[|states| - 1].worker) {
      var next := WorkerActs(b, states);
      states' := WorkerRuns(b, next, n - 1);
    }
  }

  /** What the outside answers besides the world of the commands: the debug config, the adapter, the
      snapshot and its upload; and whether the select is won by an abort signal. */
  datatype Answers = Answers(configOk: bool, initOk: bool, prepareOk: bool, aborts: bool, captureOk: bool, pushOk: bool)

  predicate Prepared(o: Answers) {
    o.configOk && o.initOk && o.prepareOk
  }

  /** A snapshot is attempted exactly if one is wanted and the commands passed. */
  predicate SnapshotDue(b: Build) {
    b.wantsSnapshot && ResultOf(b.cmds, b.world) == Passed
  }

  /** The result of a build that is not aborted. */
  function ResultDue(b: Build, o: Answers): Result {
    if !Prepared(o) then InfraFailed
    else if SnapshotDue(b) && !(o.captureOk && o.pushOk) then InfraFailed
    else ResultOf(b.cmds, b.world)
  }

  function SnapshotEffects(b: Build, o: Answers): seq<Effect> {
    if SnapshotDue(b) then [Captured(o.captureOk), ImageStatus(o.captureOk, o.pushOk)] else []
  }

  /** Capturing the snapshot, and pushing whether that worked. */
  method TakeSnapshot(b: Build, o: Answers, log0: seq<Effect>, ghost states0: seq<State>)
    returns (log: seq<Effect>, ghost states: seq<State>)
    requires Run(b, states0) && states0[|states0| - 1].main == Capturing && states0[|states0| - 1].log == log0
    ensures Run(b, states) && states[|states| - 1].log == log
    ensures states[|states| - 1].main == if o.captureOk && o.pushOk then Unwinding(Passed, false) else Unwinding(InfraFailed, true)
    ensures log == log0 + [Captured(o.captureOk), ImageStatus(o.captureOk, o.pushOk)]
  {
    log := log0 + [Captured(o.captureOk)];
    states := Act(b, states0, Capture(o.captureOk));
    log := log + [ImageStatus(o.captureOk, o.pushOk)];
    states := Act(b, states, PushImage(o.pushOk));
  }

  lemma FitsAtStart(b: Build, s: State, world: World)
    requires s.worker == Working(0) && s.commands == []
    ensures Fits(b, s, world) && InRange(b, s.worker)
  {
  }

  lemma OfferFits(b: Build, s: State, world: World)
    requires Fits(b, s, world) && s.worker.Offering?
    ensures s.worker.result == ResultOf(b.cmds, world)
  {
  }

  method AwaitCommands(b: Build, o: Answers, log0: seq<Effect>, ghost states0: seq<State>)
    returns (result: Result, err: bool, log: seq<Effect>, ghost states: seq<State>)
    requires Run(b, states0)
    requires states0[|states0| - 1] == Start().(main := Selecting, worker := Working(0), prepared := true, log := log0)
    ensures Run(b, states)
    ensures states[|states| - 1].main == Unwinding(result, err) && states[|states| - 1].log == log
    ensures result == Aborted <==> o.aborts
    ensures result == Aborted ==> !err && log == log0
    ensures result != Aborted ==>
      && (err <==> result == InfraFailed)
      && result == (if SnapshotDue(b) && !(o.captureOk && o.pushOk) then InfraFailed else ResultOf(b.cmds, b.world))
      && log == log0 + SnapshotEffects(b, o)
  {
    FitsAtStart(b, states0[|states0| - 1], b.world);
    assert 4 * |b.cmds| + 2 >= WorkerWork(b, Working(0));
    hide Run, Fits, WorkerWork;
    ResultMeaning(b.cmds, b.world);
    log, states := log0, states0;
    if o.aborts {
      ghost var n: nat :| true;
      states := WorkerRuns(b, states, n);
      states := Act(b, states, Cancel);
      states := Act(b, states, Abort);
      return Aborted, false, log, states;
    }
    var trace;
    result, err, trace := ExecuteCommands(b.cmds, b.world);
    states := WorkerRuns(b, states, 4 * |b.cmds| + 2);
    OfferFits(b, states[|states| - 1], b.world);
    states := Act(b, states, Receive);
    if err {
      return;
    }
    if result == Passed && b.wantsSnapshot {
      log, states := TakeSnapshot(b, o, log, states);
      if !o.captureOk || !o.pushOk {
        return InfraFailed, true, log, states;
      }
    }
  }

  method RunBuildPlan(b: Build, o: Answers, log0: seq<Effect>, ghost states0: seq<State>)
    returns (result: Result, err: bool, log: seq<Effect>, ghost states: seq<State>)
    requires Run(b, states0) && log0 == [JobInProgress]
    requires states0[|states0| - 1] == Start().(main := Checking, log := log0)
    ensures Run(b, states)
    ensures states[|states| - 1].main == Finishing(result, err) && states[|states| - 1].log == log
    ensures result == Aborted <==> Prepared(o) && o.aborts
    ensures result != Aborted ==> result == ResultDue(b, o) && (err <==> result == InfraFailed)
    ensures result == Aborted ==> !err && log == log0 + [Metrics, AdapterShutdown, Metrics]
    ensures result != Aborted ==>
      log == log0 + if Prepared(o) then [Metrics] + SnapshotEffects(b, o) + [AdapterShutdown, Metrics] else []
  {
    hide Run;
    log := log0;
    states := Act(b, states0, Check(o.configOk));
    if !o.configOk {
      return InfraFailed, true, log, states;
    }
    states := Act(b, states, InitAdapter(o.initOk));
    if !o.initOk {
      return InfraFailed, true, log, states;
    }
    states := Act(b, states, Prepare(o.prepareOk));
    if !o.prepareOk {
      return InfraFailed, true, log, states;
    }
    log := log + [Metrics];
    states := Act(b, states, ReportMetrics);
    result, err, log, states := AwaitCommands(b, o, log, states);
    // the deferred shutdown of the adapter
    log := log + [AdapterShutdown];
    states := Act(b, states, ShutdownAdapter);
    log := log + [Metrics];
    states := Act(b, states, ReportMetrics);
  }

  /** Run of engine.go, statement by statement. `log` lists its effects; which of two ready cases the
      select takes is one of the answers. Every execution is a run of the machine, so all that is proved of runs
      holds of it, and the answers decide result and effects as stated. */
  method RunEngine(b: Build, o: Answers) returns (result: Result, err: bool, log: seq<Effect>, ghost states: seq<State>)
    ensures Run(b, states)
    ensures states[|states| - 1].main == Done(result, err) && states[|states| - 1].log == log
    ensures result == Aborted <==> Prepared(o) && o.aborts
    ensures result != Aborted ==> result == ResultDue(b, o) && (err <==> result == InfraFailed)
    ensures result == Aborted ==> !err && log == [JobInProgress, Metrics, AdapterShutdown, Metrics, JobFinished(Aborted)]
    ensures result != Aborted ==>
      log == [JobInProgress]
        + (if Prepared(o) then [Metrics] + SnapshotEffects(b, o) + [AdapterShutdown, Metrics] else [])
        + [JobFinished(result)]
  {
    hide Run;
    RunStarts(b);
    log, states := [JobInProgress], [Start()];
    states := Act(b, states, Begin);
    result, err, log, states := RunBuildPlan(b, o, log, states);
    log := log + [JobFinished(result)];
    states := Act(b, states, Finish);
  }
}
