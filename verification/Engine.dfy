/** engine/engine.go: the command loop, and the build plan around it, in which an abort signal
    races with the goroutine that runs the commands. */
module Engine {
  datatype Result = Passed | Failed | Aborted | InfraFailed

  // ---------- The command loop ----------

  datatype Command = Command(infraSetup: bool, captureOutput: bool)

  /** What adapter.Run gives for a command. */
  datatype RunOutcome = RunError | Success | Failure

  /** The adapter's and the reporter's answers for the k-th command. */
  datatype Outcome = Outcome(run: RunOutcome, publishFails: bool)

  /** What the command loop does to the k-th command. */
  datatype Event =
    | InProgress(k: nat)
    | Ran(k: nat)
    | Finished(k: nat, code: int, withOutput: bool)
    | Published(k: nat)

  type World = nat -> Outcome

  predicate Clean(world: World, k: nat) {
    world(k).run == Success && !world(k).publishFails
  }

  /** The first command that is not clean, or the number of commands. */
  function FirstStop(cmds: seq<Command>, world: World, from: nat): (n: nat)
    requires from <= |cmds|
    ensures from <= n <= |cmds|
    ensures forall k :: from <= k < n ==> Clean(world, k)
    ensures n < |cmds| ==> !Clean(world, n)
    decreases |cmds| - from
  {
    if from < |cmds| && Clean(world, from) then FirstStop(cmds, world, from + 1) else from
  }

  /** An infra_setup command that fails, or a command that cannot be run, publishes nothing. */
  predicate Publishes(cmd: Command, outcome: Outcome) {
    outcome.run == Success || (outcome.run == Failure && !cmd.infraSetup)
  }

  /** The final status of a command: its return code, and its output if that was asked for. */
  function EndOf(cmd: Command, run: RunOutcome, k: nat): Event {
    var code := match run case RunError => 255 case Success => 0 case Failure => 1;
    Finished(k, code, run == Success && cmd.captureOutput)
  }

  /** The block of events of one command: in progress, run, one final status, artifacts. */
  function Block(cmd: Command, outcome: Outcome, k: nat): seq<Event> {
    [InProgress(k), Ran(k), EndOf(cmd, outcome.run, k)]
    + if Publishes(cmd, outcome) then [Published(k)] else []
  }

  /** The blocks of the first `n` commands. */
  function Blocks(cmds: seq<Command>, world: World, n: nat): seq<Event>
    requires n <= |cmds|
  {
    if n == 0 then [] else Blocks(cmds, world, n - 1) + Block(cmds[n - 1], world(n - 1), n - 1)
  }

  /** How many commands are run: all up to and including the one that stops the loop. */
  function CommandsRun(cmds: seq<Command>, world: World): (n: nat)
    ensures n <= |cmds|
  {
    var stop := FirstStop(cmds, world, 0);
    if stop < |cmds| then stop + 1 else stop
  }

  /** The result, as a function of the command that stopped the loop. */
  function ResultOf(cmds: seq<Command>, world: World): Result {
    var stop := FirstStop(cmds, world, 0);
    if stop == |cmds| then Passed
    else if world(stop).run == Failure && !cmds[stop].infraSetup && !world(stop).publishFails then Failed
    else InfraFailed
  }

  lemma StopHere(cmds: seq<Command>, world: World, k: nat)
    requires k < |cmds| && !Clean(world, k) && forall j :: 0 <= j < k ==> Clean(world, j)
    ensures FirstStop(cmds, world, 0) == k
  {
  }

  lemma NeverStops(cmds: seq<Command>, world: World)
    requires forall j :: 0 <= j < |cmds| ==> Clean(world, j)
    ensures FirstStop(cmds, world, 0) == |cmds|
  {
  }

  predicate WentWell(world: World, n: nat) {
    forall j :: 0 <= j < n ==> world(j) == Outcome(Success, false)
  }

  /** A command fails that is no infra_setup one, after commands that all went well. */
  predicate OneFails(cmds: seq<Command>, world: World) {
    exists k :: 0 <= k < |cmds| && WentWell(world, k) && world(k) == Outcome(Failure, false) && !cmds[k].infraSetup
  }

  lemma ReachesStop(cmds: seq<Command>, world: World, k: nat)
    requires k <= |cmds|
    ensures WentWell(world, k) <==> k <= FirstStop(cmds, world, 0)
  {
    var stop := FirstStop(cmds, world, 0);
    if stop < k {
      assert world(stop) != Outcome(Success, false);
    } else {
      forall j | 0 <= j < k ensures world(j) == Outcome(Success, false) {
        assert Clean(world, j);
      }
    }
  }

  /** What the result says about the answers. */
  lemma ResultMeaning(cmds: seq<Command>, world: World)
    ensures ResultOf(cmds, world) == Passed <==> WentWell(world, |cmds|)
    ensures ResultOf(cmds, world) == Failed <==> OneFails(cmds, world)
    ensures ResultOf(cmds, world) != Aborted
  {
    var stop := FirstStop(cmds, world, 0);
    ReachesStop(cmds, world, |cmds|);
    ReachesStop(cmds, world, stop);
    forall k | 0 <= k < |cmds| && WentWell(world, k) && world(k) == Outcome(Failure, false) ensures k == stop {
      ReachesStop(cmds, world, k);
    }
  }

  /** The block as it is put together. */
  lemma BlockText(before: seq<Event>, cmd: Command, outcome: Outcome, k: nat)
    ensures var front := before + [InProgress(k)] + [Ran(k)] + [EndOf(cmd, outcome.run, k)];
      before + Block(cmd, outcome, k) == if Publishes(cmd, outcome) then front + [Published(k)] else front
  {
  }

  method ExecuteCommands(cmds: seq<Command>, world: World) returns (result: Result, err: bool, trace: seq<Event>)
    ensures trace == Blocks(cmds, world, CommandsRun(cmds, world))
    ensures result == ResultOf(cmds, world)
    ensures err <==> result == InfraFailed
    ensures result == Passed <==> WentWell(world, |cmds|)
    ensures result == Failed <==> OneFails(cmds, world)
    ensures result != Aborted
  {
    hide WentWell, OneFails, FirstStop, Block;
    ResultMeaning(cmds, world);
    trace := [];
    for k := 0 to |cmds|
      invariant trace == Blocks(cmds, world, k)
      invariant forall j :: 0 <= j < k ==> Clean(world, j)
    {
      BlockText(trace, cmds[k], world(k), k);
      trace := trace + [InProgress(k)];
      var outcome := world(k);
      trace := trace + [Ran(k)];
      if !Clean(world, k) {
        StopHere(cmds, world, k);
      }
      if outcome.run == RunError {
        trace := trace + [Finished(k, 255, false)];
        return InfraFailed, true, trace;
      }
      if outcome.run == Success {
        trace := trace + [Finished(k, 0, cmds[k].captureOutput)];
      } else {
        trace := trace + [Finished(k, 1, false)];
        if cmds[k].infraSetup {
          return InfraFailed, true, trace;
        }
      }
      trace := trace + [Published(k)];
      if outcome.publishFails {
        return InfraFailed, true, trace;
      }
      if outcome.run == Failure {
        return Failed, false, trace;
      }
    }
    NeverStops(cmds, world);
    return Passed, false, trace;
  }

  // ---------- What a trace of blocks says ----------

  /** `trace` holds `block` at `p`, after the events of earlier commands and before those of later ones. */
  ghost predicate HoldsAt(trace: seq<Event>, block: seq<Event>, k: nat, p: nat) {
    && p + |block| <= |trace| && (forall q :: 0 <= q < |block| ==> trace[p + q] == block[q])
    && (forall q :: 0 <= q < p ==> trace[q].k < k)
    && (forall q :: p + |block| <= q < |trace| ==> trace[q].k > k)
  }

  lemma {:induction false} BlocksBelow(cmds: seq<Command>, world: World, n: nat)
    requires n <= |cmds|
    ensures forall q :: 0 <= q < |Blocks(cmds, world, n)| ==> Blocks(cmds, world, n)[q].k < n
  {
    if n > 0 {
      BlocksBelow(cmds, world, n - 1);
    }
  }

  lemma BlockIsOf(cmd: Command, outcome: Outcome, k: nat)
    ensures forall q :: 0 <= q < |Block(cmd, outcome, k)| ==> Block(cmd, outcome, k)[q].k == k
  {
  }

  /** Later events change nothing for an earlier command. */
  lemma HoldsLonger(front: seq<Event>, more: seq<Event>, block: seq<Event>, k: nat, p: nat)
    requires HoldsAt(front, block, k, p) && forall q :: 0 <= q < |more| ==> more[q].k > k
    ensures HoldsAt(front + more, block, k, p)
  {
  }

  lemma {:induction false} BlocksHold(cmds: seq<Command>, world: World, n: nat, k: nat) returns (p: nat)
    requires k < n <= |cmds|
    ensures HoldsAt(Blocks(cmds, world, n), Block(cmds[k], world(k), k), k, p)
  {
    hide Block;
    var front, block := Blocks(cmds, world, n - 1), Block(cmds[n - 1], world(n - 1), n - 1);
    BlockIsOf(cmds[n - 1], world(n - 1), n - 1);
    if k == n - 1 {
      BlocksBelow(cmds, world, n - 1);
      p := |front|;
    } else {
      p := BlocksHold(cmds, world, n - 1, k);
      HoldsLonger(front, block, Block(cmds[k], world(k), k), k, p);
    }
  }

  /** Everything reported about command k: in progress, run, finished with return code 0 and the
      output if it succeeded, with 1 if it failed and with 255 if it could not be run, and then
      published unless it failed as an infra_setup command or could not be run. */
  function Story(cmd: Command, run: RunOutcome, k: nat): seq<Event> {
    match run
    case Success => [InProgress(k), Ran(k), Finished(k, 0, cmd.captureOutput), Published(k)]
    case Failure =>
      if cmd.infraSetup then [InProgress(k), Ran(k), Finished(k, 1, false)]
      else [InProgress(k), Ran(k), Finished(k, 1, false), Published(k)]
    case RunError => [InProgress(k), Ran(k), Finished(k, 255, false)]
  }

  lemma StoryIsBlock(cmd: Command, outcome: Outcome, k: nat)
    ensures Block(cmd, outcome, k) == Story(cmd, outcome.run, k)
  {
  }

  /** The commands run are those up to the first that is not clean. In the trace each of them has its
      story, once and before the next one starts; of the others there is nothing. */
  lemma CommandTrace(cmds: seq<Command>, world: World, k: nat)
    requires k < |cmds|
    ensures k < CommandsRun(cmds, world) <==> WentWell(world, k)
    ensures var trace := Blocks(cmds, world, CommandsRun(cmds, world));
      if k < CommandsRun(cmds, world) then exists p :: HoldsAt(trace, Story(cmds[k], world(k).run, k), k, p)
      else forall q :: 0 <= q < |trace| ==> trace[q].k != k
  {
    hide Blocks, Block, Story, HoldsAt;
    var n := CommandsRun(cmds, world);
    ReachesStop(cmds, world, k);
    BlocksBelow(cmds, world, n);
    if k < n {
      var p := BlocksHold(cmds, world, n, k);
      StoryIsBlock(cmds[k], world(k), k);
    }
  }

  lemma HeldEvents(trace: seq<Event>, block: seq<Event>, k: nat, p: nat, ev: Event)
    requires HoldsAt(trace, block, k, p) && ev.k == k
    ensures ev in trace <==> ev in block
  {
    if ev in trace {
      var q :| 0 <= q < |trace| && trace[q] == ev;
      assert trace[p + (q - p)] == block[q - p];
    }
    if ev in block {
      var q :| 0 <= q < |block| && block[q] == ev;
      assert trace[p + q] == ev;
    }
  }

  lemma TraceEvents(cmds: seq<Command>, world: World, k: nat, ev: Event)
    requires k < |cmds| && ev.k == k
    ensures ev in Blocks(cmds, world, CommandsRun(cmds, world)) <==>
      WentWell(world, k) && ev in Story(cmds[k], world(k).run, k)
  {
    hide Blocks, CommandsRun, HoldsAt, Story, WentWell;
    CommandTrace(cmds, world, k);
    var trace, story := Blocks(cmds, world, CommandsRun(cmds, world)), Story(cmds[k], world(k).run, k);
    if k < CommandsRun(cmds, world) {
      var p :| HoldsAt(trace, story, k, p);
      HeldEvents(trace, story, k, p, ev);
    }
  }

  /** The return codes: of a command that was run exactly one final status is reported. */
  lemma ReturnCodes(cmds: seq<Command>, world: World, k: nat, code: int, withOutput: bool)
    requires k < |cmds|
    ensures Finished(k, code, withOutput) in Blocks(cmds, world, CommandsRun(cmds, world)) <==>
      && WentWell(world, k)
      && (|| (world(k).run == Success && code == 0 && withOutput == cmds[k].captureOutput)
          || (world(k).run == Failure && code == 1 && !withOutput)
          || (world(k).run == RunError && code == 255 && !withOutput))
  {
    hide Blocks, CommandsRun, WentWell;
    TraceEvents(cmds, world, k, Finished(k, code, withOutput));
  }
}
