/** When a send on the closed queue panics, and that the program otherwise comes to its end. */
module BuildPanic {
  import opened BuildReport
  import opened Options
  import Engine
  import B = BuildPlan
  import L = Rendezvous
  import R = Reporter

  // ---------- Without a command goroutine that owes anything there is no panic ----------

  lemma StaysQuiet(b: B.Build, s: B.State, a: B.Action)
    requires B.Enabled(b, s, a) && B.HasResult(s.main) && !MayPush(b, s.worker) && a != B.Receive
    ensures B.HasResult(B.Next(b, s, a).main) && !MayPush(b, B.Next(b, s, a).worker)
  {
  }

  ghost predicate Quiet(b: B.Build, s: State) {
    B.HasResult(s.build.main) && !Owes(b, s) && !s.queue.panicked
  }

  lemma BuildStaysQuiet(b: B.Build, cap: nat, s: State, a: B.Action, reports: bool)
    requires Inv(b, cap, s) && Quiet(b, s) && Enabled(b, cap, s, Build(a, reports))
    ensures Quiet(b, Next(b, cap, s, Build(a, reports)))
  {
    var p := Push(b, s.build, a, reports);
    StaysQuiet(b, s.build, a);
    SendKeepsQueue(cap, s, p);
    if p.Some? {
      PushComesFrom(b, s.build, a, reports);
      SendKeepsSends(cap, s, p.value);
    }
  }

  lemma LogStaysQuiet(b: B.Build, cap: nat, s: State, e: L.Event)
    requires Inv(b, cap, s) && Quiet(b, s) && Enabled(b, cap, s, Log(e))
    ensures Quiet(b, Next(b, cap, s, Log(e)))
  {
    LogKeepsOrder(cap, s, e);
    SendKeepsQueue(cap, s, Chunk(s, e));
    if Chunk(s, e).Some? {
      SendKeepsSends(cap, s, Chunk(s, e).value);
    }
  }

  lemma CloseStaysQuiet(b: B.Build, cap: nat, s: State)
    requires Inv(b, cap, s) && Quiet(b, s) && Enabled(b, cap, s, Close)
    ensures Quiet(b, Next(b, cap, s, Close))
  {
    QueueKeepsSends(cap, s, R.CloseChannel);
    if id :| R.IsBlocked(s.queue.sends, id) {
      BlockedOwes(b, cap, s, id);
    }
  }

  lemma QueueStaysQuiet(b: B.Build, cap: nat, s: State, e: R.Event)
    requires Inv(b, cap, s) && Quiet(b, s) && Enabled(b, cap, s, Queue(e))
    ensures Quiet(b, Next(b, cap, s, Queue(e)))
  {
    QueueKeepsSends(cap, s, e);
  }

  lemma StaysQuietAfter(b: B.Build, cap: nat, s: State, a: Action)
    requires Inv(b, cap, s) && Quiet(b, s) && Enabled(b, cap, s, a)
    ensures Quiet(b, Next(b, cap, s, a))
  {
    hide Inv;
    match a
    case Build(a, reports) => BuildStaysQuiet(b, cap, s, a, reports);
    case Log(e) => LogStaysQuiet(b, cap, s, e);
    case Close => CloseStaysQuiet(b, cap, s);
    case Queue(e) => QueueStaysQuiet(b, cap, s, e);
  }

  lemma StepStaysQuiet(b: B.Build, cap: nat, s: State, s': State)
    requires Inv(b, cap, s) && Quiet(b, s) && Step(b, cap, s, s')
    ensures Inv(b, cap, s') && Quiet(b, s')
  {
    hide Inv, Quiet, Enabled, Next;
    var a :| Enabled(b, cap, s, a) && s' == Next(b, cap, s, a);
    StepKeepsInv(b, cap, s, a);
    StaysQuietAfter(b, cap, s, a);
  }

  ghost predicate Path(b: B.Build, cap: nat, states: seq<State>) {
    states != [] && forall i :: 0 <= i < |states| - 1 ==> Step(b, cap, states[i], states[i + 1])
  }

  lemma {:induction false} PathStaysQuiet(b: B.Build, cap: nat, states: seq<State>, i: nat)
    requires Path(b, cap, states) && i < |states| && Inv(b, cap, states[0]) && Quiet(b, states[0])
    ensures Inv(b, cap, states[i]) && Quiet(b, states[i])
  {
    hide Step, Inv, Quiet;
    if i > 0 {
      PathStaysQuiet(b, cap, states, i - 1);
      StepStaysQuiet(b, cap, states[i - 1], states[i]);
    }
  }

  // ---------- With one there is a way to a panic ----------

  ghost predicate Leads(b: B.Build, cap: nat, s: State, states: seq<State>, t: State) {
    Path(b, cap, states) && states[0] == s && states[|states| - 1] == t
  }

  lemma Go(b: B.Build, cap: nat, s: State, states: seq<State>, t: State, a: Action)
    returns (states': seq<State>, t': State)
    requires Leads(b, cap, s, states, t) && Inv(b, cap, t) && Enabled(b, cap, t, a)
    ensures t' == Next(b, cap, t, a) && Leads(b, cap, s, states', t') && Inv(b, cap, t')
  {
    t' := Next(b, cap, t, a);
    states' := states + [t'];
    StepKeepsInv(b, cap, t, a);
    assert Step(b, cap, t, t');
    forall i | 0 <= i < |states'| - 1 ensures Step(b, cap, states'[i], states'[i + 1]) {
      if i < |states| - 1 {
        assert states'[i] == states[i] && states'[i + 1] == states[i + 1];
      }
    }
  }

  /** The queue has moved on, nothing else. */
  predicate OnlyQueue(s: State, t: State) {
    && t == s.(queue := t.queue) && t.queue.closed == s.queue.closed && !t.queue.panicked
  }

  lemma QueueGoes(b: B.Build, cap: nat, s: State, states: seq<State>, t: State, e: R.Event)
    returns (states': seq<State>, t': State)
    requires Leads(b, cap, s, states, t) && Inv(b, cap, t) && !t.queue.panicked
    requires R.Enabled(cap, t.queue, e) && (e.FinishPayload? || e.Receive? || e.Enqueue? || e.Handoff?)
    ensures Leads(b, cap, s, states', t') && Inv(b, cap, t') && OnlyQueue(t, t')
    ensures t'.queue == R.Next(cap, t.queue, e)
    ensures e.FinishPayload? || e.Receive? ==> t'.queue.sends == t.queue.sends
    ensures e.Enqueue? || e.Handoff? ==> t'.queue.sends == t.queue.sends[e.id := R.Accepted]
  {
    states', t' := Go(b, cap, s, states, t, Queue(e));
  }

  /** Taking the blocked send of one goroutine leaves the others as they are. */
  lemma OthersStay(t: State, t': State, g: Goroutine)
    requires SendsInv(t) && Waits(t, g) && t'.last == t.last
    requires t'.queue.sends == t.queue.sends[t.last[g] := R.Accepted]
    ensures !Waits(t', g) && forall h :: h != g ==> (Waits(t', h) <==> Waits(t, h))
  {
    forall h | h != g ensures Waits(t', h) <==> Waits(t, h) {
      if h in t.last {
        assert t.last[h] != t.last[g];
      }
    }
  }

  lemma Unblock(b: B.Build, cap: nat, s: State, states: seq<State>, t: State, g: Goroutine)
    returns (states': seq<State>, t': State)
    requires Leads(b, cap, s, states, t) && Inv(b, cap, t) && !t.queue.panicked && !t.queue.closed && Waits(t, g)
    ensures Leads(b, cap, s, states', t') && Inv(b, cap, t') && OnlyQueue(t, t')
    ensures !Waits(t', g) && forall h :: h != g ==> (Waits(t', h) <==> Waits(t, h))
  {
    hide B.Inv, B.InRange, L.Inv, SendsInv, OrderInv, Leads;
    var id := t.last[g];
    states', t' := states, t;
    if t'.queue.sender.Sending? {
      states', t' := QueueGoes(b, cap, s, states', t', R.FinishPayload);
    }
    if t'.queue.queue == [] {
      states', t' := QueueGoes(b, cap, s, states', t', R.Handoff(id));
    } else {
      states', t' := QueueGoes(b, cap, s, states', t', R.Receive);
      states', t' := QueueGoes(b, cap, s, states', t', R.Enqueue(id));
    }
    OthersStay(t, t', g);
  }

  function ReaderWork(r: L.Reader): nat {
    match r
    case Holding(_) => 4
    case Waiting => 2
    case Finished => 0
  }

  /** What is left of the way once the build has a result. */
  function Way(s: State): nat {
    2 * B.MainWork(s.build.main) + (if Waits(s, MainGoroutine) then 1 else 0)
    + (if s.log.closed then 0 else 1) + ReaderWork(s.log.reader)
    + (if Waits(s, LogGoroutine) then 1 else 0) + (if Returned(s) then 0 else 1)
  }

  /** Nothing has changed for the command goroutine. */
  predicate SameForCommands(s: State, t: State) {
    t.build.worker == s.build.worker && (Waits(t, CommandGoroutine) <==> Waits(s, CommandGoroutine))
  }

  /** One more step on the way, while the command goroutine stands still. */
  ghost predicate Nearer(t: State, t': State) {
    B.HasResult(t'.build.main) && !t'.queue.panicked && SameForCommands(t, t') && Way(t') < Way(t)
  }

  /** A step of the build that sends nothing. */
  lemma BuildGoes(b: B.Build, cap: nat, s: State, states: seq<State>, t: State, a: B.Action)
    returns (states': seq<State>, t': State)
    requires Leads(b, cap, s, states, t) && Inv(b, cap, t) && !t.queue.panicked && !Waits(t, MainGoroutine)
    requires B.Enabled(b, t.build, a) && !IsCommandAction(a) && a != B.Receive && Push(b, t.build, a, false).None?
    ensures Leads(b, cap, s, states', t') && Inv(b, cap, t')
    ensures t' == t.(build := B.Next(b, t.build, a)) && !Waits(t', MainGoroutine)
  {
    states', t' := Go(b, cap, s, states, t, Build(a, false));
  }

  /** Only the build has moved on, so nobody's send has. */
  lemma WaysSame(t: State, t': State)
    requires t' == t.(build := t'.build)
    ensures forall g :: Waits(t', g) <==> Waits(t, g)
  {
  }

  /** On the way out: shutting down the adapter, and metrics, of which there may be none. */
  lemma MainGoes(b: B.Build, cap: nat, s: State, states: seq<State>, t: State, a: B.Action)
    returns (states': seq<State>, t': State)
    requires Leads(b, cap, s, states, t) && Inv(b, cap, t) && !t.queue.panicked && !Returned(t)
    requires !Waits(t, MainGoroutine) && B.HasResult(t.build.main)
    requires if t.build.main.Unwinding? then a == B.ShutdownAdapter else t.build.main.Remetering? && a == B.ReportMetrics
    ensures Leads(b, cap, s, states', t') && Inv(b, cap, t') && Nearer(t, t')
  {
    hide Inv, Leads, Waits;
    states', t' := BuildGoes(b, cap, s, states, t, a);
    WaysSame(t, t');
  }

  lemma SendsLast(cap: nat, t: State, p: Payload)
    requires SendsInv(t) && R.Inv(cap, t.queue) && !t.queue.panicked && !t.queue.closed && !Waits(t, Sender(p))
    ensures var t' := Send(cap, t, Some(p));
      && !t'.queue.panicked && t'.log == t.log && t'.build == t.build
      && forall g :: g != Sender(p) ==> (Waits(t', g) <==> Waits(t, g))
  {
    SendKeepsSends(cap, t, p);
  }

  lemma FinishIsNearer(b: B.Build, cap: nat, t: State)
    requires Inv(b, cap, t) && !t.queue.panicked && !Returned(t) && !Waits(t, MainGoroutine) && t.build.main.Finishing?
    ensures Enabled(b, cap, t, Build(B.Finish, false)) && Nearer(t, Next(b, cap, t, Build(B.Finish, false)))
  {
    hide B.Inv, R.Inv;
    var p := JobStatus(B.JobFinished(t.build.main.result));
    SendsLast(cap, t, p);
    var t' := Send(cap, t, Some(p));
    assert Waits(t', LogGoroutine) <==> Waits(t, LogGoroutine);
    assert Waits(t', CommandGoroutine) <==> Waits(t, CommandGoroutine);
  }

  lemma MainFinishes(b: B.Build, cap: nat, s: State, states: seq<State>, t: State)
    returns (states': seq<State>, t': State)
    requires Leads(b, cap, s, states, t) && Inv(b, cap, t) && !t.queue.panicked && !Returned(t)
    requires !Waits(t, MainGoroutine) && t.build.main.Finishing?
    ensures Leads(b, cap, s, states', t') && Inv(b, cap, t') && Nearer(t, t')
  {
    FinishIsNearer(b, cap, t);
    states', t' := Go(b, cap, s, states, t, Build(B.Finish, false));
  }

  /** After its last status the main goroutine closes the log and waits for its reader. */
  function LastEvent(s: State): L.Event {
    if !s.log.closed then L.Close
    else if s.log.reader.Holding? then L.Push
    else if s.log.reader == L.Waiting then L.Stop
    else L.Join
  }

  lemma LastEventIsNearer(b: B.Build, cap: nat, t: State)
    requires Inv(b, cap, t) && !t.queue.panicked && !Returned(t) && t.build.main.Done?
    requires !Waits(t, MainGoroutine) && !Waits(t, LogGoroutine)
    ensures Enabled(b, cap, t, Log(LastEvent(t))) && Nearer(t, Next(b, cap, t, Log(LastEvent(t))))
  {
    hide B.Inv, R.Inv;
    var e := LastEvent(t);
    LogKeepsOrder(cap, t, e);
    if Chunk(t, e).Some? {
      SendsLast(cap, t, Chunk(t, e).value);
      var t' := Send(cap, t, Chunk(t, e));
      assert Waits(t', MainGoroutine) <==> Waits(t, MainGoroutine);
      assert Waits(t', CommandGoroutine) <==> Waits(t, CommandGoroutine);
    }
  }

  lemma MainReturns(b: B.Build, cap: nat, s: State, states: seq<State>, t: State)
    returns (states': seq<State>, t': State)
    requires Leads(b, cap, s, states, t) && Inv(b, cap, t) && !t.queue.panicked && !Returned(t)
    requires !Waits(t, MainGoroutine) && !Waits(t, LogGoroutine) && t.build.main.Done?
    ensures Leads(b, cap, s, states', t') && Inv(b, cap, t') && Nearer(t, t')
  {
    LastEventIsNearer(b, cap, t);
    states', t' := Go(b, cap, s, states, t, Log(LastEvent(t)));
  }

  lemma UnblocksNearer(b: B.Build, cap: nat, s: State, states: seq<State>, t: State, g: Goroutine)
    returns (states': seq<State>, t': State)
    requires Leads(b, cap, s, states, t) && Inv(b, cap, t) && !t.queue.panicked && B.HasResult(t.build.main)
    requires !Returned(t) && Waits(t, g) && g != CommandGoroutine
    ensures Leads(b, cap, s, states', t') && Inv(b, cap, t') && Nearer(t, t')
  {
    states', t' := Unblock(b, cap, s, states, t, g);
    assert Waits(t', CommandGoroutine) <==> Waits(t, CommandGoroutine);
    assert Waits(t', MainGoroutine) ==> Waits(t, MainGoroutine);
    assert Waits(t', LogGoroutine) ==> Waits(t, LogGoroutine);
  }

  lemma TowardReturn(b: B.Build, cap: nat, s: State, states: seq<State>, t: State)
    returns (states': seq<State>, t': State)
    requires Leads(b, cap, s, states, t) && Inv(b, cap, t) && !t.queue.panicked && B.HasResult(t.build.main)
    requires !Returned(t) && !Waits(t, MainGoroutine)
    ensures Leads(b, cap, s, states', t') && Inv(b, cap, t') && Nearer(t, t')
  {
    if t.build.main.Unwinding? {
      states', t' := MainGoes(b, cap, s, states, t, B.ShutdownAdapter);
    } else if t.build.main.Remetering? {
      states', t' := MainGoes(b, cap, s, states, t, B.ReportMetrics);
    } else if t.build.main.Finishing? {
      states', t' := MainFinishes(b, cap, s, states, t);
    } else if Waits(t, LogGoroutine) {
      states', t' := UnblocksNearer(b, cap, s, states, t, LogGoroutine);
    } else {
      states', t' := MainReturns(b, cap, s, states, t);
    }
  }

  /** The main goroutine can return while the command goroutine stands still. */
  lemma {:induction false} CanReturn(b: B.Build, cap: nat, s: State, states: seq<State>, t: State)
    returns (states': seq<State>, t': State)
    requires Leads(b, cap, s, states, t) && Inv(b, cap, t) && !t.queue.panicked && B.HasResult(t.build.main)
    ensures Leads(b, cap, s, states', t') && Inv(b, cap, t') && !t'.queue.panicked && Returned(t')
    ensures SameForCommands(t, t')
    decreases Way(t)
  {
    if Returned(t) {
      states', t' := states, t;
    } else {
      if Waits(t, MainGoroutine) {
        states', t' := UnblocksNearer(b, cap, s, states, t, MainGoroutine);
      } else {
        states', t' := TowardReturn(b, cap, s, states, t);
      }
      states', t' := CanReturn(b, cap, s, states', t');
    }
  }

  lemma {:induction false} CommandPanics(b: B.Build, cap: nat, s: State, states: seq<State>, t: State)
    returns (states': seq<State>, t': State)
    requires Leads(b, cap, s, states, t) && Inv(b, cap, t) && !t.queue.panicked
    requires t.queue.closed && MayPush(b, t.build.worker) && !Waits(t, CommandGoroutine)
    ensures Leads(b, cap, s, states', t') && t'.queue.panicked
    decreases B.WorkerWork(b, t.build.worker)
  {
    hide B.Inv, L.Inv, Path;
    ReturnedSays(t);
    match t.build.worker
    case Publishing(_, _) =>
      states', t' := Go(b, cap, s, states, t, Build(B.Publish(false), false));
      states', t' := CommandPanics(b, cap, s, states', t');
    case Executing(_) =>
      states', t' := Go(b, cap, s, states, t, Build(B.RunEnds(Engine.RunError), false));
      states', t' := CommandPanics(b, cap, s, states', t');
    case Working(_) => states', t' := Go(b, cap, s, states, t, Build(B.BeginCommand, false));
    case Reporting(_, _) => states', t' := Go(b, cap, s, states, t, Build(B.Report, false));
  }

  lemma ReturnedPanics(b: B.Build, cap: nat, s: State, states: seq<State>, t: State)
    returns (states': seq<State>, t': State)
    requires Leads(b, cap, s, states, t) && Inv(b, cap, t) && !t.queue.panicked && Returned(t) && Owes(b, t)
    ensures Leads(b, cap, s, states', t') && t'.queue.panicked
  {
    states', t' := states, t;
    if !t.queue.closed {
      states', t' := Go(b, cap, s, states, t, Close);
      assert Waits(t, CommandGoroutine) ==> R.SomeoneBlocked(t.queue.sends);
    }
    if !t'.queue.panicked {
      assert !Waits(t', CommandGoroutine);
      states', t' := CommandPanics(b, cap, s, states', t');
    }
  }

  // ---------- When the program panics ----------

  ghost predicate PanicReachable(b: B.Build, cap: nat, s: State) {
    exists states, t :: Leads(b, cap, s, states, t) && t.queue.panicked
  }

  /** The exact condition, over all interleavings of build, queue and log: once the build has a result,
      a send on the closed channel can still happen if and only if the command goroutine has been left
      behind with a status it has yet to send or is just sending. */
  lemma PanicExactly(b: B.Build, cap: nat, states: seq<State>, i: nat)
    requires Run(b, cap, states) && i < |states|
    requires B.HasResult(states[i].build.main) && !states[i].queue.panicked
    ensures PanicReachable(b, cap, states[i]) <==> Owes(b, states[i])
    ensures Owes(b, states[i]) ==> states[i].build.main.result == Engine.Aborted
  {
    var s := states[i];
    RunKeepsInv(b, cap, states, i);
    if Owes(b, s) {
      OnlyAbortedOwes(b, cap, s);
      var path, t := CanReturn(b, cap, s, [s], s);
      path, t := ReturnedPanics(b, cap, s, path, t);
      assert Leads(b, cap, s, path, t) && t.queue.panicked;
    } else if PanicReachable(b, cap, s) {
      var path, t :| Leads(b, cap, s, path, t) && t.queue.panicked;
      PathStaysQuiet(b, cap, path, |path| - 1);
    }
  }

  // ---------- From the start ----------

  /** The command goroutine has nothing to send, ever. */
  ghost predicate Voiceless(s: State) {
    CommandGoroutine !in s.last && !s.queue.panicked
  }

  lemma BuildStaysVoiceless(b: B.Build, cap: nat, s: State, a: B.Action, reports: bool)
    requires b.cmds == [] && Inv(b, cap, s) && Voiceless(s) && Enabled(b, cap, s, Build(a, reports))
    ensures Voiceless(Next(b, cap, s, Build(a, reports)))
  {
    var p := Push(b, s.build, a, reports);
    SendKeepsQueue(cap, s, p);
    if p.Some? {
      PushComesFrom(b, s.build, a, reports);
      if s.queue.closed {
        ReturnedSays(s);
      }
    }
  }

  lemma StaysVoicelessAfter(b: B.Build, cap: nat, s: State, a: Action)
    requires b.cmds == [] && Inv(b, cap, s) && Voiceless(s) && Enabled(b, cap, s, a)
    ensures Voiceless(Next(b, cap, s, a))
  {
    match a
    case Build(a, reports) => BuildStaysVoiceless(b, cap, s, a, reports);
    case Log(e) =>
      LogKeepsOrder(cap, s, e);
      SendKeepsQueue(cap, s, Chunk(s, e));
    case Close =>
      if id :| R.IsBlocked(s.queue.sends, id) {
        BlockedOwes(b, cap, s, id);
      }
    case Queue(_) =>
  }

  lemma StepStaysVoiceless(b: B.Build, cap: nat, s: State, s': State)
    requires b.cmds == [] && Inv(b, cap, s) && Voiceless(s) && Step(b, cap, s, s')
    ensures Inv(b, cap, s') && Voiceless(s')
  {
    hide Inv, Voiceless, Enabled, Next;
    var a :| Enabled(b, cap, s, a) && s' == Next(b, cap, s, a);
    StepKeepsInv(b, cap, s, a);
    StaysVoicelessAfter(b, cap, s, a);
  }

  lemma {:induction false} PathStaysVoiceless(b: B.Build, cap: nat, states: seq<State>, i: nat)
    requires b.cmds == [] && Path(b, cap, states) && i < |states|
    requires Inv(b, cap, states[0]) && Voiceless(states[0])
    ensures Inv(b, cap, states[i]) && Voiceless(states[i])
  {
    hide Step, Inv, Voiceless;
    if i > 0 {
      PathStaysVoiceless(b, cap, states, i - 1);
      StepStaysVoiceless(b, cap, states[i - 1], states[i]);
    }
  }

  /** The step of the main goroutine towards the point where an abort is taken. */
  function TowardSelect(m: B.Main): B.Action {
    match m
    case Checking => B.Check(true)
    case Initializing => B.InitAdapter(true)
    case Preparing => B.Prepare(true)
    case _ => B.ReportMetrics
  }

  predicate BeforeSelect(m: B.Main) {
    m == B.Checking || m == B.Initializing || m == B.Preparing || m == B.Metering
  }

  lemma {:induction false} AbortsSoon(b: B.Build, cap: nat, s: State, states: seq<State>, t: State)
    returns (states': seq<State>, t': State)
    requires Leads(b, cap, s, states, t) && Inv(b, cap, t) && !t.queue.panicked && !Waits(t, MainGoroutine)
    requires BeforeSelect(t.build.main) || (t.build.main == B.Selecting && t.build.worker == B.Working(0))
    ensures Leads(b, cap, s, states', t') && Inv(b, cap, t') && !t'.queue.panicked
    ensures t'.build.main == B.Unwinding(Engine.Aborted, false) && t'.build.worker == B.Working(0)
    decreases B.MainWork(t.build.main)
  {
    hide Inv, Leads, Waits;
    if BeforeSelect(t.build.main) {
      states', t' := BuildGoes(b, cap, s, states, t, TowardSelect(t.build.main));
      states', t' := AbortsSoon(b, cap, s, states', t');
    } else {
      states', t' := BuildGoes(b, cap, s, states, t, B.Cancel);
      states', t' := BuildGoes(b, cap, s, states', t', B.Abort);
    }
  }

  lemma InitIsFine(b: B.Build, cap: nat, s: State)
    requires Init(s)
    ensures Inv(b, cap, s) && Voiceless(s)
  {
  }

  /** The way of the main goroutine to an abort right after the command goroutine is started. */
  lemma CanAbort(b: B.Build, cap: nat, s: State) returns (states: seq<State>, t: State)
    requires Init(s)
    ensures Leads(b, cap, s, states, t) && Inv(b, cap, t) && !t.queue.panicked
    ensures t.build.main == B.Unwinding(Engine.Aborted, false) && t.build.worker == B.Working(0)
  {
    InitIsFine(b, cap, s);
    states, t := Go(b, cap, s, [s], s, Build(B.Begin, false));
    states, t := Unblock(b, cap, s, states, t, MainGoroutine);
    states, t := AbortsSoon(b, cap, s, states, t);
  }

  /** Whatever the queue's capacity: some interleaving of a build panics if and only if the build has a
      command. */
  lemma PanicFromStart(b: B.Build, cap: nat, s: State)
    requires Init(s)
    ensures PanicReachable(b, cap, s) <==> b.cmds != []
  {
    InitIsFine(b, cap, s);
    if b.cmds != [] {
      var path, t := CanAbort(b, cap, s);
      path, t := CanReturn(b, cap, s, path, t);
      path, t := ReturnedPanics(b, cap, s, path, t);
      assert Leads(b, cap, s, path, t) && t.queue.panicked;
    } else if PanicReachable(b, cap, s) {
      var path, t :| Leads(b, cap, s, path, t) && t.queue.panicked;
      PathStaysVoiceless(b, cap, path, |path| - 1);
    }
  }

  // ---------- The program comes to rest only at its end ----------

  /** Signals and new writes to the log come from outside. */
  predicate FromOutside(a: Action) {
    (a.Build? && a.a == B.Cancel) || (a.Log? && a.l.Write?)
  }

  ghost predicate AtRest(b: B.Build, cap: nat, s: State) {
    forall a :: Enabled(b, cap, s, a) ==> FromOutside(a)
  }

  /** A blocked send gets the queue moving. */
  lemma QueueCanMove(b: B.Build, cap: nat, s: State, g: Goroutine) returns (e: R.Event)
    requires Inv(b, cap, s) && !s.queue.panicked && Waits(s, g)
    ensures Enabled(b, cap, s, Queue(e))
  {
    var id := s.last[g];
    assert R.SomeoneBlocked(s.queue.sends);
    R.ProducerSteps(cap, s.queue, id);
    e := if R.Enabled(cap, s.queue, R.Enqueue(id)) then R.Enqueue(id)
      else if R.Enabled(cap, s.queue, R.Handoff(id)) then R.Handoff(id)
      else if R.Enabled(cap, s.queue, R.Receive) then R.Receive
      else R.FinishPayload;
  }

  lemma NobodyWaits(b: B.Build, cap: nat, s: State, g: Goroutine)
    requires Inv(b, cap, s) && AtRest(b, cap, s) && !s.queue.panicked
    ensures !Waits(s, g)
  {
    hide Inv, Enabled;
    if Waits(s, g) {
      var e := QueueCanMove(b, cap, s, g);
    }
  }

  lemma BuildIsDone(b: B.Build, cap: nat, s: State)
    requires Inv(b, cap, s) && AtRest(b, cap, s) && !s.queue.panicked
    ensures s.build.main.Done? && (s.build.main.result == Engine.Aborted ==> s.build.worker.Offering?)
  {
    NobodyWaits(b, cap, s, MainGoroutine);
    NobodyWaits(b, cap, s, CommandGoroutine);
    forall a | B.Enabled(b, s.build, a) ensures a == B.Cancel {
      assert Enabled(b, cap, s, Build(a, false));
    }
    B.BuildRestsWhenDone(b, s.build);
  }

  lemma LogIsDone(b: B.Build, cap: nat, s: State)
    requires Inv(b, cap, s) && AtRest(b, cap, s) && !s.queue.panicked && s.build.main.Done?
    ensures Returned(s) && L.PendingCalls(s.log) == {}
  {
    NobodyWaits(b, cap, s, MainGoroutine);
    NobodyWaits(b, cap, s, LogGoroutine);
    forall e | L.Enabled(s.log, e) ensures e.Write? {
      assert Enabled(b, cap, s, Log(e));
    }
    assert !L.Enabled(s.log, L.Close);
    L.CloseDrains(s.log, L.Close);
  }

  lemma QueueIsDone(b: B.Build, cap: nat, s: State)
    requires Inv(b, cap, s) && AtRest(b, cap, s) && !s.queue.panicked && Returned(s)
    ensures s.queue.shutdown == R.Returned
  {
    assert !Enabled(b, cap, s, Close);
    forall e | R.Enabled(cap, s.queue, e) ensures e.BeginSend? {
      assert !e.BeginSend? && !e.CloseChannel? ==> Enabled(b, cap, s, Queue(e));
    }
    R.ShutdownEnds(cap, s.queue, R.RangeEnds);
  }

  /** The joined goroutines cannot deadlock: without a panic they come to rest only when the queue is
      shut down and the program exits, no writer is blocked, and all that was sent has been attempted. */
  lemma RestsOnlyAtExit(b: B.Build, cap: nat, states: seq<State>, i: nat)
    requires Run(b, cap, states) && i < |states|
    requires AtRest(b, cap, states[i]) && !states[i].queue.panicked
    ensures states[i].queue.shutdown == R.Returned && AllAttempted(states[i])
    ensures states[i].build.main.Done? && Returned(states[i]) && L.PendingCalls(states[i].log) == {}
    ensures states[i].build.main.result == Engine.Aborted ==> states[i].build.worker.Offering?
  {
    RunKeepsInv(b, cap, states, i);
    BuildIsDone(b, cap, states[i]);
    LogIsDone(b, cap, states[i]);
    QueueIsDone(b, cap, states[i]);
    QuietExit(b, cap, states[i]);
  }
}
