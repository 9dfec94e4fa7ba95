/** How calls of FileLog.Shutdown end: each can be brought to return, and what a late one misses. */
module FileLogShutdown {
  import opened FileLog
  import opened Options
  import opened Texts
  import opened Utf8

  // ---------- A pending Shutdown can always be completed ----------

  function Unfinished(s: State): set<nat> {
    set id | id in s.callers && s.callers[id].at != Done
  }

  function HolderRank(s: State): nat {
    if s.mutex == None then 4
    else if s.mutex.value !in s.callers then 0
    else
      match s.callers[s.mutex.value].at
      case Offering => 3
      case Unreported => 3
      case AwaitingComplete => 2
      case _ => 1
  }

  function ReaderRank(s: State): nat
    requires s.offset <= |s.written|
  {
    var left := |s.written| - s.offset;
    match s.reader
    case Completing => 1
    case Pushing(_, again) => if again then 4 + 2 * left else 2
    case Reading(_) => 3 + 2 * left
    case _ => 0
  }

  /** The reader's own next step, with a successful push and no read error. */
  function ReaderEvent(s: State): Event
    requires s.reader.Reading? || s.reader.Pushing? || s.reader == Completing
    requires s.offset <= |s.written|
  {
    if s.reader.Pushing? then Push(true)
    else if s.reader == Completing then Complete
    else if s.offset == |s.written| then ReadEof
    else Read(if |s.written| - s.offset < CHUNK_SIZE then |s.written| - s.offset else CHUNK_SIZE)
  }

  lemma ReaderAdvances(s: State)
    requires DeliveryInv(s) && (s.reader.Reading? || s.reader.Pushing? || s.reader == Completing)
    ensures Enabled(s, ReaderEvent(s))
    ensures var s' := Next(s, ReaderEvent(s));
      s'.offset <= |s'.written| && ReaderRank(s') < ReaderRank(s)
      && s'.callers == s.callers && s'.mutex == s.mutex
  {
  }

  /** The step of the lock holder, or of the reader it waits for, that brings Shutdown nearer. */
  function Helpful(s: State, id: nat): Event
    requires s.offset <= |s.written|
  {
    if s.mutex == None || s.mutex.value !in s.callers then Lock(id)
    else
      var h := s.mutex.value;
      match s.callers[h].at
      case Unreported => CloseUnreported(h)
      case ClosingFile => CloseFile(h)
      case _ =>
        if s.closings > 0 then SeeComplete(h)
        else if s.reader == Selecting || s.reader == AwaitingToken then GiveToken(h)
        else if s.reader.Reading? || s.reader.Pushing? || s.reader == Completing then ReaderEvent(s)
        else SeeComplete(h)
  }

  lemma MoveUnfinished(s: State, s': State, id: nat, at: Position)
    requires id in Unfinished(s) && s'.callers == Move(s, id, at)
    ensures at != Done ==> Unfinished(s') == Unfinished(s)
    ensures at == Done ==> Unfinished(s') < Unfinished(s)
  {
    if at == Done {
      assert id !in Unfinished(s');
    }
  }

  /** A helpful step brings the measure of the handshake down. */
  ghost predicate Nearer(s: State, s': State)
    requires s.offset <= |s.written|
  {
    && s'.offset <= |s'.written|
    && (|| Unfinished(s') < Unfinished(s)
        || (Unfinished(s') == Unfinished(s) && HolderRank(s') < HolderRank(s))
        || (Unfinished(s') == Unfinished(s) && HolderRank(s') == HolderRank(s) && ReaderRank(s') < ReaderRank(s)))
  }

  lemma HelpfulWhenFree(s: State, id: nat)
    requires Inv(s) && id in Unfinished(s) && s.mutex == None
    ensures Enabled(s, Lock(id)) && Nearer(s, Next(s, Lock(id)))
  {
    assert CallerOk(s, id);
    MoveUnfinished(s, Next(s, Lock(id)), id, if s.reporterSet then Offering else Unreported);
  }

  lemma HelpfulWhenHeld(s: State, id: nat)
    requires Inv(s) && id in Unfinished(s) && s.mutex.Some?
    ensures Enabled(s, Helpful(s, id)) && Nearer(s, Next(s, Helpful(s, id)))
  {
    var h, e := s.mutex.value, Helpful(s, id);
    assert CallerOk(s, h);
    if e.Read? || e.ReadEof? || e.Push? || e.Complete? {
      ReaderAdvances(s);
    } else if e.CloseFile? {
      MoveUnfinished(s, Next(s, e), h, Done);
    } else if e.GiveToken? {
      MoveUnfinished(s, Next(s, e), h, AwaitingComplete);
    } else {
      MoveUnfinished(s, Next(s, e), h, ClosingFile);
    }
  }

  lemma HelpfulHelps(s: State, id: nat)
    requires Inv(s) && id in Unfinished(s)
    ensures Enabled(s, Helpful(s, id)) && Nearer(s, Next(s, Helpful(s, id)))
  {
    if s.mutex == None {
      HelpfulWhenFree(s, id);
    } else {
      HelpfulWhenHeld(s, id);
    }
  }

  predicate SameFailures(s: State, s': State) {
    s'.pushFailed == s.pushFailed && s'.readFailed == s.readFailed
  }

  /** Events that neither write, nor fail, nor bring in new calls. */
  predicate Quiet(e: Event) {
    && (e.Push? ==> e.ok)
    && !(e.Append? || e.CallStart? || e.Start? || e.CallShutdown? || e.ReadError?)
  }

  lemma HelpfulIsQuiet(s: State, id: nat)
    requires s.offset <= |s.written|
    ensures Quiet(Helpful(s, id))
  {
  }

  lemma QuietStep(s: State, e: Event)
    requires Enabled(s, e) && Quiet(e)
    ensures Next(s, e).written == s.written && SameFailures(s, Next(s, e))
  {
  }

  lemma StepKeepsIds(s: State, e: Event, id: nat)
    requires Enabled(s, e) && id in s.callers
    ensures id in Next(s, e).callers
  {
  }

  ghost predicate NoNewCalls(s: State, s': State) {
    forall id :: id in s'.callers ==> id in s.callers
  }

  lemma QuietAddsNoCalls(s: State, e: Event, id: nat)
    requires Enabled(s, e) && Quiet(e) && id in Next(s, e).callers
    ensures id in s.callers
  {
  }

  /** One helpful step and what it brings. */
  lemma HelpfulStep(s: State, id: nat) returns (s': State)
    requires Inv(s) && id in Unfinished(s)
    ensures Step(s, s') && Inv(s') && Nearer(s, s') && id in s'.callers
    ensures s'.written == s.written && SameFailures(s, s') && NoNewCalls(s, s')
  {
    HelpfulHelps(s, id);
    var e := Helpful(s, id);
    HelpfulIsQuiet(s, id);
    QuietStep(s, e);
    StepKeepsIds(s, e, id);
    StepKeepsInv(s, e);
    s' := Next(s, e);
    forall other | other in s'.callers ensures other in s.callers {
      QuietAddsNoCalls(s, e, other);
    }
  }

  lemma PathCons(s: State, rest: seq<State>)
    requires Path(rest) && Step(s, rest[0])
    ensures Path([s] + rest)
  {
    var states := [s] + rest;
    forall i | 0 <= i < |states| - 1 ensures Step(states[i], states[i + 1]) {
      if i > 0 {
        assert states[i] == rest[i - 1] && states[i + 1] == rest[i];
      }
    }
  }

  /** A continuation from `s` in which the call `id` returns, nothing is written and nothing fails. */
  ghost predicate ReturnsBy(s: State, states: seq<State>, id: nat) {
    && Path(states) && states[0] == s && At(states[|states| - 1], id, Done)
    && states[|states| - 1].written == s.written && SameFailures(s, states[|states| - 1])
    && NoNewCalls(s, states[|states| - 1])
  }

  lemma ReturnsCons(s: State, states: seq<State>, id: nat)
    requires states != [] && Step(s, states[0]) && ReturnsBy(states[0], states, id)
    requires states[0].written == s.written && SameFailures(s, states[0]) && NoNewCalls(s, states[0])
    ensures ReturnsBy(s, [s] + states, id)
  {
    PathCons(s, states);
  }

  /** From every reachable state with a pending Shutdown there is a way for it to return, as long as
      pushes return: the protocol cannot deadlock. */
  lemma ShutdownCanReturn(s: State, id: nat) returns (states: seq<State>)
    requires Inv(s) && id in s.callers
    ensures ReturnsBy(s, states, id)
    decreases Unfinished(s), HolderRank(s), ReaderRank(s)
  {
    if s.callers[id].at == Done {
      states := [s];
    } else {
      var s' := HelpfulStep(s, id);
      var rest := ShutdownCanReturn(s', id);
      ReturnsCons(s, rest, id);
      states := [s] + rest;
    }
  }

  lemma RoundGoesOn(s: State, file: Text) returns (s': State)
    requires Inv(s) && MidRound(s.reader) && RoundInv(s, file) && !s.pushFailed && !s.readFailed
    ensures Step(s, s') && Inv(s') && RoundInv(s', file) && ReaderRank(s') < ReaderRank(s)
    ensures s'.written == s.written && SameFailures(s, s')
  {
    var e := ReaderEvent(s);
    ReaderAdvances(s);
    EventKeepsRound(s, e, file);
    QuietStep(s, e);
    StepKeepsInv(s, e);
    s' := Next(s, e);
  }

  lemma RoundCanEnd(s: State, file: Text) returns (states: seq<State>)
    requires Inv(s) && RoundInv(s, file) && !s.pushFailed && !s.readFailed
    ensures Path(states) && states[0] == s
    ensures var t := states[|states| - 1];
      Inv(t) && RoundInv(t, file) && !MidRound(t.reader) && t.written == s.written && SameFailures(s, t)
    decreases ReaderRank(s)
  {
    hide RoundInv, Inv, Step;
    if !MidRound(s.reader) {
      states := [s];
    } else {
      var s' := RoundGoesOn(s, file);
      var rest := RoundCanEnd(s', file);
      PathCons(s, rest);
      states := [s] + rest;
    }
  }

  /** From every reachable state in which the reader waits for a tick, there is a way on which it reads
      and pushes the whole file and waits again. */
  lemma TickCanDeliver(s: State) returns (states: seq<State>)
    requires Inv(s) && s.reader == Selecting && !s.pushFailed && !s.readFailed
    ensures Path(states) && states[0] == s
    ensures var t := states[|states| - 1];
      t.reader == Selecting && t.written == s.written == Concat(t.pushed) && !t.pushFailed && !t.readFailed
  {
    var s' := Next(s, Tick);
    StepKeepsInv(s, Tick);
    assert Step(s, s') && RoundInv(s', s.written);
    var rest := RoundCanEnd(s', s.written);
    PathCons(s, rest);
    states := [s] + rest;
    var t := rest[|rest| - 1];
    assert t.offset == |t.written| && Concat(t.pushed) + [] == Concat(t.pushed);
  }

  // ---------- ... and a late Shutdown promises nothing more ----------

  lemma LastRoundIsOver(s: State, e: Event)
    requires ReaderInv(s) && !StillReads(s.reader) && Enabled(s, e)
    ensures !StillReads(Next(s, e).reader) && Next(s, e).offset == s.offset
  {
  }

  lemma LateStep(s: State, s': State, id: nat)
    requires Inv(s) && !StillReads(s.reader) && id in s.callers && Step(s, s')
    ensures Inv(s') && !StillReads(s'.reader) && s'.offset == s.offset && Later(s, s', id)
  {
    hide Enabled, Next, StillReads, Later, LockInv, DeliveryInv, DrainInv, ReaderInv;
    StepFromInv(s, s');
    StepIsLater(s, s', id);
    var e :| Enabled(s, e) && s' == Next(s, e);
    LastRoundIsOver(s, e);
  }

  lemma {:induction false} LateStays(states: seq<State>, i: nat, id: nat)
    requires Path(states) && i < |states|
    requires !StillReads(states[0].reader) && Inv(states[0]) && id in states[0].callers
    ensures Inv(states[i]) && !StillReads(states[i].reader) && states[i].offset == states[0].offset
    ensures id in states[i].callers && states[i].callers[id].mark == states[0].callers[id].mark
  {
    hide Step, Inv, StillReads;
    if i > 0 {
      LateStays(states, i - 1, id);
      LateStep(states[i - 1], states[i], id);
    }
  }

  lemma UnreadIsNotCovered(s: State, id: nat)
    requires Inv(s) && id in s.callers && s.offset < s.callers[id].mark == |s.written|
    ensures !Covered(s, id)
  {
    assert |Concat(s.pushed)| <= |Concat(s.pushed) + s.send| == s.offset;
  }

  /** A write and then a call of Shutdown. */
  lemma WriteAndCall(s: State, b: byte, id: nat) returns (s1: State, s2: State)
    requires Inv(s) && id !in s.callers
    ensures Step(s, s1) && Step(s1, s2) && Inv(s2)
    ensures id in s2.callers && s2.callers[id].mark == |s2.written| && s2.written == s.written + [b]
    ensures s2.reader == s.reader && s2.offset == s.offset && SameFailures(s, s2)
  {
    s1 := Next(s, Append([b]));
    s2 := Next(s1, CallShutdown(id));
    StepKeepsInv(s, Append([b]));
    StepKeepsInv(s1, CallShutdown(id));
  }

  /** In every reachable state in which the last round of reading is over, one more write followed by
      a Shutdown shows that the promise cannot be extended: the call can return with that write
      not pushed. */
  lemma LateShutdownMisses(s: State, b: byte, id: nat) returns (states: seq<State>)
    requires Inv(s) && !StillReads(s.reader) && id !in s.callers
    ensures Path(states) && states[0] == s
    ensures var t := states[|states| - 1];
      && At(t, id, Done) && t.written == s.written + [b]
      && SameFailures(s, t)
      && t.callers[id].mark == |t.written| && !Covered(t, id)
  {
    var s1, s2 := WriteAndCall(s, b, id);
    var rest := ShutdownCanReturn(s2, id);
    LateStays(rest, |rest| - 1, id);
    PathCons(s1, rest);
    PathCons(s, [s1] + rest);
    states := [s] + ([s1] + rest);
    UnreadIsNotCovered(rest[|rest| - 1], id);
  }

  // ---------- ... which happens ----------

  lemma PathJoin(front: seq<State>, back: seq<State>) returns (states: seq<State>)
    requires Path(front) && Path(back) && front[|front| - 1] == back[0]
    ensures Path(states) && states[0] == front[0] && states[|states| - 1] == back[|back| - 1]
  {
    hide Step;
    states := front + back[1..];
    forall i | 0 <= i < |states| - 1 ensures Step(states[i], states[i + 1]) {
      if i < |front| - 1 {
        assert states[i] == front[i] && states[i + 1] == front[i + 1];
      } else {
        assert states[i] == back[i - |front| + 1] && states[i + 1] == back[i - |front| + 2];
      }
    }
    assert |back| == 1 ==> states == front;
  }

  /** Once one call of Shutdown has returned to a caller, the next write can be missed by the next call. */
  lemma SecondShutdownMisses(states: seq<State>, first: nat, second: nat, b: byte) returns (more: seq<State>)
    requires Run(states) && At(states[|states| - 1], first, Done) && states[|states| - 1].reporterSet
    requires second !in states[|states| - 1].callers
    ensures Run(more)
    ensures var s, t := states[|states| - 1], more[|more| - 1];
      && At(t, second, Done) && t.written == s.written + [b] && SameFailures(s, t)
      && t.callers[second].mark == |t.written| && !Covered(t, second)
  {
    var s := states[|states| - 1];
    RunKeepsInv(states, |states| - 1);
    assert CallerOk(s, first);
    assert s.reader == Ended;
    var rest := LateShutdownMisses(s, b, second);
    more := PathJoin(states, rest);
  }

  lemma StartAndCall(data: Text) returns (states: seq<State>)
    ensures Run(states)
    ensures var s := states[|states| - 1];
      s.written == data && s.reporterSet && s.callers.Keys == {0} && !s.pushFailed && !s.readFailed
  {
    var s0 := State([], 0, [], [], false, false, false, NotStarted, NotCalled, map[], None, 0, false, 0);
    var s1 := Next(s0, Append(data));
    var s2 := Next(s1, CallStart);
    var s3 := Next(s2, Start);
    var s4 := Next(s3, CallShutdown(0));
    assert [] + data == data;
    assert Step(s0, s1) && Step(s1, s2) && Step(s2, s3) && Step(s3, s4);
    states := [s0, s1, s2, s3, s4];
  }

  lemma CallStays(states: seq<State>, i: nat, id: nat)
    requires Path(states) && i < |states| && id in states[0].callers
    ensures id in states[i].callers
  {
    hide Step;
    if i > 0 {
      CallStays(states, i - 1, id);
      StepIsLater(states[i - 1], states[i], id);
    }
  }

  lemma StaysReported(states: seq<State>, i: nat, id: nat)
    requires Path(states) && i < |states| && states[0].reporterSet && id in states[0].callers
    ensures states[i].reporterSet
  {
    hide Step;
    if i > 0 {
      StaysReported(states, i - 1, id);
      CallStays(states, i - 1, id);
      StepIsLater(states[i - 1], states[i], id);
    }
  }

  /** A whole run without any failure, of one StartReporting and two calls of Shutdown, both of which
      return: what is written between the calls is not pushed. */
  lemma LateShutdownHappens(data: Text, b: byte) returns (states: seq<State>)
    ensures Run(states)
    ensures var t := states[|states| - 1];
      && At(t, 1, Done) && t.written == data + [b] && !t.pushFailed && !t.readFailed
      && t.callers[1].mark == |t.written| && !Covered(t, 1)
  {
    var front := StartAndCall(data);
    var s := front[|front| - 1];
    RunKeepsInv(front, |front| - 1);
    var rest := ShutdownCanReturn(s, 0);
    StaysReported(rest, |rest| - 1, 0);
    var first := PathJoin(front, rest);
    assert 1 !in s.callers.Keys;
    states := SecondShutdownMisses(first, 0, 1, b);
  }
}
