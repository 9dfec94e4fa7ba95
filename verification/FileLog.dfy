/** client/filelog/filelog.go: a log file that writers append to, a goroutine that tails it to a
    reporter, and the handshake between StartReporting, Shutdown and that goroutine. Timers, the
    scheduler, short reads, read errors and failing pushes are free choices of the step relation. */
module FileLog {
  import opened Options
  import opened Utf8
  import opened Texts

  const CHUNK_SIZE := 40960

  /** The goroutine readFromFile. `running` is its loop variable; `again` says that the inner read
      loop goes on after the push. */
  datatype Reader =
    | NotStarted
    | Selecting
    | Reading(running: bool)
    | Pushing(running: bool, again: bool)
    | AwaitingToken
    | Completing
    | Ended

  datatype Starter = NotCalled | WantsLock | Returned

  /** One call of Shutdown. `mark` is the length of the file when it began, and `early` says that
      the reader had not finished its last round of reading by then. */
  datatype Caller = Caller(at: Position, mark: nat, early: bool)

  datatype Position = Queued | Offering | AwaitingComplete | Unreported | ClosingFile | Done

  datatype State = State(
    written: Text,
    offset: nat,
    send: Text,
    pushed: seq<Text>,
    pushFailed: bool,
    readFailed: bool,
    reporterSet: bool,
    reader: Reader,
    starter: Starter,
    callers: map<nat, Caller>,
    mutex: Option<nat>,     // the Shutdown call inside the lock
    closings: nat,          // how often shutdownComplete has been closed
    fileClosed: bool,
    tokens: nat)            // shutdown tokens consumed by the reader

  predicate Init(s: State) {
    s == State([], 0, [], [], false, false, false, NotStarted, NotCalled, map[], None, 0, false, 0)
  }

  /** The reader will still look for more to read. */
  predicate StillReads(r: Reader) {
    match r
    case Pushing(running, again) => running || again
    case Completing => false
    case Ended => false
    case _ => true
  }

  datatype Event =
    | Append(bytes: Text)
    | CallStart
    | Start
    | CallShutdown(id: nat)
    | Lock(id: nat)
    | GiveToken(id: nat)
    | SeeComplete(id: nat)
    | CloseUnreported(id: nat)
    | CloseFile(id: nat)
    | Tick
    | Read(n: nat)
    | ReadEof
    | ReadError(n: nat)
    | Push(ok: bool)
    | Complete

  predicate At(s: State, id: nat, at: Position) {
    id in s.callers && s.callers[id].at == at
  }

  function Move(s: State, id: nat, at: Position): map<nat, Caller>
    requires id in s.callers
  {
    s.callers[id := s.callers[id].(at := at)]
  }

  predicate Enabled(s: State, e: Event) {
    match e
    case Append(_) => true
    case CallStart => s.starter == NotCalled
    case Start => s.starter == WantsLock && s.mutex == None
    case CallShutdown(id) => id !in s.callers
    case Lock(id) => At(s, id, Queued) && s.mutex == None
    case GiveToken(id) => At(s, id, Offering) && (s.reader == Selecting || s.reader == AwaitingToken)
    case SeeComplete(id) => (At(s, id, Offering) || At(s, id, AwaitingComplete)) && s.closings > 0
    case CloseUnreported(id) => At(s, id, Unreported)
    case CloseFile(id) => At(s, id, ClosingFile)
    case Tick => s.reader == Selecting
    case Read(n) => s.reader.Reading? && 0 < n <= CHUNK_SIZE && s.offset + n <= |s.written|
    case ReadEof => s.reader.Reading? && s.offset == |s.written|
    case ReadError(n) => s.reader.Reading? && n <= CHUNK_SIZE && s.offset + n <= |s.written|
    case Push(_) => s.reader.Pushing?
    case Complete => s.reader == Completing
  }

  /** Where the reader goes when a round of reading is over. */
  function RoundOver(running: bool): Reader {
    if running then Selecting else Completing
  }

  /** The final push of a round, if there is anything left to send. */
  function EndRound(running: bool, send: Text): Reader {
    if send == [] then RoundOver(running) else Pushing(running, false)
  }

  function AfterRead(s: State, n: nat): State
    requires s.offset + n <= |s.written|
  {
    s.(offset := s.offset + n, send := s.send + s.written[s.offset..s.offset + n])
  }

  function Next(s: State, e: Event): State
    requires Enabled(s, e)
  {
    match e
    case Append(bytes) => s.(written := s.written + bytes)
    case CallStart => s.(starter := WantsLock)
    case Start =>
      if s.closings > 0 then s.(starter := Returned)
      else s.(starter := Returned, reporterSet := true, reader := Selecting)
    case CallShutdown(id) => s.(callers := s.callers[id := Caller(Queued, |s.written|, StillReads(s.reader))])
    case Lock(id) =>
      s.(mutex := Some(id), callers := Move(s, id, if s.reporterSet then Offering else Unreported))
    case GiveToken(id) =>
      s.(callers := Move(s, id, AwaitingComplete), tokens := s.tokens + 1,
         reader := if s.reader == Selecting then Reading(false) else Completing)
    case SeeComplete(id) => s.(callers := Move(s, id, ClosingFile))
    case CloseUnreported(id) =>
      s.(callers := Move(s, id, ClosingFile), closings := if s.closings == 0 then 1 else s.closings)
    case CloseFile(id) => s.(callers := Move(s, id, Done), fileClosed := true, mutex := None)
    case Tick => s.(reader := Reading(true))
    case Read(n) =>
      var s' := AfterRead(s, n);
      if |s'.send| >= CHUNK_SIZE then s'.(reader := Pushing(s.reader.running, true)) else s'
    case ReadEof => s.(reader := EndRound(s.reader.running, s.send))
    case ReadError(n) =>
      var s' := AfterRead(s, n);
      s'.(readFailed := true, reader := EndRound(s.reader.running, s'.send))
    case Push(ok) =>
      if !ok then s.(pushFailed := true, reader := if s.reader.running then AwaitingToken else Completing)
      else s.(pushed := s.pushed + [s.send], send := [],
              reader := if s.reader.again then Reading(s.reader.running) else RoundOver(s.reader.running))
    case Complete => s.(reader := Ended, closings := s.closings + 1)
  }

  ghost predicate Step(s: State, s': State) {
    exists e :: Enabled(s, e) && s' == Next(s, e)
  }

  ghost predicate Run(states: seq<State>) {
    && states != [] && Init(states[0])
    && forall i :: 0 <= i < |states| - 1 ==> Step(states[i], states[i + 1])
  }

  /** A stretch of steps, not necessarily from the initial state. */
  ghost predicate Path(states: seq<State>) {
    states != [] && forall i :: 0 <= i < |states| - 1 ==> Step(states[i], states[i + 1])
  }

  // ---------- The handshake ----------

  predicate Critical(at: Position) {
    at != Queued && at != Done
  }

  predicate Running(r: Reader) {
    r == Selecting || r == Reading(true) || (r.Pushing? && r.running) || r == AwaitingToken
  }

  /** What a Shutdown call may rely on at each of its positions. */
  predicate CallerOk(s: State, id: nat)
    requires id in s.callers
  {
    var at := s.callers[id].at;
    && (Critical(at) ==> s.mutex == Some(id))
    && (at == Unreported ==> !s.reporterSet)
    && (at == Offering || at == AwaitingComplete ==> s.reporterSet)
    && (at == AwaitingComplete ==> s.tokens == 1)
    && (at == ClosingFile || at == Done ==> s.closings > 0)
  }

  ghost predicate LockInv(s: State) {
    && (forall id :: id in s.callers ==> CallerOk(s, id))
    && (s.mutex.Some? ==> s.mutex.value in s.callers && Critical(s.callers[s.mutex.value].at))
    && (s.tokens == 1 && s.closings == 0 ==> s.mutex.Some? && At(s, s.mutex.value, AwaitingComplete))
  }

  ghost predicate ReaderInv(s: State) {
    && s.closings <= 1 && s.tokens <= 1
    && (s.fileClosed ==> s.closings == 1)
    && (s.reporterSet <==> s.reader != NotStarted)
    && (s.reporterSet ==> (s.closings == 1 <==> s.reader == Ended))
    && (s.tokens == 1 <==> s.reader != NotStarted && !Running(s.reader))
    && (s.reporterSet ==> s.starter == Starter.Returned)
  }

  ghost predicate HandshakeInv(s: State) {
    LockInv(s) && ReaderInv(s)
  }

  lemma StepKeepsCallers(s: State, e: Event)
    requires HandshakeInv(s) && Enabled(s, e)
    ensures forall id :: id in Next(s, e).callers ==> CallerOk(Next(s, e), id)
  {
    var s' := Next(s, e);
    forall id | id in s'.callers ensures CallerOk(s', id) {
      if id in s.callers {
        assert CallerOk(s, id);
      }
    }
  }

  /** The events of Shutdown calls. */
  predicate OfCaller(e: Event) {
    e.CallShutdown? || e.Lock? || e.GiveToken? || e.SeeComplete? || e.CloseUnreported? || e.CloseFile?
  }

  lemma CallerKeepsReader(s: State, e: Event)
    requires HandshakeInv(s) && Enabled(s, e) && OfCaller(e)
    ensures ReaderInv(Next(s, e))
  {
    if e.GiveToken? || e.SeeComplete? || e.CloseUnreported? || e.CloseFile? {
      assert CallerOk(s, e.id);
    }
  }

  lemma StepKeepsReader(s: State, e: Event)
    requires HandshakeInv(s) && Enabled(s, e)
    ensures ReaderInv(Next(s, e))
  {
    if OfCaller(e) {
      CallerKeepsReader(s, e);
    }
  }

  lemma StepKeepsHolder(s: State, e: Event)
    requires HandshakeInv(s) && Enabled(s, e)
    ensures var s' := Next(s, e);
      && (s'.mutex.Some? ==> s'.mutex.value in s'.callers && Critical(s'.callers[s'.mutex.value].at))
      && (s'.tokens == 1 && s'.closings == 0 ==> s'.mutex.Some? && At(s', s'.mutex.value, AwaitingComplete))
  {
    if e.GiveToken? || e.SeeComplete? || e.CloseUnreported? || e.CloseFile? {
      assert CallerOk(s, e.id);
    }
  }

  lemma StepKeepsHandshake(s: State, e: Event)
    requires HandshakeInv(s) && Enabled(s, e)
    ensures HandshakeInv(Next(s, e))
  {
    StepKeepsCallers(s, e);
    StepKeepsReader(s, e);
    StepKeepsHolder(s, e);
  }

  // ---------- Delivery ----------

  ghost predicate ChunkBounds(pushed: seq<Text>) {
    forall k :: 0 <= k < |pushed| ==> 0 < |pushed[k]| < 2 * CHUNK_SIZE
  }

  /** What has been sent is a prefix of the file, chunk after chunk. */
  ghost predicate DeliveryInv(s: State) {
    && s.offset <= |s.written|
    && Concat(s.pushed) + s.send == s.written[..s.offset]
    && ChunkBounds(s.pushed)
    && (s.pushFailed ==> s.reader == AwaitingToken || s.reader == Completing || s.reader == Ended)
    && (s.reader == AwaitingToken ==> s.pushFailed)
    && (s.reader.Reading? ==> |s.send| < CHUNK_SIZE)
    && (s.reader.Pushing? ==> 0 < |s.send| < 2 * CHUNK_SIZE)
    && (!s.pushFailed && !s.reader.Reading? && !s.reader.Pushing? ==> s.send == [])
  }

  lemma ReadKeepsDelivery(s: State, n: nat)
    requires DeliveryInv(s) && s.reader.Reading? && n <= CHUNK_SIZE && s.offset + n <= |s.written|
    ensures var s' := AfterRead(s, n);
      && s'.offset <= |s'.written| && Concat(s'.pushed) + s'.send == s'.written[..s'.offset]
      && |s'.send| < 2 * CHUNK_SIZE
  {
    var s' := AfterRead(s, n);
    assert Concat(s.pushed) + s'.send == Concat(s.pushed) + s.send + s.written[s.offset..s.offset + n];
    assert s.written[..s.offset] + s.written[s.offset..s.offset + n] == s.written[..s.offset + n];
  }

  lemma PushKeepsDelivery(s: State, ok: bool)
    requires DeliveryInv(s) && s.reader.Pushing?
    ensures DeliveryInv(Next(s, Push(ok)))
  {
    if ok {
      ConcatSnoc(s.pushed, s.send);
      assert Concat(s.pushed + [s.send]) + [] == Concat(s.pushed) + s.send;
    }
  }

  lemma StepKeepsDelivery(s: State, e: Event)
    requires DeliveryInv(s) && Enabled(s, e) && (e.Start? ==> s.reader == NotStarted)
    ensures DeliveryInv(Next(s, e))
  {
    match e
    case Append(bytes) => assert (s.written + bytes)[..s.offset] == s.written[..s.offset];
    case Read(n) => ReadKeepsDelivery(s, n);
    case ReadError(n) => ReadKeepsDelivery(s, n);
    case Push(ok) => PushKeepsDelivery(s, ok);
    case _ => assert Next(s, e).send == s.send && Next(s, e).pushed == s.pushed && Next(s, e).offset == s.offset;
  }

  // ---------- What a returned Shutdown has guaranteed ----------

  /** The last round of reading covers whatever was written before an early call. */
  ghost predicate DrainInv(s: State) {
    && (forall id :: id in s.callers ==> s.callers[id].mark <= |s.written|)
    && (!s.pushFailed && !s.readFailed && !StillReads(s.reader) ==>
          forall id :: id in s.callers && s.callers[id].early ==> s.callers[id].mark <= s.offset)
  }

  lemma StepKeepsDrain(s: State, e: Event)
    requires HandshakeInv(s) && DeliveryInv(s) && DrainInv(s) && Enabled(s, e)
    ensures DrainInv(Next(s, e))
  {
    var s' := Next(s, e);
    forall id | id in s'.callers
      ensures s'.callers[id].mark <= |s'.written|
      ensures !s'.pushFailed && !s'.readFailed && !StillReads(s'.reader) && s'.callers[id].early ==> s'.callers[id].mark <= s'.offset
    {
      if id in s.callers {
        assert s'.callers[id].mark == s.callers[id].mark && s'.callers[id].early == s.callers[id].early;
      }
    }
  }

  ghost predicate Inv(s: State) {
    HandshakeInv(s) && DeliveryInv(s) && DrainInv(s)
  }

  lemma StepKeepsInv(s: State, e: Event)
    requires Inv(s) && Enabled(s, e)
    ensures Inv(Next(s, e))
  {
    StepKeepsHandshake(s, e);
    StepKeepsDelivery(s, e);
    StepKeepsDrain(s, e);
  }

  lemma StepFromInv(s: State, s': State)
    requires Inv(s) && Step(s, s')
    ensures Inv(s')
  {
    hide Inv, Enabled, Next;
    var e :| Enabled(s, e) && s' == Next(s, e);
    StepKeepsInv(s, e);
  }

  lemma {:induction false} RunKeepsInv(states: seq<State>, i: nat)
    requires Run(states) && i < |states|
    ensures Inv(states[i])
  {
    hide Step;
    if i > 0 {
      RunKeepsInv(states, i - 1);
      StepFromInv(states[i - 1], states[i]);
    }
  }

  // ---------- The promises ----------

  /** At every moment what was pushed is a prefix of what was written, in chunks of bounded size. */
  lemma PushedIsPrefix(states: seq<State>, i: nat)
    requires Run(states) && i < |states|
    ensures Concat(states[i].pushed) <= states[i].written
    ensures forall k :: 0 <= k < |states[i].pushed| ==> 0 < |states[i].pushed[k]| < 81920
  {
    RunKeepsInv(states, i);
    var s := states[i];
    assert Concat(s.pushed) <= Concat(s.pushed) + s.send;
  }

  predicate MidRound(r: Reader) {
    r.Reading? || r.Pushing?
  }

  /** A round of reading that began when the file held `file`, or its end at the next select; unless
      something has failed. */
  ghost predicate RoundInv(s: State, file: Text) {
    || s.pushFailed || s.readFailed
    || (&& file <= s.written
        && match s.reader
           case Reading(running) => running
           case Pushing(running, again) => running && (again || |file| <= s.offset)
           case Selecting => |file| <= s.offset
           case _ => false)
  }

  lemma EventKeepsRound(s: State, e: Event, file: Text)
    requires RoundInv(s, file) && MidRound(s.reader) && HandshakeInv(s) && Enabled(s, e)
    ensures RoundInv(Next(s, e), file)
  {
  }

  lemma StepKeepsRound(s: State, s': State, file: Text)
    requires RoundInv(s, file) && MidRound(s.reader) && Inv(s) && Step(s, s')
    ensures RoundInv(s', file)
  {
    hide RoundInv, Enabled, Next, MidRound, HandshakeInv, DeliveryInv, DrainInv;
    var e :| Enabled(s, e) && s' == Next(s, e);
    EventKeepsRound(s, e, file);
  }

  lemma {:induction false} RunKeepsRound(states: seq<State>, k: nat, i: nat)
    requires Run(states) && k < i < |states|
    requires Enabled(states[k], Tick) && states[k + 1] == Next(states[k], Tick)
    requires forall j :: k < j < i ==> MidRound(states[j].reader)
    ensures RoundInv(states[i], states[k].written)
    decreases i
  {
    hide Step, Inv;
    if k + 1 < i {
      hide RoundInv;
      RunKeepsRound(states, k, i - 1);
      RunKeepsInv(states, i - 1);
      StepKeepsRound(states[i - 1], states[i], states[k].written);
    }
  }

  /** Every tick starts a round of reading, at the end of which everything written before the tick is
      pushed, unless a push or a read has failed; and the reader waits for the next tick. */
  lemma TickDelivers(states: seq<State>, k: nat, i: nat)
    requires Run(states) && k < i < |states|
    requires Enabled(states[k], Tick) && states[k + 1] == Next(states[k], Tick)
    requires (forall j :: k < j < i ==> MidRound(states[j].reader)) && !MidRound(states[i].reader)
    requires !states[i].pushFailed && !states[i].readFailed
    ensures states[i].reader == Selecting && states[k].written <= Concat(states[i].pushed)
  {
    RunKeepsRound(states, k, i);
    RunKeepsInv(states, i);
    var s, file := states[i], states[k].written;
    assert Concat(s.pushed) + [] == Concat(s.pushed);
    assert s.written[..s.offset][..|file|] == file;
  }

  /** Everything written before the call has reached the reporter. */
  predicate Covered(s: State, id: nat)
    requires id in s.callers && s.callers[id].mark <= |s.written|
  {
    s.written[..s.callers[id].mark] <= Concat(s.pushed)
  }

  /** When Shutdown returns and nothing has failed, what was written before it began is pushed exactly
      if the reader has come that far. */
  lemma ReturnedCovers(s: State, id: nat)
    requires Inv(s) && At(s, id, Done) && s.reporterSet && !s.pushFailed && !s.readFailed
    ensures s.callers[id].mark <= |s.written| && (Covered(s, id) <==> s.callers[id].mark <= s.offset)
    ensures s.callers[id].early ==> Covered(s, id)
    ensures Concat(s.pushed) == s.written[..s.offset]
  {
    assert CallerOk(s, id);
    assert s.reader == Ended && s.send == [];
    assert Concat(s.pushed) + [] == Concat(s.pushed);
  }

  /** Nothing is shut down as long as nobody has called Shutdown; and StartReporting has started the
      reader unless the log was shut down before. */
  predicate FirstInv(s: State) {
    && (s.callers == map[] ==> s.tokens == 0 && s.closings == 0)
    && (s.starter == Starter.Returned ==> s.reporterSet || s.closings > 0)
  }

  lemma EventKeepsFirst(s: State, e: Event)
    requires FirstInv(s) && Enabled(s, e) && (s.reader == Completing ==> s.tokens > 0)
    ensures FirstInv(Next(s, e))
  {
    if e.Lock? || e.GiveToken? || e.SeeComplete? || e.CloseUnreported? || e.CloseFile? {
      assert e.id in Next(s, e).callers;
    }
  }

  lemma StepKeepsFirst(s: State, s': State)
    requires FirstInv(s) && Step(s, s') && (s.reader == Completing ==> s.tokens > 0)
    ensures FirstInv(s')
  {
    hide FirstInv, Enabled, Next;
    var e :| Enabled(s, e) && s' == Next(s, e);
    EventKeepsFirst(s, e);
  }

  lemma {:induction false} RunKeepsFirst(states: seq<State>, i: nat)
    requires Run(states) && i < |states|
    ensures FirstInv(states[i])
  {
    hide Step;
    if i > 0 {
      RunKeepsFirst(states, i - 1);
      RunKeepsInv(states, i - 1);
      StepKeepsFirst(states[i - 1], states[i]);
    }
  }

  /** A call keeps what it knew at its beginning, and the file only grows. */
  ghost predicate Later(s: State, s': State, id: nat) {
    && id in s.callers && id in s'.callers
    && s'.callers[id].mark == s.callers[id].mark && s'.callers[id].early == s.callers[id].early
    && s.written <= s'.written
    && (s.reporterSet ==> s'.reporterSet)
  }

  lemma EventIsLater(s: State, e: Event, id: nat)
    requires Enabled(s, e) && id in s.callers
    ensures Later(s, Next(s, e), id)
  {
  }

  lemma StepIsLater(s: State, s': State, id: nat)
    requires Step(s, s') && id in s.callers
    ensures Later(s, s', id)
  {
    hide Enabled, Next, Later;
    var e :| Enabled(s, e) && s' == Next(s, e);
    EventIsLater(s, e, id);
  }

  lemma {:induction false} CallsLast(states: seq<State>, k: nat, i: nat, id: nat)
    requires Run(states) && k <= i < |states| && id in states[k].callers
    ensures Later(states[k], states[i], id)
    decreases i
  {
    hide Step;
    if k < i {
      CallsLast(states, k, i - 1, id);
      StepIsLater(states[i - 1], states[i], id);
    }
  }

  /** What RunBuildPlan relies on: once StartReporting has returned, the first call of Shutdown returns
      only when everything written before the call is pushed, unless a push or a read has failed. */
  lemma FirstShutdownDelivers(states: seq<State>, k: nat, i: nat, id: nat)
    requires Run(states) && k < i < |states|
    requires states[k].callers == map[] && states[k].starter == Starter.Returned
    requires states[k + 1] == Next(states[k], CallShutdown(id))
    requires At(states[i], id, Done) && !states[i].pushFailed && !states[i].readFailed
    ensures states[k].written <= Concat(states[i].pushed)
  {
    RunKeepsInv(states, k);
    RunKeepsFirst(states, k);
    assert StillReads(states[k].reader);
    CallsLast(states, k + 1, i, id);
    RunKeepsInv(states, i);
    ReturnedCovers(states[i], id);
    assert states[i].written[..|states[k].written|] == states[k].written;
  }

  /** A Shutdown that began before the last round of reading was over returns only when everything
      written before it is pushed, unless a push or a read has failed. */
  lemma ShutdownDelivers(states: seq<State>, i: nat, id: nat)
    requires Run(states) && i < |states| && At(states[i], id, Done)
    requires states[i].reporterSet && !states[i].pushFailed && !states[i].readFailed
    ensures states[i].callers[id].mark <= |states[i].written|
    ensures states[i].callers[id].early ==> Covered(states[i], id)
    ensures Covered(states[i], id) <==> states[i].callers[id].mark <= states[i].offset
  {
    RunKeepsInv(states, i);
    ReturnedCovers(states[i], id);
  }

  lemma FailedPushEvent(s: State, e: Event)
    requires Inv(s) && s.pushFailed && Enabled(s, e)
    ensures Next(s, e).pushFailed && Next(s, e).pushed == s.pushed
  {
  }

  lemma FailedPushStep(s: State, s': State)
    requires Inv(s) && s.pushFailed && Step(s, s')
    ensures s'.pushFailed && s'.pushed == s.pushed
  {
    hide Inv, Enabled, Next;
    var e :| Enabled(s, e) && s' == Next(s, e);
    FailedPushEvent(s, e);
  }

  /** Once a push has failed nothing is pushed any more. */
  lemma {:induction false} NothingAfterFailedPush(states: seq<State>, i: nat, j: nat)
    requires Run(states) && i <= j < |states| && states[i].pushFailed
    ensures states[j].pushFailed && states[j].pushed == states[i].pushed
    decreases j
  {
    hide Step, Inv;
    if i < j {
      NothingAfterFailedPush(states, i, j - 1);
      RunKeepsInv(states, j - 1);
      FailedPushStep(states[j - 1], states[j]);
    }
  }

  /** The handshake: shutdownComplete is closed at most once, by a reader that took exactly one
      token; the file is not read after it is closed; no reader starts after a completed Shutdown. */
  lemma HandshakeIsSafe(states: seq<State>, i: nat)
    requires Run(states) && i < |states|
    ensures var s := states[i];
      && s.closings <= 1
      && (s.reader == Ended ==> s.tokens == 1 && s.closings == 1)
      && (s.reader.Reading? ==> !s.fileClosed)
      && (forall id :: At(s, id, Done) && Enabled(s, Start) ==> Next(s, Start).reader == s.reader)
      && (forall id :: At(s, id, Done) ==> s.reader == NotStarted || s.reader == Ended)
  {
    RunKeepsInv(states, i);
    var s := states[i];
    forall id | At(s, id, Done) ensures s.closings == 1 {
      assert CallerOk(s, id);
    }
  }
}
