/** One round of readFromFile of client/filelog/filelog.go as the loop of the source, proved to be a
    stretch of steps of the machine in FileLog. */
module FileLogRound {
  import opened FileLog
  import opened Texts

  lemma PathSnoc(states: seq<State>, e: Event) returns (states': seq<State>)
    requires Path(states) && Enabled(states[|states| - 1], e)
    ensures Path(states') && states'[0] == states[0]
    ensures states'[|states'| - 1] == Next(states[|states| - 1], e)
  {
    var s := Next(states[|states| - 1], e);
    states' := states + [s];
    assert Step(states[|states| - 1], s);
    forall i | 0 <= i < |states'| - 1 ensures Step(states'[i], states'[i + 1]) {
      if i < |states| - 1 {
        assert states'[i] == states[i] && states'[i + 1] == states[i + 1];
      }
    }
  }

  datatype ReadErr = NoError | Eof | Other

  function Min(a: nat, b: nat): nat {
    if a < b then a else b
  }

  /** How many bytes the i-th read gives, if `size` is what the operating system would like. */
  function Grant(size: nat, left: nat): nat {
    Min(if size == 0 then 1 else size, Min(CHUNK_SIZE, left))
  }

  /** The machine in the middle of a round. */
  ghost predicate InRound(s: State, t: State, offset: nat, send: Text, pushed: seq<Text>, reader: Reader, broken: bool) {
    t == s.(offset := offset, send := send, pushed := s.pushed + pushed, reader := reader, readFailed := s.readFailed || broken)
  }

  /** Where a read leaves the reader. */
  function AfterReading(running: bool, send: Text, err: ReadErr): Reader {
    if err != NoError then EndRound(running, send)
    else if |send| >= CHUNK_SIZE then Pushing(running, true)
    else Reading(running)
  }

  function ReadEvent(n: nat, err: ReadErr): Event {
    if err == NoError then Read(n) else if err == Eof then ReadEof else ReadError(n)
  }

  lemma InRoundNext(s: State, t: State, offset: nat, send: Text, pushed: seq<Text>, running: bool, n: nat, err: ReadErr)
    requires InRound(s, t, offset, send, pushed, Reading(running), false)
    requires Enabled(t, ReadEvent(n, err)) && (err == Eof ==> n == 0) && offset + n <= |s.written|
    ensures var send' := send + s.written[offset..offset + n];
      InRound(s, Next(t, ReadEvent(n, err)), offset + n, send', pushed, AfterReading(running, send', err), err == Other)
  {
    if err == Eof {
      assert send + s.written[offset..offset] == send;
    } else {
      assert AfterRead(t, n) == t.(offset := offset + n, send := send + s.written[offset..offset + n]);
    }
  }

  lemma RoundRead(states: seq<State>, s: State, offset: nat, send: Text, pushed: seq<Text>, running: bool, n: nat, err: ReadErr)
    returns (states': seq<State>)
    requires Path(states) && InRound(s, states[|states| - 1], offset, send, pushed, Reading(running), false)
    requires Enabled(states[|states| - 1], ReadEvent(n, err)) && (err == Eof ==> n == 0)
    ensures Path(states') && states'[0] == states[0]
    ensures offset + n <= |s.written|
    ensures var send' := send + s.written[offset..offset + n];
      InRound(s, states'[|states'| - 1], offset + n, send', pushed, AfterReading(running, send', err), err == Other)
  {
    InRoundNext(s, states[|states| - 1], offset, send, pushed, running, n, err);
    states' := PathSnoc(states, ReadEvent(n, err));
  }

  lemma RoundPush(states: seq<State>, s: State, offset: nat, send: Text, pushed: seq<Text>, running: bool, again: bool, broken: bool, ok: bool)
    returns (states': seq<State>)
    requires Path(states) && InRound(s, states[|states| - 1], offset, send, pushed, Pushing(running, again), broken)
    ensures Path(states') && states'[0] == states[0]
    ensures var t := states'[|states'| - 1];
      if ok then InRound(s, t, offset, [], pushed + [send], if again then Reading(running) else RoundOver(running), broken)
      else InRound(s.(pushFailed := true), t, offset, send, pushed, if running then AwaitingToken else Completing, broken)
  {
    states' := PathSnoc(states, Push(ok));
    assert s.pushed + (pushed + [send]) == s.pushed + pushed + [send];
  }

  /** What has been pushed and what is waiting make up the file from `from` to `to`. */
  ghost predicate Cut(file: Text, from: nat, to: nat, pushed: seq<Text>, send: Text) {
    from <= to <= |file| && ChunkBounds(pushed) && Concat(pushed) + send == file[from..to]
  }

  lemma CutRead(file: Text, from: nat, to: nat, pushed: seq<Text>, send: Text, n: nat)
    requires Cut(file, from, to, pushed, send) && to + n <= |file|
    ensures Cut(file, from, to + n, pushed, send + file[to..to + n])
  {
    assert file[from..to] + file[to..to + n] == file[from..to + n];
    assert Concat(pushed) + (send + file[to..to + n]) == Concat(pushed) + send + file[to..to + n];
  }

  lemma CutPush(file: Text, from: nat, to: nat, pushed: seq<Text>, send: Text)
    requires Cut(file, from, to, pushed, send) && 0 < |send| < 2 * CHUNK_SIZE
    ensures Cut(file, from, to, pushed + [send], [])
  {
    ConcatSnoc(pushed, send);
    assert Concat(pushed) + send + [] == Concat(pushed) + send;
  }

  /** The loop of a round and the machine agree; the machine began the round in state `s`. */
  ghost predicate Round(states: seq<State>, s: State, offset: nat, pushed: seq<Text>, buffer: Text, running: bool, err: ReadErr) {
    && Path(states) && states[0] == s
    && InRound(s, states[|states| - 1], offset, buffer, pushed, AfterReading(running, buffer, err), err == Other)
    && Cut(s.written, s.offset, offset, pushed, buffer)
    && (err == Eof ==> offset == |s.written|)
  }

  /** A failed push ends the round. */
  ghost predicate RoundFailed(states: seq<State>, s: State, offset: nat, pushed: seq<Text>, buffer: Text, running: bool, err: ReadErr) {
    && Path(states) && states[0] == s
    && InRound(s.(pushFailed := true), states[|states| - 1], offset, buffer, pushed,
               if running then AwaitingToken else Completing, err == Other)
    && Cut(s.written, s.offset, offset, pushed, buffer)
  }

  /** What a read may return, as far as the machine is concerned. */
  predicate ReadResult(file: Text, offset: nat, n: nat, err: ReadErr) {
    && offset + n <= |file| && n <= CHUNK_SIZE
    && (err == NoError ==> n > 0)
    && (err == Eof ==> n == 0 && offset == |file|)
  }

  lemma ReadEnabled(states: seq<State>, s: State, offset: nat, pushed: seq<Text>, buffer: Text, running: bool, n: nat, err: ReadErr)
    requires Round(states, s, offset, pushed, buffer, running, NoError) && |buffer| < CHUNK_SIZE
    requires ReadResult(s.written, offset, n, err)
    ensures Enabled(states[|states| - 1], ReadEvent(n, err))
    ensures InRound(s, states[|states| - 1], offset, buffer, pushed, Reading(running), false)
  {
  }

  lemma ReadInRound(states: seq<State>, s: State, offset: nat, pushed: seq<Text>, buffer: Text, running: bool, n: nat, err: ReadErr)
    returns (states': seq<State>)
    requires Round(states, s, offset, pushed, buffer, running, NoError) && |buffer| < CHUNK_SIZE
    requires ReadResult(s.written, offset, n, err)
    ensures Round(states', s, offset + n, pushed, buffer + s.written[offset..offset + n], running, err)
  {
    ReadEnabled(states, s, offset, pushed, buffer, running, n, err);
    states' := RoundRead(states, s, offset, buffer, pushed, running, n, err);
    CutRead(s.written, s.offset, offset, pushed, buffer, n);
  }

  lemma PushInRound(states: seq<State>, s: State, offset: nat, pushed: seq<Text>, buffer: Text, running: bool, err: ReadErr, ok: bool)
    returns (states': seq<State>)
    requires Round(states, s, offset, pushed, buffer, running, err)
    requires 0 < |buffer| < 2 * CHUNK_SIZE && (|buffer| >= CHUNK_SIZE || err != NoError)
    ensures ok ==> Round(states', s, offset, pushed + [buffer], [], running, err)
    ensures !ok ==> RoundFailed(states', s, offset, pushed, buffer, running, err)
  {
    states' := RoundPush(states, s, offset, buffer, pushed, running, err == NoError, err == Other, ok);
    CutPush(s.written, s.offset, offset, pushed, buffer);
  }

  lemma RoundInFile(states: seq<State>, s: State, offset: nat, pushed: seq<Text>, buffer: Text, running: bool, err: ReadErr)
    requires Round(states, s, offset, pushed, buffer, running, err)
    ensures offset <= |s.written|
  {
  }

  /** What the operating system answers is a possible read of the machine. */
  function Answer(file: Text, offset: nat, size: nat, fails: bool): (r: (nat, ReadErr))
    requires offset <= |file|
    ensures ReadResult(file, offset, r.0, r.1)
    ensures r.1 == Other <==> fails
  {
    var left := |file| - offset;
    if fails then (Min(size, Min(CHUNK_SIZE, left)), Other)
    else if left == 0 then (0, Eof)
    else (Grant(size, left), NoError)
  }

  /** One Read, appended to the buffer. */
  method ReadMore(ghost states: seq<State>, ghost s: State, file: Text, offset0: nat, ghost pushed: seq<Text>,
                  buffer0: Text, ghost running: bool, size: nat, fails: bool)
    returns (buffer: Text, offset: nat, err: ReadErr, ghost states': seq<State>)
    requires file == s.written && |buffer0| < CHUNK_SIZE
    requires Round(states, s, offset0, pushed, buffer0, running, NoError)
    ensures Round(states', s, offset, pushed, buffer, running, err)
    ensures |buffer| < 2 * CHUNK_SIZE && offset <= |file|
    ensures err == NoError ==> offset > offset0
    ensures err == Other <==> fails
  {
    RoundInFile(states, s, offset0, pushed, buffer0, running, NoError);
    hide Round;
    var answer := Answer(file, offset0, size, fails);
    var n := answer.0;
    err := answer.1;
    states' := ReadInRound(states, s, offset0, pushed, buffer0, running, n, err);
    buffer, offset := buffer0 + file[offset0..offset0 + n], offset0 + n;
  }

  /** A round without failures pushes exactly the rest of the file and leaves the machine ready for
      the next round, or, after the token, complete. */
  lemma RoundDrains(states: seq<State>, s: State, offset: nat, pushed: seq<Text>, running: bool)
    requires Round(states, s, offset, pushed, [], running, Eof)
    ensures Concat(pushed) == s.written[s.offset..]
    ensures states[|states| - 1].reader == RoundOver(running)
    ensures states[|states| - 1].offset == |s.written|
  {
    assert Concat(pushed) + [] == Concat(pushed);
    assert s.written[s.offset..offset] == s.written[s.offset..];
  }

  /** Every chunk so far was full, and its push went well. */
  ghost predicate FullPushes(pushed: seq<Text>, push: nat -> bool) {
    forall k :: 0 <= k < |pushed| ==> |pushed[k]| >= CHUNK_SIZE && push(k)
  }

  /** All chunks but the last are full, all their pushes went well, and a failed push is the last. */
  ghost predicate PushesTell(pushed: seq<Text>, ok: bool, push: nat -> bool) {
    && (forall k :: 0 <= k < |pushed| - 1 ==> |pushed[k]| >= CHUNK_SIZE)
    && (forall k :: 0 <= k < |pushed| ==> push(k))
    && (!ok ==> !push(|pushed|))
  }

  lemma PushNext(pushed: seq<Text>, chunk: Text, push: nat -> bool)
    requires FullPushes(pushed, push)
    ensures push(|pushed|) ==> PushesTell(pushed + [chunk], true, push)
    ensures push(|pushed|) && |chunk| >= CHUNK_SIZE ==> FullPushes(pushed + [chunk], push)
    ensures !push(|pushed|) ==> PushesTell(pushed, false, push)
    ensures PushesTell(pushed, true, push)
    ensures forall k :: 0 <= k < |pushed + [chunk]| - 1 ==> |(pushed + [chunk])[k]| >= 40960
  {
  }

  /** No read but the last one failed, and that one failed exactly if the round ends with an error. */
  ghost predicate ReadsTell(readCount: nat, err: ReadErr, fails: nat -> bool) {
    && (forall i :: 0 <= i < readCount - 1 ==> !fails(i))
    && (if readCount == 0 then err == NoError else err == Other <==> fails(readCount - 1))
  }

  lemma ReadNext(readCount: nat, err: ReadErr, fails: nat -> bool)
    requires ReadsTell(readCount, NoError, fails) && (err == Other <==> fails(readCount))
    ensures ReadsTell(readCount + 1, err, fails)
  {
  }

  lemma RoundStarts(s: State, running: bool)
    requires s.reader == Reading(running) && s.send == [] && s.offset <= |s.written|
    ensures Round([s], s, s.offset, [], [], running, NoError)
  {
    assert s.pushed + [] == s.pushed;
  }

  lemma NothingYet(push: nat -> bool, fails: nat -> bool)
    ensures FullPushes([], push) && ReadsTell(0, NoError, fails)
  {
  }

  /** The inner loop of readFromFile as the source writes it, on a file that does not grow meanwhile:
      `size`, `fails` and `push` decide what each read and each push does. Every round is a stretch
      of steps of the machine; without failures it pushes exactly the rest of the file. All chunks but
      the last are full; a push is the last one when it fails, and the round fails only by that. */
  method ReadRound(ghost s: State, file: Text, offset0: nat, running: bool,
                   size: nat -> nat, fails: nat -> bool, push: nat -> bool)
    returns (pushed: seq<Text>, offset: nat, ok: bool, err: ReadErr, readCount: nat, ghost send: Text, ghost states: seq<State>)
    requires s.reader == Reading(running) && s.send == []
    requires file == s.written && offset0 == s.offset <= |file|
    ensures ok ==> send == [] && err != NoError && Round(states, s, offset, pushed, send, running, err)
    ensures !ok ==> RoundFailed(states, s, offset, pushed, send, running, err)
    ensures PushesTell(pushed, ok, push)
    ensures forall k :: 0 <= k < |pushed| - 1 ==> |pushed[k]| >= 40960
    ensures readCount > 0 && ReadsTell(readCount, err, fails)
    ensures ok && err == Eof ==> Concat(pushed) == file[offset0..]
  {
    hide Round, RoundFailed, PushesTell, FullPushes, ReadsTell;
    RoundStarts(s, running);
    NothingYet(push, fails);
    var buffer: Text, pushCount := [], 0;
    pushed, offset, err, readCount, states := [], offset0, NoError, 0, [s];
    while err == NoError
      invariant |buffer| < CHUNK_SIZE && offset <= |file|
      invariant Round(states, s, offset, pushed, buffer, running, err)
      invariant pushCount == |pushed| && FullPushes(pushed, push)
      invariant ReadsTell(readCount, err, fails)
      invariant err != NoError ==> readCount > 0
      decreases err == NoError, |file| - offset
    {
      buffer, offset, err, states := ReadMore(states, s, file, offset, pushed, buffer, running, size(readCount), fails(readCount));
      ReadNext(readCount, err, fails);
      readCount := readCount + 1;
      if |buffer| >= CHUNK_SIZE {
        ok := push(pushCount);
        PushNext(pushed, buffer, push);
        pushCount := pushCount + 1;
        states := PushInRound(states, s, offset, pushed, buffer, running, err, ok);
        if !ok {
          send := buffer;
          return;
        }
        pushed := pushed + [buffer];
        buffer := [];
      }
    }
    ok, send := true, buffer;
    PushNext(pushed, buffer, push);
    if |buffer| > 0 {
      ok := push(pushCount);
      states := PushInRound(states, s, offset, pushed, buffer, running, err, ok);
      if ok {
        pushed := pushed + [buffer];
        send := [];
      }
    }
    if ok && err == Eof {
      RoundDrains(states, s, offset, pushed, running);
    }
  }
}
