/** WriteStream of client/log.go: a stream is cut into lines, and lines are batched into chunks
    that are flushed by size, by a timer, or at the end of the stream. */
module LogStream {
  import opened Options
  import opened Utf8
  import opened Texts

  const NEWLINE: byte := '\n' as int

  /** How a stream ends. */
  datatype StreamEnd = Eof | Failure(message: Text)

  datatype LogLine = LogLine(line: Text, err: Option<StreamEnd>)

  /** At most the last byte is a newline. */
  predicate OneLine(t: Text) {
    forall j :: 0 <= j < |t| - 1 ==> t[j] != NEWLINE
  }

  predicate EndsLine(t: Text) {
    t != [] && t[|t| - 1] == NEWLINE
  }

  function LineTexts(lines: seq<LogLine>): (texts: seq<Text>)
    ensures |texts| == |lines|
    ensures forall i :: 0 <= i < |lines| ==> texts[i] == lines[i].line
  {
    if lines == [] then [] else [lines[0].line] + LineTexts(lines[1..])
  }

  /** What newLogLineReader delivers: whole lines, then whatever is left together with the error. */
  predicate LinesOf(lines: seq<LogLine>, data: Text, end: StreamEnd) {
    && lines != []
    && Concat(LineTexts(lines)) == data
    && (forall i :: 0 <= i < |lines| ==> OneLine(lines[i].line))
    && (forall i :: 0 <= i < |lines| - 1 ==> lines[i].err == None && EndsLine(lines[i].line))
    && lines[|lines| - 1].err == Some(end) && NEWLINE !in lines[|lines| - 1].line
  }

  /** bufio.Reader.ReadBytes('\n') on the unread part of the stream. */
  method ReadBytes(unread: Text, end: StreamEnd) returns (line: Text, err: Option<StreamEnd>)
    ensures line <= unread && OneLine(line)
    ensures err.None? ==> EndsLine(line)
    ensures err.Some? ==> err.value == end && line == unread && NEWLINE !in line
  {
    for i := 0 to |unread|
      invariant NEWLINE !in unread[..i]
    {
      if unread[i] == NEWLINE {
        assert forall j :: 0 <= j < i ==> unread[j] == unread[..i][j];
        return unread[..i + 1], None;
      }
    }
    assert unread[..|unread|] == unread;
    return unread, Some(end);
  }

  lemma OneMoreLine(lines: seq<LogLine>, line: Text, err: Option<StreamEnd>, unread: Text)
    requires line <= unread
    ensures Concat(LineTexts(lines + [LogLine(line, err)])) + unread[|line|..] == Concat(LineTexts(lines)) + unread
  {
    ConcatSnoc(LineTexts(lines), line);
    assert LineTexts(lines + [LogLine(line, err)]) == LineTexts(lines) + [line];
    assert unread == line + unread[|line|..];
  }

  /** A line ends at each byte 10 and nowhere else; the bytes after the last one are the last line. */
  lemma LinesEndAtNewlines(lines: seq<LogLine>, data: Text, end: StreamEnd)
    requires LinesOf(lines, data, end)
    ensures forall i, j :: 0 <= i < |lines| && 0 <= j < |lines[i].line| ==>
      (lines[i].line[j] == 10 <==> i < |lines| - 1 && j == |lines[i].line| - 1)
  {
    forall i, j | 0 <= i < |lines| && 0 <= j < |lines[i].line|
      ensures lines[i].line[j] == 10 <==> i < |lines| - 1 && j == |lines[i].line| - 1
    {
      assert OneLine(lines[i].line);
      assert i < |lines| - 1 ==> EndsLine(lines[i].line);
    }
  }

  method ReadLines(data: Text, end: StreamEnd) returns (lines: seq<LogLine>)
    ensures LinesOf(lines, data, end)
    ensures forall i, j :: 0 <= i < |lines| && 0 <= j < |lines[i].line| ==>
      (lines[i].line[j] == 10 <==> i < |lines| - 1 && j == |lines[i].line| - 1)
  {
    lines := [];
    var unread := data;
    while true
      invariant Concat(LineTexts(lines)) + unread == data
      invariant forall i :: 0 <= i < |lines| ==> lines[i].err == None && EndsLine(lines[i].line) && OneLine(lines[i].line)
      decreases |unread|
    {
      var line, err := ReadBytes(unread, end);
      OneMoreLine(lines, line, err, unread);
      lines := lines + [LogLine(line, err)];
      unread := unread[|line|..];
      if err.Some? {
        LinesEndAtNewlines(lines, data, end);
        return;
      }
    }
  }

  function ErrText(end: StreamEnd): Text {
    if end.Eof? then [] else end.message
  }

  predicate Cutoff(chunk: Text, suffix: Text, k: int, m: int)
    requires 0 <= k <= m <= |chunk|
  {
    && (k > 0 ==> chunk[k - 1] == NEWLINE)
    && OneLine(chunk[k..m])
    && chunk[m..] == suffix
  }

  /** A chunk that had not reached the threshold before its last line; `suffix` is what was
      appended to that line. */
  ghost predicate FlushedInTime(chunk: Text, suffix: Text, threshold: int) {
    exists k, m :: 0 <= k <= m <= |chunk| && Cutoff(chunk, suffix, k, m) && k < threshold
  }

  /** What holds of the chunks written before the stream has ended. */
  ghost predicate GoodChunks(chunks: seq<Text>, threshold: int) {
    forall i :: 0 <= i < |chunks| ==> EndsLine(chunks[i]) && FlushedInTime(chunks[i], [], threshold)
  }

  /** What is promised of all the chunks of a stream. */
  ghost predicate BatchedStream(chunks: seq<Text>, data: Text, end: StreamEnd, threshold: int) {
    && Concat(chunks) == data + ErrText(end)
    && (forall i :: 0 <= i < |chunks| ==> chunks[i] != [])
    && (forall i :: 0 <= i < |chunks| - 1 ==> EndsLine(chunks[i]) && FlushedInTime(chunks[i], [], threshold))
    && (chunks != [] ==> FlushedInTime(chunks[|chunks| - 1], ErrText(end), threshold))
  }

  lemma LineAppended(before: Text, line: Text, suffix: Text, threshold: int)
    requires |before| < threshold && (before == [] || EndsLine(before)) && OneLine(line)
    ensures FlushedInTime(before + line + suffix, suffix, threshold)
  {
    var chunk := before + line + suffix;
    var k, m := |before|, |before + line|;
    assert chunk[k..m] == line && chunk[m..] == suffix;
    assert k > 0 ==> chunk[k - 1] == before[k - 1];
    assert Cutoff(chunk, suffix, k, m);
  }

  lemma NextLine(lines: seq<LogLine>, from: nat, to: nat)
    requires from <= to < |lines|
    ensures Concat(LineTexts(lines[from..to + 1])) == Concat(LineTexts(lines[from..to])) + lines[to].line
  {
    var read := lines[from..to];
    assert lines[from..to + 1] == read + [lines[to]];
    assert LineTexts(read + [lines[to]]) == LineTexts(read) + [lines[to].line];
    ConcatSnoc(LineTexts(read), lines[to].line);
  }

  /** The payload for the text read so far; `last` says that the stream has ended. */
  ghost predicate PayloadFor(payload: Text, read: Text, last: bool, end: StreamEnd, threshold: int) {
    if last then payload == read + ErrText(end) && FlushedInTime(payload, ErrText(end), threshold)
    else payload == read && (payload != [] ==> EndsLine(payload) && FlushedInTime(payload, [], threshold))
  }

  /** What the inner loop has gathered from `lines[from..to]`. */
  ghost predicate Gathered(payload: Text, lines: seq<LogLine>, from: nat, to: nat, end: StreamEnd, threshold: int)
    requires from <= to <= |lines|
  {
    PayloadFor(payload, Concat(LineTexts(lines[from..to])), to == |lines|, end, threshold)
  }

  lemma TakeText(payload: Text, line: Text, last: bool, end: StreamEnd, threshold: int)
    requires |payload| < threshold && (payload == [] || EndsLine(payload))
    requires OneLine(line) && (!last ==> EndsLine(line))
    ensures PayloadFor(if last then payload + line + ErrText(end) else payload + line, payload + line, last, end, threshold)
  {
    if last {
      LineAppended(payload, line, ErrText(end), threshold);
    } else {
      LineAppended(payload, line, [], threshold);
      var all := payload + line;
      assert all + [] == all && all[|all| - 1] == line[|line| - 1];
    }
  }

  lemma TakeLine(payload: Text, lines: seq<LogLine>, from: nat, to: nat, data: Text, end: StreamEnd, threshold: int)
    requires from <= to < |lines| && LinesOf(lines, data, end)
    requires |payload| < threshold && Gathered(payload, lines, from, to, end, threshold)
    ensures lines[to].err == if to + 1 < |lines| then None else Some(end)
    ensures var all := payload + lines[to].line;
      Gathered(if to + 1 == |lines| && end.Failure? then all + end.message else all, lines, from, to + 1, end, threshold)
  {
    NextLine(lines, from, to);
    TakeText(payload, lines[to].line, to + 1 == |lines|, end, threshold);
    assert payload + lines[to].line + [] == payload + lines[to].line;
  }

  /** How many chunks are below the threshold. */
  function Shorts(chunks: seq<Text>, threshold: int): nat {
    if chunks == [] then 0
    else Shorts(chunks[..|chunks| - 1], threshold) + if |chunks[|chunks| - 1]| < threshold then 1 else 0
  }

  /** How often the timer has fired by `clock`. */
  function Ticks(timer: seq<bool>, clock: nat): nat
    requires clock <= |timer|
  {
    if clock == 0 then 0 else Ticks(timer, clock - 1) + if timer[clock - 1] then 1 else 0
  }

  lemma {:induction false} TicksGrow(timer: seq<bool>, clock: nat, later: nat)
    requires clock <= later <= |timer|
    ensures Ticks(timer, clock) <= Ticks(timer, later)
    decreases later
  {
    if clock < later {
      TicksGrow(timer, clock, later - 1);
    }
  }

  lemma {:induction false} NoTicks(timer: seq<bool>, clock: nat)
    requires clock <= |timer| && forall j :: 0 <= j < clock ==> !timer[j]
    ensures Ticks(timer, clock) == 0
  {
    if clock > 0 {
      NoTicks(timer, clock - 1);
    }
  }

  lemma {:induction false} NoShorts(chunks: seq<Text>, threshold: int)
    requires Shorts(chunks, threshold) == 0
    ensures forall i :: 0 <= i < |chunks| ==> |chunks[i]| >= threshold
  {
    if chunks != [] {
      var front := chunks[..|chunks| - 1];
      NoShorts(front, threshold);
      assert forall i :: 0 <= i < |front| ==> chunks[i] == front[i];
    }
  }

  lemma NothingGathered(lines: seq<LogLine>, from: nat, end: StreamEnd, threshold: int)
    requires from < |lines|
    ensures Gathered([], lines, from, from, end, threshold)
  {
  }

  /** The inner loop: takes lines until the threshold is reached, the timer fires or the stream ends.
      `timer[i]` says whether the timer wins the i-th select; once the schedule is used up lines win. */
  method FillPayload(lines: seq<LogLine>, next0: nat, timer: seq<bool>, clock0: nat, threshold: int,
                     ghost data: Text, ghost end: StreamEnd)
    returns (payload: Text, next: nat, clock: nat, finished: bool)
    requires LinesOf(lines, data, end) && next0 < |lines| && clock0 <= |timer| && threshold > 0
    ensures next0 <= next <= |lines| && clock0 <= clock <= |timer|
    ensures next > next0 || clock > clock0
    ensures finished <==> next == |lines|
    ensures Gathered(payload, lines, next0, next, end, threshold)
    // the loop ends for one of three reasons, and before the last tick no other tick was seen
    ensures finished || |payload| >= threshold || (clock > clock0 && timer[clock - 1])
    ensures forall j :: clock0 <= j < clock - 1 ==> !timer[j]
    // every select takes one line, except that one won by the timer takes none
    ensures clock > clock0 && timer[clock - 1] ==> !finished && next - next0 == clock - clock0 - 1
    ensures clock < |timer| && !(clock > clock0 && timer[clock - 1]) ==> next - next0 == clock - clock0
    ensures !(clock > clock0 && timer[clock - 1]) ==> next - next0 >= clock - clock0
  {
    hide Gathered, LinesOf;
    NothingGathered(lines, next0, end, threshold);
    payload, next, clock, finished := [], next0, clock0, false;
    while |payload| < threshold
      invariant next0 <= next < |lines| && clock0 <= clock <= |timer|
      invariant Gathered(payload, lines, next0, next, end, threshold)
      invariant next == next0 && clock == clock0 ==> payload == []
      invariant forall j :: clock0 <= j < clock ==> !timer[j]
      invariant next - next0 >= clock - clock0 && (clock < |timer| ==> next - next0 == clock - clock0)
      decreases |lines| - next
    {
      var timeLimitExceeded := clock < |timer| && timer[clock];
      if clock < |timer| {
        clock := clock + 1;
      }
      if timeLimitExceeded {
        break;
      }
      var logLine := lines[next];
      TakeLine(payload, lines, next0, next, data, end, threshold);
      payload := payload + logLine.line;
      next := next + 1;
      if logLine.err == Some(Eof) {
        finished := true;
        break;
      }
      if logLine.err != None {
        finished := true;
        payload := payload + logLine.err.value.message;
        break;
      }
    }
  }

  /** What holds between two rounds of the outer loop. */
  ghost predicate Written(chunks: seq<Text>, lines: seq<LogLine>, next: nat, data: Text, end: StreamEnd, threshold: int)
    requires next <= |lines|
  {
    if next == |lines| then BatchedStream(chunks, data, end, threshold)
    else Concat(chunks) == Concat(LineTexts(lines[..next])) && GoodChunks(chunks, threshold)
  }

  function Flush(chunks: seq<Text>, payload: Text): (all: seq<Text>)
  {
    if payload == [] then chunks else chunks + [payload]
  }

  lemma FlushConcat(chunks: seq<Text>, payload: Text)
    ensures Concat(Flush(chunks, payload)) == Concat(chunks) + payload
  {
    ConcatSnoc(chunks, payload);
    assert Concat(chunks) + [] == Concat(chunks);
  }

  lemma FlushLast(chunks: seq<Text>, payload: Text, data: Text, end: StreamEnd, threshold: int)
    requires GoodChunks(chunks, threshold) && Concat(chunks) + payload == data + ErrText(end)
    requires FlushedInTime(payload, ErrText(end), threshold)
    ensures BatchedStream(Flush(chunks, payload), data, end, threshold)
  {
    FlushConcat(chunks, payload);
    if payload == [] {
      assert ErrText(end) == [];
    }
  }

  lemma Reading(lines: seq<LogLine>, from: nat, to: nat)
    requires from <= to <= |lines|
    ensures Concat(LineTexts(lines[..to])) == Concat(LineTexts(lines[..from])) + Concat(LineTexts(lines[from..to]))
  {
    assert LineTexts(lines[..to]) == LineTexts(lines[..from]) + LineTexts(lines[from..to]);
    ConcatTwo(LineTexts(lines[..from]), LineTexts(lines[from..to]));
  }

  lemma AllRead(lines: seq<LogLine>, from: nat)
    requires from <= |lines|
    ensures Concat(LineTexts(lines[..from])) + Concat(LineTexts(lines[from..|lines|])) == Concat(LineTexts(lines))
  {
    Reading(lines, from, |lines|);
    assert lines[..|lines|] == lines;
  }

  lemma Reassociate(a: Text, b: Text, c: Text)
    ensures a + (b + c) == (a + b) + c
  {
  }

  lemma WriteChunk(chunks: seq<Text>, payload: Text, lines: seq<LogLine>, from: nat, to: nat,
                   data: Text, end: StreamEnd, threshold: int)
    requires from <= to <= |lines| && from < |lines| && LinesOf(lines, data, end)
    requires Written(chunks, lines, from, data, end, threshold)
    requires Gathered(payload, lines, from, to, end, threshold)
    ensures Written(Flush(chunks, payload), lines, to, data, end, threshold)
  {
    if to == |lines| {
      AllRead(lines, from);
      Reassociate(Concat(chunks), Concat(LineTexts(lines[from..to])), ErrText(end));
      FlushLast(chunks, payload, data, end, threshold);
    } else {
      Reading(lines, from, to);
      FlushConcat(chunks, payload);
    }
  }

  /** All chunks but the last, which the end of the stream may cut short. */
  function Inner(chunks: seq<Text>): seq<Text> {
    if chunks == [] then [] else chunks[..|chunks| - 1]
  }

  lemma FlushShorts(chunks: seq<Text>, payload: Text, finished: bool, timer: seq<bool>, clock0: nat, clock: nat, threshold: int)
    requires threshold > 0 && clock0 <= clock <= |timer| && Shorts(chunks, threshold) <= Ticks(timer, clock0)
    requires finished || |payload| >= threshold || (clock > clock0 && timer[clock - 1])
    ensures Shorts(if finished then Inner(Flush(chunks, payload)) else Flush(chunks, payload), threshold) <= Ticks(timer, clock)
  {
    TicksGrow(timer, clock0, clock);
    assert payload != [] ==> Inner(Flush(chunks, payload)) == chunks;
    if !finished && |payload| < threshold {
      TicksGrow(timer, clock0, clock - 1);
    }
  }

  lemma OnlyTicksCut(chunks: seq<Text>, timer: seq<bool>, threshold: int)
    requires Shorts(Inner(chunks), threshold) <= Ticks(timer, |timer|) && forall j :: 0 <= j < |timer| ==> !timer[j]
    ensures forall i :: 0 <= i < |chunks| - 1 ==> |chunks[i]| >= threshold
  {
    NoTicks(timer, |timer|);
    NoShorts(Inner(chunks), threshold);
    assert forall i :: 0 <= i < |chunks| - 1 ==> chunks[i] == Inner(chunks)[i];
  }

  // ---------- A tick flushes what has been gathered ----------

  /** How many lines the first `clock` selects take. */
  function Taken(timer: seq<bool>, clock: nat): nat
    requires clock <= |timer|
  {
    if clock == 0 then 0 else Taken(timer, clock - 1) + if timer[clock - 1] then 0 else 1
  }

  lemma {:induction false} TakenGrows(timer: seq<bool>, clock: nat, later: nat)
    requires clock <= later <= |timer|
    ensures Taken(timer, clock) <= Taken(timer, later)
    ensures (forall j :: clock <= j < later ==> !timer[j]) ==> Taken(timer, later) == Taken(timer, clock) + (later - clock)
    decreases later
  {
    if clock < later {
      TakenGrows(timer, clock, later - 1);
    }
  }

  /** The first `n` chunks are the text of the first `taken` lines. */
  ghost predicate CutAt(chunks: seq<Text>, n: nat, lines: seq<LogLine>, taken: nat) {
    n <= |chunks| && taken <= |lines| && Concat(chunks[..n]) == Concat(LineTexts(lines[..taken]))
  }

  /** The timer wins the j-th select, and the stream has not ended by then. */
  predicate TickAt(timer: seq<bool>, j: nat, lines: seq<LogLine>) {
    j < |timer| && timer[j] && Taken(timer, j) < |lines|
  }

  ghost predicate FlushedAt(chunks: seq<Text>, lines: seq<LogLine>, timer: seq<bool>, j: nat)
    requires j < |timer|
  {
    exists n :: CutAt(chunks, n, lines, Taken(timer, j))
  }

  /** At every tick up to `clock` a chunk ends with the last line taken by then. */
  ghost predicate TicksFlush(chunks: seq<Text>, lines: seq<LogLine>, timer: seq<bool>, clock: nat)
    requires clock <= |timer|
  {
    forall j :: 0 <= j < clock && TickAt(timer, j, lines) ==> FlushedAt(chunks, lines, timer, j)
  }

  /** A chunk below the threshold ends at a tick. */
  ghost predicate CutByTick(chunks: seq<Text>, i: nat, lines: seq<LogLine>, timer: seq<bool>) {
    exists j :: TickAt(timer, j, lines) && CutAt(chunks, i + 1, lines, Taken(timer, j))
  }

  ghost predicate ShortsAtTicks(chunks: seq<Text>, last: int, lines: seq<LogLine>, timer: seq<bool>, threshold: int) {
    forall i :: 0 <= i < last <= |chunks| && |chunks[i]| < threshold ==> CutByTick(chunks, i, lines, timer)
  }

  lemma CutStays(chunks: seq<Text>, payload: Text, n: nat, lines: seq<LogLine>, taken: nat)
    requires CutAt(chunks, n, lines, taken)
    ensures CutAt(Flush(chunks, payload), n, lines, taken)
  {
    assert Flush(chunks, payload)[..n] == chunks[..n];
  }

  /** Where the rounds so far have left the clock. */
  ghost predicate InStep(timer: seq<bool>, clock: nat, next: nat) {
    clock <= |timer| && Taken(timer, clock) <= next && (clock < |timer| ==> Taken(timer, clock) == next)
  }

  lemma RoundKeepsStep(timer: seq<bool>, clock0: nat, next0: nat, clock: nat, next: nat)
    requires InStep(timer, clock0, next0) && next0 <= next && clock0 <= clock <= |timer|
    requires forall j :: clock0 <= j < clock - 1 ==> !timer[j]
    requires clock > clock0 && timer[clock - 1] ==> next - next0 == clock - clock0 - 1
    requires clock < |timer| && !(clock > clock0 && timer[clock - 1]) ==> next - next0 == clock - clock0
    requires !(clock > clock0 && timer[clock - 1]) ==> next - next0 >= clock - clock0
    ensures InStep(timer, clock, next)
    ensures clock > clock0 && timer[clock - 1] ==> Taken(timer, clock - 1) == next
  {
    if clock > clock0 {
      TakenGrows(timer, clock0, clock - 1);
    }
  }

  lemma RoundFlushes(chunks: seq<Text>, payload: Text, lines: seq<LogLine>, timer: seq<bool>,
                     clock0: nat, clock: nat, next: nat)
    requires clock0 <= clock <= |timer| && TicksFlush(chunks, lines, timer, clock0)
    requires forall j :: clock0 <= j < clock - 1 ==> !timer[j]
    requires clock > clock0 && timer[clock - 1] ==>
      Taken(timer, clock - 1) == next && CutAt(Flush(chunks, payload), |Flush(chunks, payload)|, lines, next)
    ensures TicksFlush(Flush(chunks, payload), lines, timer, clock)
  {
    forall j | 0 <= j < clock && TickAt(timer, j, lines) ensures FlushedAt(Flush(chunks, payload), lines, timer, j) {
      if j < clock0 {
        var n :| CutAt(chunks, n, lines, Taken(timer, j));
        CutStays(chunks, payload, n, lines, Taken(timer, j));
      }
    }
  }

  lemma RoundShorts(chunks: seq<Text>, payload: Text, lines: seq<LogLine>, timer: seq<bool>,
                    clock: nat, next: nat, threshold: int)
    requires ShortsAtTicks(chunks, |chunks|, lines, timer, threshold)
    requires |payload| < threshold ==>
      && 0 < clock <= |timer| && timer[clock - 1] && next < |lines| && Taken(timer, clock - 1) == next
      && CutAt(Flush(chunks, payload), |Flush(chunks, payload)|, lines, next)
    ensures ShortsAtTicks(Flush(chunks, payload), |Flush(chunks, payload)|, lines, timer, threshold)
  {
    var all := Flush(chunks, payload);
    forall i | 0 <= i < |all| && |all[i]| < threshold ensures CutByTick(all, i, lines, timer) {
      if i < |chunks| {
        assert all[i] == chunks[i] && CutByTick(chunks, i, lines, timer);
        var j :| TickAt(timer, j, lines) && CutAt(chunks, i + 1, lines, Taken(timer, j));
        CutStays(chunks, payload, i + 1, lines, Taken(timer, j));
      } else {
        assert TickAt(timer, clock - 1, lines);
      }
    }
  }

  lemma LastMayBeShort(chunks: seq<Text>, payload: Text, lines: seq<LogLine>, timer: seq<bool>, threshold: int)
    requires ShortsAtTicks(chunks, |chunks|, lines, timer, threshold)
    ensures ShortsAtTicks(Flush(chunks, payload), |Flush(chunks, payload)| - 1, lines, timer, threshold)
  {
    var all := Flush(chunks, payload);
    forall i | 0 <= i < |all| - 1 && |all[i]| < threshold ensures CutByTick(all, i, lines, timer) {
      assert all[i] == chunks[i] && CutByTick(chunks, i, lines, timer);
      var j :| TickAt(timer, j, lines) && CutAt(chunks, i + 1, lines, Taken(timer, j));
      CutStays(chunks, payload, i + 1, lines, Taken(timer, j));
    }
  }

  lemma WrittenIsCut(chunks: seq<Text>, lines: seq<LogLine>, next: nat, data: Text, end: StreamEnd, threshold: int)
    requires next < |lines| && Written(chunks, lines, next, data, end, threshold)
    ensures CutAt(chunks, |chunks|, lines, next)
  {
    assert chunks[..|chunks|] == chunks;
  }

  /** What the ticks have done between two rounds of the outer loop. */
  ghost predicate OnTime(chunks: seq<Text>, lines: seq<LogLine>, timer: seq<bool>, clock: nat, next: nat,
                         finished: bool, threshold: int) {
    && InStep(timer, clock, next)
    && TicksFlush(chunks, lines, timer, clock)
    && ShortsAtTicks(chunks, if finished then |chunks| - 1 else |chunks|, lines, timer, threshold)
  }

  lemma RoundOnTime(chunks: seq<Text>, payload: Text, lines: seq<LogLine>, timer: seq<bool>, clock0: nat, next0: nat,
                    clock: nat, next: nat, finished: bool, data: Text, end: StreamEnd, threshold: int)
    requires OnTime(chunks, lines, timer, clock0, next0, false, threshold)
    requires next0 <= next <= |lines| && clock0 <= clock <= |timer| && (finished <==> next == |lines|)
    requires Written(Flush(chunks, payload), lines, next, data, end, threshold)
    requires finished || |payload| >= threshold || (clock > clock0 && timer[clock - 1])
    requires forall j :: clock0 <= j < clock - 1 ==> !timer[j]
    requires clock > clock0 && timer[clock - 1] ==> !finished && next - next0 == clock - clock0 - 1
    requires clock < |timer| && !(clock > clock0 && timer[clock - 1]) ==> next - next0 == clock - clock0
    requires !(clock > clock0 && timer[clock - 1]) ==> next - next0 >= clock - clock0
    ensures OnTime(Flush(chunks, payload), lines, timer, clock, next, finished, threshold)
  {
    hide CutAt, Flush, Written, TicksFlush, ShortsAtTicks;
    RoundKeepsStep(timer, clock0, next0, clock, next);
    if finished {
      RoundFlushes(chunks, payload, lines, timer, clock0, clock, next);
      LastMayBeShort(chunks, payload, lines, timer, threshold);
    } else {
      WrittenIsCut(Flush(chunks, payload), lines, next, data, end, threshold);
      RoundFlushes(chunks, payload, lines, timer, clock0, clock, next);
      RoundShorts(chunks, payload, lines, timer, clock, next, threshold);
    }
  }

  lemma AllTicks(chunks: seq<Text>, lines: seq<LogLine>, timer: seq<bool>, clock: nat, threshold: int)
    requires OnTime(chunks, lines, timer, clock, |lines|, true, threshold)
    ensures TicksFlush(chunks, lines, timer, |timer|)
    ensures ShortsAtTicks(chunks, |chunks| - 1, lines, timer, threshold)
  {
    forall j | clock <= j < |timer| ensures !TickAt(timer, j, lines) {
      TakenGrows(timer, clock, j);
    }
  }

  lemma NoneYet(timer: seq<bool>, threshold: int)
    ensures Shorts([], threshold) == 0 == Ticks(timer, 0)
  {
  }

  lemma WrittenAll(chunks: seq<Text>, lines: seq<LogLine>, data: Text, end: StreamEnd, threshold: int)
    requires Written(chunks, lines, |lines|, data, end, threshold)
    ensures BatchedStream(chunks, data, end, threshold)
    ensures Concat(chunks) == data + match end { case Eof => [] case Failure(message) => message }
    ensures forall i :: 0 <= i < |chunks| - 1 ==> chunks[i] != [] && chunks[i][|chunks[i]| - 1] == 10
  {
    assert forall i :: 0 <= i < |chunks| - 1 ==> EndsLine(chunks[i]);
  }

  lemma StreamStarts(lines: seq<LogLine>, timer: seq<bool>, data: Text, end: StreamEnd, threshold: int)
    requires LinesOf(lines, data, end)
    ensures lines != [] && Written([], lines, 0, data, end, threshold)
    ensures OnTime([], lines, timer, 0, 0, false, threshold)
  {
  }

  /** The chunks offered to the log, whatever the timer does; apart from the last one at most as many
      chunks stay below the threshold as the timer fires. A tick ends a chunk with the last line taken by
      then, and nothing else ends one below the threshold. */
  method WriteStream(data: Text, end: StreamEnd, timer: seq<bool>, threshold: int)
    returns (chunks: seq<Text>, ghost lines: seq<LogLine>)
    requires threshold > 0
    ensures LinesOf(lines, data, end)
    ensures TicksFlush(chunks, lines, timer, |timer|)
    ensures ShortsAtTicks(chunks, |chunks| - 1, lines, timer, threshold)
    ensures BatchedStream(chunks, data, end, threshold)
    ensures Concat(chunks) == data + match end { case Eof => [] case Failure(message) => message }
    ensures forall i :: 0 <= i < |chunks| - 1 ==> chunks[i] != [] && chunks[i][|chunks[i]| - 1] == 10
    ensures Shorts(Inner(chunks), threshold) <= Ticks(timer, |timer|)
    ensures (forall j :: 0 <= j < |timer| ==> !timer[j]) ==> forall i :: 0 <= i < |chunks| - 1 ==> |chunks[i]| >= threshold
  {
    hide LinesOf, Written, OnTime, TicksFlush, ShortsAtTicks, Ticks, Shorts, BatchedStream, Gathered;
    var stream := ReadLines(data, end);
    lines := stream;
    chunks := [];
    StreamStarts(lines, timer, data, end, threshold);
    NoneYet(timer, threshold);
    var finished, next, clock := false, 0, 0;
    while !finished
      invariant next <= |lines| && clock <= |timer|
      invariant finished <==> next == |lines|
      invariant Written(chunks, lines, next, data, end, threshold)
      invariant Shorts(if finished then Inner(chunks) else chunks, threshold) <= Ticks(timer, clock)
      invariant OnTime(chunks, lines, timer, clock, next, finished, threshold)
      decreases |lines| - next + |timer| - clock
    {
      ghost var from, clock0 := next, clock;
      var payload;
      payload, next, clock, finished := FillPayload(stream, next, timer, clock, threshold, data, end);
      WriteChunk(chunks, payload, lines, from, next, data, end, threshold);
      FlushShorts(chunks, payload, finished, timer, clock0, clock, threshold);
      RoundOnTime(chunks, payload, lines, timer, clock0, from, clock, next, finished, data, end, threshold);
      if |payload| > 0 {
        chunks := chunks + [payload];
      }
    }
    WrittenAll(chunks, lines, data, end, threshold);
    AllTicks(chunks, lines, timer, clock, threshold);
    TicksGrow(timer, clock, |timer|);
    if forall j :: 0 <= j < |timer| ==> !timer[j] {
      OnlyTicksCut(chunks, timer, threshold);
    }
  }
}
