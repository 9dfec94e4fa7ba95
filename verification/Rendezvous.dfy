/** The closable log of client/log.go with its one reader, reportLogChunks of engine/engine.go, and
    the close-and-wait at the end of Engine.Run. Writers and reader meet over an unbuffered channel;
    every interleaving is a run of the step relation below. */
module Rendezvous {
  import opened Texts

  /** One call of Log.write. */
  datatype Call = Pending(payload: Text) | Accepted(payload: Text) | Refused(payload: Text)

  /** reportLogChunks: inside GetChunk, holding a chunk it has yet to push, or finished. */
  datatype Reader = Waiting | Holding(chunk: Text) | Finished

  /** Engine.Run: before Close, inside wg.Wait, or returned. */
  datatype Main = Running | Joining | Returned

  datatype State = State(
    closed: bool,
    calls: map<nat, Call>,
    order: seq<nat>,     // the calls that met the reader, in order
    reader: Reader,
    pushed: seq<Text>,
    main: Main)

  predicate Init(s: State) {
    s == State(false, map[], [], Waiting, [], Running)
  }

  datatype Event =
    | Write(id: nat, payload: Text)
    | Meet(id: nat)
    | Refuse(id: nat)
    | Push
    | Stop
    | Close
    | Join

  predicate Enabled(s: State, e: Event) {
    match e
    case Write(id, _) => id !in s.calls
    case Meet(id) => id in s.calls && s.calls[id].Pending? && s.reader == Waiting
    case Refuse(id) => id in s.calls && s.calls[id].Pending? && s.closed
    case Push => s.reader.Holding?
    case Stop => s.reader == Waiting && s.closed
    case Close => s.main == Running
    case Join => s.main == Joining && s.reader == Finished
  }

  function Next(s: State, e: Event): State
    requires Enabled(s, e)
  {
    match e
    case Write(id, payload) => s.(calls := s.calls[id := Pending(payload)])
    case Meet(id) =>
      var payload := s.calls[id].payload;
      s.(calls := s.calls[id := Accepted(payload)], order := s.order + [id], reader := Holding(payload))
    case Refuse(id) => s.(calls := s.calls[id := Refused(s.calls[id].payload)])
    case Push => s.(pushed := s.pushed + [s.reader.chunk], reader := Waiting)
    case Stop => s.(reader := Finished)
    case Close => s.(closed := true, main := Joining)
    case Join => s.(main := Returned)
  }

  ghost predicate Step(s: State, s': State) {
    exists e :: Enabled(s, e) && s' == Next(s, e)
  }

  /** A run: the states passed through, from the start. */
  ghost predicate Run(states: seq<State>) {
    && states != [] && Init(states[0])
    && forall i :: 0 <= i < |states| - 1 ==> Step(states[i], states[i + 1])
  }

  // ---------- What every state keeps ----------

  predicate OrderIsAccepted(s: State) {
    && (forall i :: 0 <= i < |s.order| ==> s.order[i] in s.calls && s.calls[s.order[i]].Accepted?)
    && (forall id :: id in s.calls && s.calls[id].Accepted? ==> id in s.order)
    && (forall i, j :: 0 <= i < j < |s.order| ==> s.order[i] != s.order[j])
  }

  /** The chunk the reader holds is the last one it met; all earlier ones are pushed. */
  predicate PushedInOrder(s: State) {
    && |s.order| == |s.pushed| + (if s.reader.Holding? then 1 else 0)
    && (forall i :: 0 <= i < |s.pushed| ==> s.order[i] in s.calls && s.pushed[i] == s.calls[s.order[i]].payload)
    && (s.reader.Holding? ==> s.order[|s.pushed|] in s.calls && s.reader.chunk == s.calls[s.order[|s.pushed|]].payload)
  }

  predicate Inv(s: State) {
    && OrderIsAccepted(s)
    && PushedInOrder(s)
    && (s.closed <==> s.main != Running)
    && (s.reader == Finished ==> s.closed)
    && (s.main == Returned ==> s.reader == Finished)
  }

  lemma StepKeepsInv(s: State, e: Event)
    requires Inv(s) && Enabled(s, e)
    ensures Inv(Next(s, e))
  {
    if e.Meet? {
      assert e.id !in s.order;
    }
  }

  lemma StepFromInv(s: State, s': State)
    requires Inv(s) && Step(s, s')
    ensures Inv(s')
  {
    hide Inv, Enabled, Next;
    var e :| Enabled(s, e) && s' == Next(s, e);
    StepKeepsInv(s, e);
  }

  lemma {:induction false} RunKeepsInv(states: seq<State>, i: nat)
    requires Run(states) && i < |states|
    ensures Inv(states[i])
  {
    hide Step;
    if i > 0 {
      RunKeepsInv(states, i - 1);
      StepFromInv(states[i - 1], states[i]);
    }
  }

  /** `texts` are the payloads of the acknowledged writes, exactly once each, in the order of their
      rendezvous. */
  ghost predicate Delivered(s: State, texts: seq<Text>) {
    && |texts| == |s.order|
    && (forall i, j :: 0 <= i < j < |s.order| ==> s.order[i] != s.order[j])
    && (forall id :: id in s.order <==> id in s.calls && s.calls[id].Accepted?)
    && (forall i :: 0 <= i < |texts| ==> texts[i] == s.calls[s.order[i]].payload)
  }

  function InHand(s: State): seq<Text> {
    if s.reader.Holding? then [s.reader.chunk] else []
  }

  lemma InvDelivers(s: State)
    requires Inv(s)
    ensures Delivered(s, s.pushed + InHand(s))
  {
    forall id ensures id in s.order <==> id in s.calls && s.calls[id].Accepted? {
      if id in s.order {
        var k :| 0 <= k < |s.order| && s.order[k] == id;
      }
    }
  }

  /** At every moment the chunks pushed and the one in the reader's hands are exactly the payloads
      whose write was acknowledged. */
  lemma PushedAndHeld(states: seq<State>, i: nat)
    requires Run(states) && i < |states|
    ensures Delivered(states[i], states[i].pushed + InHand(states[i]))
  {
    RunKeepsInv(states, i);
    InvDelivers(states[i]);
  }

  /** Once Run has returned, the chunks pushed to the reporter are exactly the payloads whose write
      returned nil, once each, in rendezvous order. */
  lemma ReturnedMeansDelivered(states: seq<State>, i: nat)
    requires Run(states) && i < |states| && states[i].main == Returned
    ensures Delivered(states[i], states[i].pushed)
  {
    RunKeepsInv(states, i);
    PushedAndHeld(states, i);
    assert states[i].pushed + [] == states[i].pushed;
  }

  lemma ReturnedStep(states: seq<State>, i: nat)
    requires Run(states) && i + 1 < |states| && states[i].main == Returned
    ensures states[i + 1].main == Returned
    ensures states[i + 1].pushed == states[i].pushed && states[i + 1].order == states[i].order
  {
    RunKeepsInv(states, i);
    assert Step(states[i], states[i + 1]);
    assert states[i].reader == Finished && states[i].closed;
  }

  /** Nothing is pushed and no write is acknowledged after Run has returned. */
  lemma {:induction false} ReturnedIsFinal(states: seq<State>, i: nat, j: nat)
    requires Run(states) && i <= j < |states| && states[i].main == Returned
    ensures states[j].main == Returned && states[j].pushed == states[i].pushed && states[j].order == states[i].order
    decreases j
  {
    if i < j {
      ReturnedIsFinal(states, i, j - 1);
      ReturnedStep(states, j - 1);
    }
  }

  // ---------- One call of write ----------

  /** A call keeps its payload and its answer, and it is refused only by a closed log. */
  predicate SameCall(s: State, s': State, id: nat) {
    && id in s.calls && id in s'.calls
    && s'.calls[id].payload == s.calls[id].payload
    && (!s.calls[id].Pending? ==> s'.calls[id] == s.calls[id])
    && (s'.calls[id].Refused? ==> s.calls[id].Refused? || s'.closed)
    && (s.closed ==> s'.closed)
  }

  lemma EventKeepsCall(s: State, e: Event, id: nat)
    requires Enabled(s, e) && id in s.calls
    ensures SameCall(s, Next(s, e), id)
  {
  }

  lemma StepKeepsCall(s: State, s': State, id: nat)
    requires Step(s, s') && id in s.calls
    ensures SameCall(s, s', id)
  {
    hide Enabled, Next, SameCall;
    var e :| Enabled(s, e) && s' == Next(s, e);
    EventKeepsCall(s, e, id);
  }

  lemma {:induction false} RunKeepsCall(states: seq<State>, k: nat, i: nat, id: nat)
    requires Run(states) && k <= i < |states| && id in states[k].calls
    ensures SameCall(states[k], states[i], id)
    decreases i
  {
    hide Step;
    if k < i {
      RunKeepsCall(states, k, i - 1, id);
      StepKeepsCall(states[i - 1], states[i], id);
    }
  }

  /** A call of write carries its text from its first step on; it returns once, and it is refused only
      after Close. */
  lemma WriteCarriesPayload(states: seq<State>, k: nat, i: nat, id: nat, payload: Text)
    requires Run(states) && k < i < |states|
    requires Enabled(states[k], Write(id, payload)) && states[k + 1] == Next(states[k], Write(id, payload))
    ensures states[k + 1].calls[id] == Pending(payload)
    ensures id in states[i].calls && states[i].calls[id].payload == payload
    ensures forall j :: i <= j < |states| && !states[i].calls[id].Pending? ==>
      id in states[j].calls && states[j].calls[id] == states[i].calls[id]
    ensures states[i].calls[id].Refused? ==> states[i].closed
  {
    hide Step;
    RunKeepsCall(states, k + 1, i, id);
    forall j | i <= j < |states| ensures SameCall(states[i], states[j], id) {
      RunKeepsCall(states, i, j, id);
    }
  }

  // ---------- Nobody stays blocked ----------

  function PendingCalls(s: State): set<nat> {
    set id | id in s.calls && s.calls[id].Pending?
  }

  /** Work left after Close: writers to release, a chunk to push, the reader to stop, Run to return. */
  function Work(s: State): nat {
    3 * |PendingCalls(s)|
    + (match s.reader case Waiting => 1 case Holding(_) => 2 case Finished => 0)
    + (if s.main == Joining then 1 else 0)
  }

  lemma Released(s: State, s': State, id: nat)
    requires id in PendingCalls(s) && PendingCalls(s') == PendingCalls(s) - {id}
    ensures |PendingCalls(s')| == |PendingCalls(s)| - 1
  {
  }

  /** After Close every step other than a new write makes progress, so the log winds down in at most
      Work(s) steps whatever the scheduler picks; and it comes to rest only when no writer is
      blocked, the reader has stopped and Run has returned. */
  lemma CloseDrains(s: State, e: Event)
    requires Inv(s) && s.closed
    ensures Enabled(s, e) && !e.Write? ==> Next(s, e).closed && Work(Next(s, e)) < Work(s)
    ensures (forall e' :: Enabled(s, e') ==> e'.Write?) ==>
      PendingCalls(s) == {} && s.reader == Finished && s.main == Returned
  {
    if Enabled(s, e) && (e.Meet? || e.Refuse?) {
      assert PendingCalls(Next(s, e)) == PendingCalls(s) - {e.id};
      Released(s, Next(s, e), e.id);
    } else if Enabled(s, e) && !e.Write? {
      assert PendingCalls(Next(s, e)) == PendingCalls(s);
    }
    if forall e' :: Enabled(s, e') ==> e'.Write? {
      assert !Enabled(s, Stop) && !Enabled(s, Push) && !Enabled(s, Join);
      forall id | id in PendingCalls(s) ensures false {
        assert Enabled(s, Refuse(id));
      }
    }
  }

  /** Before Close a blocked writer is never stuck: the reader can push or meet it. */
  lemma WritersMeet(states: seq<State>, i: nat, id: nat)
    requires Run(states) && i < |states| && id in PendingCalls(states[i]) && !states[i].closed
    ensures Enabled(states[i], Meet(id)) || (Enabled(states[i], Push) && Enabled(Next(states[i], Push), Meet(id)))
  {
    RunKeepsInv(states, i);
  }

  // ---------- Every log can be delivered ----------

  lemma Extend(states: seq<State>, e: Event) returns (states': seq<State>)
    requires Run(states) && Enabled(states[|states| - 1], e)
    ensures Run(states') && states'[|states'| - 1] == Next(states[|states| - 1], e)
  {
    var s := Next(states[|states| - 1], e);
    states' := states + [s];
    assert Step(states[|states| - 1], s);
    forall i | 0 <= i < |states'| - 1 ensures Step(states'[i], states'[i + 1]) {
      if i < |states| - 1 {
        assert states'[i] == states[i] && states'[i + 1] == states[i + 1];
      }
    }
  }

  /** One write after the other, each met by the reader and pushed before the next. */
  lemma {:induction false} WritesOneByOne(texts: seq<Text>) returns (states: seq<State>)
    ensures Run(states)
    ensures var s := states[|states| - 1];
      && s.pushed == texts && s.reader == Waiting && s.main == Running && !s.closed
      && (forall id: nat :: id in s.calls <==> id < |texts|)
      && (forall id :: id in s.calls ==> s.calls[id].Accepted?)
    decreases |texts|
  {
    if texts == [] {
      states := [State(false, map[], [], Waiting, [], Running)];
    } else {
      hide Run;
      var n := |texts| - 1;
      states := WritesOneByOne(texts[..n]);
      states := Extend(states, Write(n, texts[n]));
      states := Extend(states, Meet(n));
      states := Extend(states, Push);
      assert texts == texts[..n] + [texts[n]];
    }
  }

  /** Whatever is written, one run acknowledges all of it, pushes it in order and returns. */
  lemma DeliveryHappens(texts: seq<Text>) returns (states: seq<State>)
    ensures Run(states)
    ensures var s := states[|states| - 1];
      && s.main == Returned && s.pushed == texts
      && (forall id: nat :: id in s.calls <==> id < |texts|)
      && (forall id :: id in s.calls ==> s.calls[id].Accepted?)
  {
    hide Run;
    states := WritesOneByOne(texts);
    states := Extend(states, Close);
    states := Extend(states, Stop);
    states := Extend(states, Join);
  }
}
