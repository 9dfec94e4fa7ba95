/** client/reporter/defaultreporter.go: payloads go through a bounded channel to one goroutine that
    posts each of them, with retries; Shutdown closes the channel and waits for the drain. */
module Reporter {
  import opened Options

  // ---------- SendPayload ----------

  /** What ends the attempts; None is an I/O error. */
  predicate Success(response: Option<int>) {
    response.Some? && response.value / 100 == 2
  }

  /** `server(i)` answers the i-th post. `posts` counts the posts made. */
  method SendPayload(server: nat -> Option<int>, numPublishRetries: int) returns (err: bool, posts: nat)
    ensures numPublishRetries >= 1 ==> 1 <= posts <= numPublishRetries
    ensures numPublishRetries < 1 ==> posts == 0 && !err
    // the first status from 200 to 299 ends the attempts, and nothing else does before the last retry
    ensures forall i :: 0 <= i < posts - 1 ==> server(i).None? || server(i).value < 200 || server(i).value > 299
    ensures posts > 0 ==> (err <==> server(posts - 1).None? || !(200 <= server(posts - 1).value <= 299))
    ensures err ==> posts == numPublishRetries
  {
    posts := 0;
    var tryCnt := 1;
    while tryCnt <= numPublishRetries
      invariant posts == tryCnt - 1
      invariant if numPublishRetries >= 1 then tryCnt <= numPublishRetries else tryCnt == 1
      invariant forall i :: 0 <= i < posts ==> !Success(server(i))
    {
      var resp := server(posts);
      posts := posts + 1;
      if Success(resp) {
        break;
      }
      if tryCnt == numPublishRetries {
        return true, posts;
      }
      tryCnt := tryCnt + 1;
    }
    return false, posts;
  }

  // ---------- The queue ----------

  /** One send on PublishChannel: still blocked, or accepted. */
  datatype Send = Blocked | Accepted

  /** transportSend: receiving, inside SendPayload, offering the shutdown signal, or gone. */
  datatype Sender = Receiving | Sending(id: nat) | Signalling | Gone

  datatype Shutdown = NotCalled | AwaitingSignal | Returned

  datatype State = State(
    queue: seq<nat>,
    closed: bool,
    sends: map<nat, Send>,
    accepted: seq<nat>,    // the sends the channel took, in order
    attempted: seq<nat>,   // the payloads whose SendPayload has returned, in order
    sender: Sender,
    shutdown: Shutdown,
    panicked: bool)

  predicate Init(s: State) {
    s == State([], false, map[], [], [], Receiving, NotCalled, false)
  }

  datatype Event =
    | BeginSend(id: nat)
    | Enqueue(id: nat)
    | Handoff(id: nat)
    | Receive
    | FinishPayload
    | RangeEnds
    | CloseChannel
    | Signal

  predicate IsBlocked(sends: map<nat, Send>, id: nat) {
    id in sends && sends[id] == Blocked
  }

  predicate Enabled(cap: nat, s: State, e: Event) {
    match e
    case BeginSend(id) => id !in s.sends
    case Enqueue(id) => IsBlocked(s.sends, id) && !s.closed && |s.queue| < cap
    case Handoff(id) => IsBlocked(s.sends, id) && !s.closed && s.queue == [] && s.sender == Receiving
    case Receive => s.sender == Receiving && s.queue != []
    case FinishPayload => s.sender.Sending?
    case RangeEnds => s.sender == Receiving && s.queue == [] && s.closed
    case CloseChannel => s.shutdown == NotCalled
    case Signal => s.sender == Signalling && s.shutdown == AwaitingSignal
  }

  ghost predicate SomeoneBlocked(sends: map<nat, Send>) {
    exists id :: IsBlocked(sends, id)
  }

  /** A send on a closed channel panics, and so does a send that is blocked when it is closed. */
  ghost function Next(cap: nat, s: State, e: Event): State
    requires Enabled(cap, s, e)
  {
    match e
    case BeginSend(id) => s.(sends := s.sends[id := Blocked], panicked := s.panicked || s.closed)
    case Enqueue(id) => s.(sends := s.sends[id := Accepted], queue := s.queue + [id], accepted := s.accepted + [id])
    case Handoff(id) => s.(sends := s.sends[id := Accepted], sender := Sending(id), accepted := s.accepted + [id])
    case Receive => s.(queue := s.queue[1..], sender := Sending(s.queue[0]))
    case FinishPayload => s.(attempted := s.attempted + [s.sender.id], sender := Receiving)
    case RangeEnds => s.(sender := Signalling)
    case CloseChannel => s.(closed := true, shutdown := AwaitingSignal, panicked := s.panicked || SomeoneBlocked(s.sends))
    case Signal => s.(sender := Gone, shutdown := Returned)
  }

  ghost predicate Step(cap: nat, s: State, s': State) {
    exists e :: Enabled(cap, s, e) && s' == Next(cap, s, e)
  }

  ghost predicate Run(cap: nat, states: seq<State>) {
    && states != [] && Init(states[0])
    && forall i :: 0 <= i < |states| - 1 ==> Step(cap, states[i], states[i + 1])
  }

  function InFlight(s: State): seq<nat> {
    if s.sender.Sending? then [s.sender.id] else []
  }

  ghost predicate Inv(cap: nat, s: State) {
    // first in, first out, nothing lost and nothing repeated
    && s.accepted == s.attempted + InFlight(s) + s.queue
    && (forall i, j :: 0 <= i < j < |s.accepted| ==> s.accepted[i] != s.accepted[j])
    && (forall id :: id in s.accepted <==> id in s.sends && s.sends[id] == Accepted)
    && |s.queue| <= cap
    && (s.closed <==> s.shutdown != NotCalled)
    && (s.sender == Signalling || s.sender == Gone ==> s.closed && s.queue == [])
    && (s.sender == Gone <==> s.shutdown == Returned)
    && (s.closed && !s.panicked ==> !SomeoneBlocked(s.sends))
  }

  lemma AcceptKeepsInv(cap: nat, s: State, e: Event)
    requires Inv(cap, s) && Enabled(cap, s, e) && (e.Enqueue? || e.Handoff?)
    ensures Inv(cap, Next(cap, s, e))
  {
    var s' := Next(cap, s, e);
    assert e.id !in s.accepted;
    assert s'.accepted == s'.attempted + InFlight(s') + s'.queue;
    forall id ensures id in s'.accepted <==> id in s'.sends && s'.sends[id] == Accepted {
      assert id in s'.accepted <==> id in s.accepted || id == e.id;
    }
  }

  lemma StepKeepsInv(cap: nat, s: State, e: Event)
    requires Inv(cap, s) && Enabled(cap, s, e)
    ensures Inv(cap, Next(cap, s, e))
  {
    var s' := Next(cap, s, e);
    if e.Enqueue? || e.Handoff? {
      AcceptKeepsInv(cap, s, e);
    } else if e.Receive? {
      assert s.queue == [s.queue[0]] + s'.queue;
    } else if e.BeginSend? {
      assert IsBlocked(s'.sends, e.id);
      assert forall id :: id in s.accepted ==> id != e.id;
    }
  }

  lemma StepFromInv(cap: nat, s: State, s': State)
    requires Inv(cap, s) && Step(cap, s, s')
    ensures Inv(cap, s')
  {
    hide Inv, Enabled, Next;
    var e :| Enabled(cap, s, e) && s' == Next(cap, s, e);
    StepKeepsInv(cap, s, e);
  }

  lemma {:induction false} RunKeepsInv(cap: nat, states: seq<State>, i: nat)
    requires Run(cap, states) && i < |states|
    ensures Inv(cap, states[i])
  {
    hide Step;
    if i > 0 {
      RunKeepsInv(cap, states, i - 1);
      StepFromInv(cap, states[i - 1], states[i]);
    }
  }

  /** Payloads are attempted in the order the channel took them, none lost and none repeated, and
      the backlog never exceeds its capacity. */
  lemma AttemptedInOrder(cap: nat, states: seq<State>, i: nat)
    requires Run(cap, states) && i < |states|
    ensures states[i].attempted <= states[i].accepted
    ensures |states[i].accepted| <= |states[i].attempted| + 1 + cap
    ensures forall j, k :: 0 <= j < k < |states[i].attempted| ==> states[i].attempted[j] != states[i].attempted[k]
  {
    RunKeepsInv(cap, states, i);
    var s := states[i];
    assert s.accepted == s.attempted + (InFlight(s) + s.queue);
    forall j | 0 <= j < |s.attempted| ensures s.attempted[j] == s.accepted[j] {}
  }

  /** When Shutdown returns every payload ever sent has been attempted, provided no send was blocked
      at the close or begun after it (such a send panics in Go). */
  lemma ShutdownFlushes(cap: nat, states: seq<State>, i: nat)
    requires Run(cap, states) && i < |states|
    requires states[i].shutdown == Returned
    ensures states[i].attempted == states[i].accepted
    ensures !states[i].panicked ==> forall id :: id in states[i].sends <==> id in states[i].attempted
  {
    RunKeepsInv(cap, states, i);
    var s := states[i];
    assert s.attempted + [] + [] == s.attempted;
    if !s.panicked {
      forall id | id in s.sends ensures s.sends[id] == Accepted {
        assert !IsBlocked(s.sends, id);
      }
    }
  }

  // ---------- Shutdown comes to an end ----------

  function Work(s: State): nat {
    2 * |s.queue|
    + (match s.sender case Receiving => 2 case Sending(_) => 3 case Signalling => 1 case Gone => 0)
  }

  /** After the close every step but a new send makes progress, and the system rests only when
      Shutdown has returned: it takes at most Work(s) steps. */
  lemma ShutdownEnds(cap: nat, s: State, e: Event)
    requires Inv(cap, s) && s.closed
    ensures Enabled(cap, s, e) && !e.BeginSend? ==> Next(cap, s, e).closed && Work(Next(cap, s, e)) < Work(s)
    ensures (forall e' :: Enabled(cap, s, e') ==> e'.BeginSend?) ==> s.shutdown == Returned
  {
    if forall e' :: Enabled(cap, s, e') ==> e'.BeginSend? {
      assert !Enabled(cap, s, Receive) && !Enabled(cap, s, FinishPayload);
      assert !Enabled(cap, s, RangeEnds) && !Enabled(cap, s, Signal);
    }
  }

  lemma ProducerSteps(cap: nat, s: State, id: nat)
    requires Inv(cap, s) && !s.closed && IsBlocked(s.sends, id)
    ensures Enabled(cap, s, Enqueue(id)) || Enabled(cap, s, Handoff(id))
         || Enabled(cap, s, Receive) || Enabled(cap, s, FinishPayload)
  {
  }

  /** A blocked producer waits only for the sender: it can go on while there is room in the queue, and
      a full queue and a busy sender leave the sender a step of its own that makes room. */
  lemma ProducersProceed(cap: nat, states: seq<State>, i: nat, id: nat)
    requires Run(cap, states) && i < |states| && !states[i].closed && IsBlocked(states[i].sends, id)
    ensures var s := states[i];
      && (|s.queue| < cap ==>
            Enabled(cap, s, Enqueue(id)) && Next(cap, s, Enqueue(id)).queue == s.queue + [id])
      && (|s.queue| >= cap > 0 && s.sender == Receiving ==>
            Enabled(cap, s, Receive) && Enabled(cap, Next(cap, s, Receive), Enqueue(id)))
      && (|s.queue| >= cap && s.sender != Receiving ==>
            Enabled(cap, s, FinishPayload) && Next(cap, s, FinishPayload).sender == Receiving)
      && (cap == 0 && s.sender == Receiving ==> Enabled(cap, s, Handoff(id)))
  {
    RunKeepsInv(cap, states, i);
  }
}
