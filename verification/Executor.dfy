/** The registry of running containers: adapter/lxc/executor.go together with the order in which
    container.go and adapter.go register, start, stop, destroy and deregister a container, over runs
    on any number of executors with crashes between any two steps. */
module Executor {
  type Executor = nat
  type Container = nat

  /** Files in the executor directory are named after an executor or after a kept container. */
  datatype FileName = ForExecutor(e: Executor) | ForContainer(c: Container)

  /** The host: executor files with the container each names, and the containers LXC knows. */
  datatype Host = Host(files: map<FileName, Container>, defined: set<Container>, running: set<Container>)

  /** What becomes of the calls Executor.Clean makes into the file system and LXC: whether an existing
      file can be read and removed, and whether the leftover can be opened, killed and destroyed. */
  datatype CleanOutcome = CleanOutcome(readable: bool, removes: bool, opens: bool, kills: bool, destroys: bool)

  /** ioutil.WriteFile truncates before it writes. A file cut short names no container, which for
      Clean is as good as no file. */
  datatype WriteOutcome = Written | Untouched | Truncated

  function Write(files: map<FileName, Container>, name: FileName, c: Container, o: WriteOutcome): map<FileName, Container> {
    match o
    case Written => files[name := c]
    case Untouched => files
    case Truncated => files - {name}
  }

  function Remove(files: map<FileName, Container>, name: FileName, removes: bool): map<FileName, Container> {
    if removes then files - {name} else files
  }

  /** What Executor.Clean does to the host: the file goes first, then the leftover container. */
  function CleanEffect(h: Host, e: Executor, o: CleanOutcome): Host {
    if ForExecutor(e) !in h.files || !o.readable then h
    else
      var c := h.files[ForExecutor(e)];
      var h := h.(files := Remove(h.files, ForExecutor(e), o.removes));
      if !o.opens || (c in h.running && !o.kills) then h
      else if o.destroys then Host(h.files, h.defined - {c}, h.running - {c})
      else h.(running := h.running - {c})
  }

  // ---------- Runs on many executors, with crashes ----------

  /** Where the run of an executor stands; `c` is the container of the run. */
  datatype Phase =
    | Cleaning(c: Container)
    | Creating(c: Container)
    | Created(c: Container)
    | Registered(c: Container)
    | Started(c: Container)
    | Kept(c: Container)
    | Stopped(c: Container)
    | Destroyed(c: Container)

  datatype State = State(
    host: Host,
    runs: map<Executor, Phase>,       // at most one run per executor
    ranOn: map<Container, Executor>)  // the executor of every container name ever used

  predicate Init(s: State) {
    s == State(Host(map[], {}, {}), map[], map[])
  }

  /** Leave ends a run anywhere: a crash, or an error on which the client gives up. A call that
      fails half way is the call followed by Leave, and so is a crash inside Clean, of which then the
      later parts fail. Exit is a container that stops by itself. */
  datatype Event =
    | Begin(e: Executor, c: Container)
    | Clean(e: Executor, outcome: CleanOutcome)
    | Create(e: Executor)
    | Register(e: Executor, write: WriteOutcome)
    | Start(e: Executor)
    | RegisterKept(e: Executor, write: WriteOutcome)
    | DeregisterKept(e: Executor, removes: bool)
    | Stop(e: Executor, ok: bool)
    | Destroy(e: Executor)
    | Deregister(e: Executor, removes: bool)
    | Leave(e: Executor)
    | Exit(c: Container)

  predicate Enabled(s: State, ev: Event) {
    match ev
    case Begin(e, c) => e !in s.runs && c !in s.ranOn
    case Clean(e, _) => e in s.runs && s.runs[e].Cleaning?
    case Create(e) => e in s.runs && s.runs[e].Creating?
    case Register(e, _) => e in s.runs && s.runs[e].Created?
    case Start(e) => e in s.runs && s.runs[e].Registered?
    case RegisterKept(e, _) => e in s.runs && s.runs[e].Started?
    case DeregisterKept(e, _) => e in s.runs && s.runs[e].Kept?
    case Stop(e, _) => e in s.runs && s.runs[e].Started?
    case Destroy(e) => e in s.runs && s.runs[e].Stopped? && s.runs[e].c !in s.host.running
    case Deregister(e, _) => e in s.runs && s.runs[e].Destroyed?
    case Leave(e) => e in s.runs
    case Exit(c) => c in s.host.running
  }

  function Over(s: State, e: Executor): State {
    s.(runs := s.runs - {e})
  }

  function Enter(s: State, e: Executor, p: Phase): State {
    s.(runs := s.runs[e := p])
  }

  function Next(s: State, ev: Event): State
    requires Enabled(s, ev)
  {
    var h := s.host;
    match ev
    case Begin(e, c) => Enter(s, e, Cleaning(c)).(ranOn := s.ranOn[c := e])
    case Clean(e, o) => Enter(s, e, Creating(s.runs[e].c)).(host := CleanEffect(h, e, o))
    case Create(e) =>
      var c := s.runs[e].c;
      Enter(s, e, Created(c)).(host := h.(defined := h.defined + {c}))
    case Register(e, w) =>
      var c := s.runs[e].c;
      (if w == Written then Enter(s, e, Registered(c)) else Over(s, e)).(
        host := h.(files := Write(h.files, ForExecutor(e), c, w)))
    case Start(e) =>
      var c := s.runs[e].c;
      Enter(s, e, Started(c)).(host := h.(running := h.running + {c}))
    case RegisterKept(e, w) =>
      var c := s.runs[e].c;
      Enter(s, e, Kept(c)).(host := h.(files := Write(h.files, ForContainer(c), c, w)))
    case DeregisterKept(e, removes) => Over(s, e).(host := h.(files := Remove(h.files, ForExecutor(e), removes)))
    case Stop(e, ok) =>
      var c := s.runs[e].c;
      Enter(s, e, Stopped(c)).(host := if ok then h.(running := h.running - {c}) else h)
    case Destroy(e) =>
      var c := s.runs[e].c;
      Enter(s, e, Destroyed(c)).(host := h.(defined := h.defined - {c}))
    case Deregister(e, removes) => Over(s, e).(host := h.(files := Remove(h.files, ForExecutor(e), removes)))
    case Leave(e) => Over(s, e)
    case Exit(c) => s.(host := h.(running := h.running - {c}))
  }

  ghost predicate Run(states: seq<State>, events: seq<Event>) {
    && |states| == |events| + 1 && Init(states[0])
    && forall i :: 0 <= i < |events| ==> Enabled(states[i], events[i]) && states[i + 1] == Next(states[i], events[i])
  }

  // ---------- The registry ----------

  predicate NamedByExecutor(s: State, c: Container) {
    c in s.ranOn && ForExecutor(s.ranOn[c]) in s.host.files && s.host.files[ForExecutor(s.ranOn[c])] == c
  }

  predicate NamedByItself(s: State, c: Container) {
    ForContainer(c) in s.host.files && s.host.files[ForContainer(c)] == c
  }

  predicate Named(s: State, c: Container) {
    NamedByExecutor(s, c) || NamedByItself(s, c)
  }

  /** Every running container is named in its executor's file or in a file of its own. */
  ghost predicate Registry(s: State) {
    forall c :: c in s.host.running ==> Named(s, c)
  }

  /** What each phase may rely on. */
  predicate PhaseOk(s: State, e: Executor)
    requires e in s.runs
  {
    var p := s.runs[e];
    && p.c in s.ranOn && s.ranOn[p.c] == e
    && (p.Registered? || p.Started? || p.Kept? || p.Stopped? || p.Destroyed? ==>
          ForExecutor(e) in s.host.files && s.host.files[ForExecutor(e)] == p.c)
    && (p.Cleaning? || p.Creating? || p.Created? || p.Registered? || p.Destroyed? ==> p.c !in s.host.running)
  }

  predicate FileOk(s: State, e: Executor)
    requires ForExecutor(e) in s.host.files
  {
    var c := s.host.files[ForExecutor(e)];
    c in s.ranOn && s.ranOn[c] == e
  }

  ghost predicate Inv(s: State) {
    && (forall e :: e in s.runs ==> PhaseOk(s, e))
    && (forall e :: ForExecutor(e) in s.host.files ==> FileOk(s, e))
    && (forall c :: c in s.host.running ==> c in s.ranOn)
  }

  lemma PhaseSays(s: State, e: Executor)
    requires Inv(s) && e in s.runs
    ensures PhaseOk(s, e)
  {
  }

  lemma StepKeepsPhases(s: State, ev: Event)
    requires Inv(s) && Enabled(s, ev)
    ensures forall e :: e in Next(s, ev).runs ==> PhaseOk(Next(s, ev), e)
  {
    var s' := Next(s, ev);
    forall e | e in s'.runs ensures PhaseOk(s', e) {
      if e in s.runs {
        assert PhaseOk(s, e);
      }
    }
  }

  lemma StepKeepsFileNames(s: State, ev: Event)
    requires Inv(s) && Enabled(s, ev)
    ensures forall e :: ForExecutor(e) in Next(s, ev).host.files ==> FileOk(Next(s, ev), e)
  {
    var s' := Next(s, ev);
    forall e | ForExecutor(e) in s'.host.files ensures FileOk(s', e) {
      if ForExecutor(e) in s.host.files {
        assert FileOk(s, e);
      }
      if ev.Register? {
        assert PhaseOk(s, ev.e);
      }
    }
  }

  lemma StepKeepsInv(s: State, ev: Event)
    requires Inv(s) && Enabled(s, ev)
    ensures Inv(Next(s, ev))
  {
    StepKeepsPhases(s, ev);
    StepKeepsFileNames(s, ev);
    forall c | c in Next(s, ev).host.running ensures c in Next(s, ev).ranOn {
      if ev.Start? {
        assert PhaseOk(s, ev.e);
      }
    }
  }

  lemma {:induction false} RunKeepsInv(states: seq<State>, events: seq<Event>, i: nat)
    requires Run(states, events) && i < |states|
    ensures Inv(states[i])
  {
    if i > 0 {
      RunKeepsInv(states, events, i - 1);
      assert Enabled(states[i - 1], events[i - 1]) && states[i] == Next(states[i - 1], events[i - 1]);
      StepKeepsInv(states[i - 1], events[i - 1]);
    }
  }

  // ---------- When a running container drops out of the registry ----------

  /** A running container of which only the executor's file knows. */
  predicate Hinges(s: State, e: Executor) {
    && ForExecutor(e) in s.host.files
    && s.host.files[ForExecutor(e)] in s.host.running
    && !NamedByItself(s, s.host.files[ForExecutor(e)])
  }

  /** The three ways in which the executor's file stops naming such a container. */
  predicate LosesTrack(s: State, ev: Event) {
    match ev
    // Clean removes the file, and then cannot open or kill the container
    case Clean(e, o) => Hinges(s, e) && o.readable && o.removes && !(o.opens && o.kills)
    // Register overwrites a file that Clean could not read, could not act on or could not remove
    case Register(e, w) => Hinges(s, e) && w != Untouched
    // a container to be kept, whose own file could not be written, is deregistered
    case DeregisterKept(e, removes) => Hinges(s, e) && removes
    case _ => false
  }

  lemma StepLosesTrack(s: State, ev: Event)
    requires Inv(s) && Enabled(s, ev) && LosesTrack(s, ev)
    ensures !Registry(Next(s, ev))
  {
    var s', c := Next(s, ev), s.host.files[ForExecutor(ev.e)];
    assert FileOk(s, ev.e);
    if ev.Register? {
      assert PhaseOk(s, ev.e);
    }
    assert c in s'.host.running && !Named(s', c);
  }

  lemma StepKeepsTrack(s: State, ev: Event)
    requires Inv(s) && Registry(s) && Enabled(s, ev) && !LosesTrack(s, ev)
    ensures Registry(Next(s, ev))
  {
    var s' := Next(s, ev);
    forall c | c in s'.host.running ensures Named(s', c) {
      if c in s.host.running {
        assert Named(s, c);
      }
      if !ev.Exit? && !ev.Begin? {
        assert PhaseOk(s, ev.e);
      }
    }
  }

  lemma {:induction false} RegistryUpTo(states: seq<State>, events: seq<Event>, i: nat)
    requires Run(states, events) && i < |states|
    requires forall k :: 0 <= k < i ==> !LosesTrack(states[k], events[k])
    ensures Registry(states[i])
  {
    if i > 0 {
      RegistryUpTo(states, events, i - 1);
      RunKeepsInv(states, events, i - 1);
      assert Enabled(states[i - 1], events[i - 1]) && states[i] == Next(states[i - 1], events[i - 1]);
      StepKeepsTrack(states[i - 1], events[i - 1]);
    }
  }

  /** The exact condition for crash safety, over all runs on any number of executors with crashes
      between any two steps: the registry is complete at every moment if and only if the file of a
      running container is never removed by a Clean that does not kill it, overwritten by a new
      Register, or given up for a kept container without a file of its own. */
  lemma RegistryExactly(states: seq<State>, events: seq<Event>)
    requires Run(states, events)
    ensures (forall i :: 0 <= i < |states| ==> Registry(states[i]))
       <==> (forall i :: 0 <= i < |events| ==> !LosesTrack(states[i], events[i]))
  {
    if forall i :: 0 <= i < |states| ==> Registry(states[i]) {
      forall i | 0 <= i < |events| ensures !LosesTrack(states[i], events[i]) {
        RunKeepsInv(states, events, i);
        assert Registry(states[i + 1]);
        if LosesTrack(states[i], events[i]) {
          StepLosesTrack(states[i], events[i]);
        }
      }
    }
    if forall i :: 0 <= i < |events| ==> !LosesTrack(states[i], events[i]) {
      forall i | 0 <= i < |states| ensures Registry(states[i]) {
        RegistryUpTo(states, events, i);
      }
    }
  }

  // ---------- The three ways are real ----------

  lemma Extend(states: seq<State>, events: seq<Event>, ev: Event)
    returns (states': seq<State>, events': seq<Event>, s: State)
    requires Run(states, events) && Enabled(states[|events|], ev)
    ensures Run(states', events') && s == states'[|events'|] == Next(states[|events|], ev)
    ensures events' == events + [ev]
  {
    s := Next(states[|events|], ev);
    states', events' := states + [s], events + [ev];
    forall i | 0 <= i < |events'|
      ensures Enabled(states'[i], events'[i]) && states'[i + 1] == Next(states'[i], events'[i])
    {
      if i < |events| {
        assert states'[i] == states[i] && states'[i + 1] == states[i + 1];
      }
    }
  }

  /** A first run that starts its container. */
  lemma FirstContainer(e: Executor, c: Container) returns (states: seq<State>, events: seq<Event>, s: State)
    ensures Run(states, events) && s == states[|events|]
    ensures s == State(Host(map[ForExecutor(e) := c], {c}, {c}), map[e := Started(c)], map[c := e])
  {
    s := State(Host(map[], {}, {}), map[], map[]);
    states, events := [s], [];
    states, events, s := Extend(states, events, Begin(e, c));
    states, events, s := Extend(states, events, Clean(e, CleanOutcome(true, true, true, true, true)));
    states, events, s := Extend(states, events, Create(e));
    states, events, s := Extend(states, events, Register(e, Written));
    states, events, s := Extend(states, events, Start(e));
  }

  /** The run ends in a crash, and the next one on the same executor begins. */
  lemma NextRun(e: Executor, c: Container, d: Container) returns (states: seq<State>, events: seq<Event>, s: State)
    requires c != d
    ensures Run(states, events) && s == states[|events|]
    ensures s == State(Host(map[ForExecutor(e) := c], {c}, {c}), map[e := Cleaning(d)], map[c := e, d := e])
  {
    states, events, s := FirstContainer(e, c);
    states, events, s := Extend(states, events, Leave(e));
    states, events, s := Extend(states, events, Begin(e, d));
    assert s.runs == map[e := Cleaning(d)];
  }

  /** The leftover of a crashed run cannot be opened, after its file is gone. */
  lemma LostByClean(e: Executor, c: Container, d: Container) returns (states: seq<State>, events: seq<Event>, s: State)
    requires c != d
    ensures Run(states, events) && s == states[|events|] && c in s.host.running && !Named(s, c)
    ensures events[|events| - 1] == Clean(e, CleanOutcome(true, true, false, true, true))
  {
    states, events, s := NextRun(e, c, d);
    states, events, s := Extend(states, events, Clean(e, CleanOutcome(true, true, false, true, true)));
  }

  /** The file of a crashed run cannot be read, and is overwritten. */
  lemma LostByRegister(e: Executor, c: Container, d: Container) returns (states: seq<State>, events: seq<Event>, s: State)
    requires c != d
    ensures Run(states, events) && s == states[|events|] && c in s.host.running && !Named(s, c)
    ensures events[|events| - 1] == Register(e, Written)
  {
    states, events, s := NextRun(e, c, d);
    states, events, s := Extend(states, events, Clean(e, CleanOutcome(false, true, true, true, true)));
    states, events, s := Extend(states, events, Create(e));
    states, events, s := Extend(states, events, Register(e, Written));
  }

  /** A container is to be kept, its own file cannot be written, and the executor's file is given up. */
  lemma LostByKeeping(e: Executor, c: Container) returns (states: seq<State>, events: seq<Event>, s: State)
    ensures Run(states, events) && s == states[|events|] && c in s.host.running && !Named(s, c)
    ensures events[|events| - 1] == DeregisterKept(e, true)
  {
    states, events, s := FirstContainer(e, c);
    states, events, s := Extend(states, events, RegisterKept(e, Untouched));
    states, events, s := Extend(states, events, DeregisterKept(e, true));
  }

  // ---------- When the calls succeed ----------

  /** Executor files can be read, leftovers opened and killed, and kept containers registered.
      Removing a file may fail. */
  predicate CallsSucceed(ev: Event) {
    && (ev.Clean? ==> ev.outcome.readable && ev.outcome.opens && ev.outcome.kills)
    && (ev.RegisterKept? ==> ev.write == Written)
  }

  /** A kept container has a file of its own, and past Clean the executor's file names nothing that
      runs. */
  predicate Settled(s: State, e: Executor)
    requires e in s.runs
  {
    var p := s.runs[e];
    && (p.Kept? ==> NamedByItself(s, p.c))
    && (p.Creating? || p.Created? ==> !Hinges(s, e))
  }

  ghost predicate AllSettled(s: State) {
    forall e :: e in s.runs ==> Settled(s, e)
  }

  lemma StepKeepsSettled(s: State, ev: Event)
    requires Inv(s) && AllSettled(s) && Enabled(s, ev) && CallsSucceed(ev)
    ensures AllSettled(Next(s, ev))
  {
    var s' := Next(s, ev);
    forall e | e in s'.runs ensures Settled(s', e) {
      if e in s.runs {
        assert Settled(s, e) && PhaseOk(s, e);
      }
      if !ev.Exit? && !ev.Begin? {
        assert PhaseOk(s, ev.e);
      }
      if ForExecutor(e) in s.host.files {
        assert FileOk(s, e);
      }
    }
  }

  lemma {:induction false} SettledUpTo(states: seq<State>, events: seq<Event>, i: nat)
    requires Run(states, events) && i < |states|
    requires forall k :: 0 <= k < |events| ==> CallsSucceed(events[k])
    ensures AllSettled(states[i])
  {
    if i > 0 {
      SettledUpTo(states, events, i - 1);
      RunKeepsInv(states, events, i - 1);
      assert Enabled(states[i - 1], events[i - 1]) && states[i] == Next(states[i - 1], events[i - 1]);
      StepKeepsSettled(states[i - 1], events[i - 1]);
    }
  }

  lemma SettledKeepsTrack(s: State, ev: Event)
    requires Inv(s) && AllSettled(s) && Enabled(s, ev) && CallsSucceed(ev)
    ensures !LosesTrack(s, ev)
  {
    if ev.Register? || ev.DeregisterKept? {
      assert Settled(s, ev.e) && PhaseOk(s, ev.e);
    }
  }

  lemma RegistryWhenCallsSucceed(states: seq<State>, events: seq<Event>, i: nat)
    requires Run(states, events) && i < |states|
    requires forall k :: 0 <= k < |events| ==> CallsSucceed(events[k])
    ensures Registry(states[i])
  {
    forall k | 0 <= k < i ensures !LosesTrack(states[k], events[k]) {
      SettledUpTo(states, events, k);
      RunKeepsInv(states, events, k);
      assert CallsSucceed(events[k]) && Enabled(states[k], events[k]);
      SettledKeepsTrack(states[k], events[k]);
    }
    RegistryUpTo(states, events, i);
  }

  /** A container that runs on behalf of an executor and was not set aside under its own name. */
  predicate Hanging(s: State, e: Executor, c: Container) {
    c in s.host.running && c in s.ranOn && s.ranOn[c] == e && !NamedByItself(s, c)
  }

  /** What executors are for: if the calls succeed, whatever crashed before, an executor has at most
      one running container that is not kept, and none from the moment Clean is through until its
      own container is started. */
  lemma OneContainerPerExecutor(states: seq<State>, events: seq<Event>, i: nat, e: Executor, c: Container, d: Container)
    requires Run(states, events) && i < |states|
    requires forall k :: 0 <= k < |events| ==> CallsSucceed(events[k])
    requires Hanging(states[i], e, c)
    ensures Hanging(states[i], e, d) ==> c == d
    ensures e in states[i].runs ==>
      var p := states[i].runs[e]; !p.Creating? && !p.Created? && !p.Registered? && !p.Destroyed?
  {
    var s := states[i];
    RegistryWhenCallsSucceed(states, events, i);
    RunKeepsInv(states, events, i);
    SettledUpTo(states, events, i);
    assert Named(s, c);
    assert d in s.host.running ==> Named(s, d);
    if e in s.runs {
      assert PhaseOk(s, e) && Settled(s, e);
    }
  }
}
