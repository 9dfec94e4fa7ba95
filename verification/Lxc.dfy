/** One client of adapter/lxc as it makes its calls: launchContainer, Destroy and Shutdown of
    container.go and adapter.go, with the executor file they keep. */
module Lxc {
  import opened Executor
  import opened Options

  /** The state after a list of events, or None if one of them is not possible. */
  function After(s: State, events: seq<Event>): Option<State> {
    if events == [] then Some(s)
    else
      match After(s, events[..|events| - 1])
      case None => None
      case Some(t) =>
        var ev := events[|events| - 1];
        if Enabled(t, ev) then Some(Next(t, ev)) else None
  }

  lemma AfterSnoc(s: State, events: seq<Event>, ev: Event)
    requires After(s, events).Some? && Enabled(After(s, events).value, ev)
    ensures After(s, events + [ev]) == Some(Next(After(s, events).value, ev))
  {
    assert (events + [ev])[..|events|] == events;
  }

  /** What becomes of the steps of a launch; a failed creation may still define the container. */
  datatype LaunchOutcome = LaunchOutcome(clean: CleanOutcome, creates: bool, defines: bool, opens: bool,
                                         write: WriteOutcome, prepares: bool, starts: bool, ready: bool)

  datatype ShutdownOutcome = ShutdownOutcome(write: WriteOutcome, stops: bool, destroys: bool, removes: bool, unmounts: bool)

  /** The calls of one client, for the container `c` on the executor `e`, against the host. Nobody
      else acts meanwhile: `events` records the calls as events of the step relation, and the host is
      at every moment what these events make of it. */
  class Client {
    const e: Executor
    const c: Container
    var files: map<FileName, Container>
    var defined: set<Container>
    var running: set<Container>
    var hasLxc: bool            // Container.lxc is not nil
    ghost const start: State
    ghost var state: State
    ghost var events: seq<Event>

    ghost predicate Valid()
      reads this
    {
      && state.host == Host(files, defined, running)
      && After(start, events) == Some(state) && Inv(state)
      && running <= defined
    }

    ghost predicate In(p: Phase)
      reads this
    {
      e in state.runs && state.runs[e] == p
    }

    ghost predicate Gone()
      reads this
    {
      e !in state.runs
    }

    /** The container is named in a file. */
    predicate IsNamed()
      reads this
    {
      || (ForExecutor(e) in files && files[ForExecutor(e)] == c)
      || (ForContainer(c) in files && files[ForContainer(c)] == c)
    }

    /** A run begins on a host as the earlier runs left it. */
    constructor (s: State, e: Executor, c: Container)
      requires Inv(s) && Enabled(s, Begin(e, c)) && s.host.running <= s.host.defined
      ensures Valid() && this.e == e && this.c == c && start == s && events == [Begin(e, c)] && !hasLxc
      ensures In(Cleaning(c)) && Host(files, defined, running) == s.host
    {
      this.e, this.c, hasLxc := e, c, false;
      files, defined, running := s.host.files, s.host.defined, s.host.running;
      start, state, events := s, Next(s, Begin(e, c)), [Begin(e, c)];
      new;
      StepKeepsInv(s, Begin(e, c));
      AfterSnoc(s, [], Begin(e, c));
      assert [] + [Begin(e, c)] == [Begin(e, c)];
    }

    ghost method Do(ev: Event)
      requires After(start, events) == Some(state) && Inv(state) && Enabled(state, ev)
      modifies `state, `events
      ensures events == old(events) + [ev] && state == Next(old(state), ev)
      ensures After(start, events) == Some(state) && Inv(state)
    {
      AfterSnoc(start, events, ev);
      StepKeepsInv(state, ev);
      events, state := events + [ev], Next(state, ev);
    }

    /** Executor.Clean: a file that cannot be read is left alone; otherwise it goes first, and then
        the leftover container. */
    method Clean(o: CleanOutcome)
      requires Valid() && In(Cleaning(c))
      modifies `files, `defined, `running, `state, `events
      ensures Valid() && In(Creating(c)) && events == old(events) + [Event.Clean(e, o)]
      // without a leftover, or with one that cannot be read, nothing happens
      ensures old(ForExecutor(e) !in files) || !o.readable ==>
        files == old(files) && defined == old(defined) && running == old(running)
      ensures old(ForExecutor(e) in files) && o.readable ==>
        && files == (if o.removes then old(files) - {ForExecutor(e)} else old(files))
        && var leftover := old(files[ForExecutor(e)]);
          && running == (if o.opens && o.kills then old(running) - {leftover} else old(running))
          && defined == (if o.opens && o.destroys && leftover !in running then old(defined) - {leftover} else old(defined))
    {
      Do(Event.Clean(e, o));
      if ForExecutor(e) in files && o.readable {
        var leftover := files[ForExecutor(e)];
        if o.removes {
          files := files - {ForExecutor(e)};
        }
        if !o.opens {
          return;
        }
        if leftover in running {
          if !o.kills {
            return;
          }
          running := running - {leftover};
        }
        if o.destroys {
          defined := defined - {leftover};
        }
      }
    }

    /** Executor.Register. */
    method Register(name: FileName, o: WriteOutcome) returns (err: bool)
      modifies `files
      ensures err <==> o != Written
      ensures !err ==> files == old(files)[name := c]
      ensures err ==> files == old(files) || files == old(files) - {name}
      ensures files == Write(old(files), name, c, o)
    {
      if o == Written {
        files := files[name := c];
      } else if o == Truncated {
        files := files - {name};
      }
      err := o != Written;
    }

    /** Executor.Deregister, which only logs if the file cannot be removed. */
    method Deregister(removes: bool)
      modifies `files
      ensures files == if removes then old(files) - {ForExecutor(e)} else old(files)
    {
      if removes {
        files := files - {ForExecutor(e)};
      }
    }

    /** An error return in the middle of a run. */
    ghost method GiveUp()
      requires Valid() && e in state.runs
      modifies `state, `events
      ensures Valid() && Gone() && After(start, events).Some?
    {
      hide Inv, After;
      Do(Leave(e));
    }

    method CreateContainer()
      requires Valid() && In(Creating(c))
      modifies `defined, `state, `events
      ensures Valid() && In(Created(c)) && defined == old(defined) + {c}
    {
      hide Inv, After;
      Do(Create(e));
      defined := defined + {c};
    }

    method RegisterExecutor(o: WriteOutcome) returns (err: bool)
      requires Valid() && In(Created(c))
      modifies `files, `state, `events
      ensures Valid() && (err <==> o != Written) && (if err then Gone() else In(Phase.Registered(c)))
      ensures files == Write(old(files), ForExecutor(e), c, o)
    {
      hide Inv, After;
      Do(Event.Register(e, o));
      err := Register(ForExecutor(e), o);
    }

    method StartContainer()
      requires Valid() && In(Phase.Registered(c)) && c in defined
      modifies `running, `state, `events
      ensures Valid() && In(Started(c)) && running == old(running) + {c}
    {
      hide Inv, After;
      Do(Start(e));
      running := running + {c};
    }

    /** The container of a crashed run, if its file can be read and it can be opened. */
    function Leftover(before: map<FileName, Container>, o: CleanOutcome): set<Container> {
      if ForExecutor(e) in before && o.readable && o.opens then {before[ForExecutor(e)]} else {}
    }

    /** The files after the cleanup and, if the container was created and opened, its registration. */
    function LaunchFiles(before: map<FileName, Container>, o: LaunchOutcome): map<FileName, Container> {
      var cleaned := if o.clean.readable && o.clean.removes then before - {ForExecutor(e)} else before;
      if !o.creates || !o.opens then cleaned
      else
        match o.write
        case Written => cleaned[ForExecutor(e) := c]
        case Truncated => cleaned - {ForExecutor(e)}
        case Untouched => cleaned
    }

    /** The first half of launchContainer: clean up, create, open, and register. */
    method CreateAndRegister(o: LaunchOutcome) returns (err: bool)
      requires Valid() && In(Cleaning(c))
      modifies `files, `defined, `running, `hasLxc, `state, `events
      ensures Valid() && (if err then Gone() else In(Phase.Registered(c)) && hasLxc && c in defined)
      ensures err <==> !(o.creates && o.opens && o.write == Written)
      ensures files == LaunchFiles(old(files), o)
      ensures hasLxc == (old(hasLxc) || (o.creates && o.opens))
      ensures c !in running
      ensures running == if o.clean.kills then old(running - Leftover(files, o.clean)) else old(running)
      ensures defined == (if o.clean.destroys && Leftover(old(files), o.clean) !! running
                          then old(defined - Leftover(files, o.clean)) else old(defined))
                         + (if o.creates || o.defines then {c} else {})
    {
      hide Inv, After;
      PhaseSays(state, e);
      Clean(o.clean);
      assert ForExecutor(e) !in old(files) ==> old(files) - {ForExecutor(e)} == old(files);
      if !o.creates && !o.defines {
        GiveUp();
        return true;
      }
      CreateContainer();
      if !o.creates || !o.opens {
        GiveUp();
        return true;
      }
      hasLxc := true;
      err := RegisterExecutor(o.write);
    }

    /** launchContainer and what Launch adds to it: clean up, create, register, and only then start.
        Whatever fails on the way, a container that runs is named in the executor's file. */
    method Launch(o: LaunchOutcome) returns (err: bool)
      requires Valid() && In(Cleaning(c))
      modifies `files, `defined, `running, `hasLxc, `state, `events
      ensures Valid()
      ensures err <==> !(o.creates && o.opens && o.write == Written && o.prepares && o.starts && o.ready)
      ensures if err then Gone() else In(Started(c)) && hasLxc
      ensures c in running <==> o.creates && o.opens && o.write == Written && o.prepares && o.starts
      ensures c in running ==> ForExecutor(e) in files && files[ForExecutor(e)] == c
      ensures files == LaunchFiles(old(files), o)
      ensures hasLxc == (old(hasLxc) || (o.creates && o.opens))
      // no other container is started, and the leftover stops exactly if it could be killed
      ensures forall d :: d != c ==>
        (d in running <==> d in old(running) && !(o.clean.kills && d in old(Leftover(files, o.clean))))
      ensures defined == (if o.clean.destroys && (o.clean.kills || Leftover(old(files), o.clean) !! old(running))
                          then old(defined - Leftover(files, o.clean)) else old(defined))
                         + (if o.creates || o.defines then {c} else {})
    {
      hide Inv, After;
      err := CreateAndRegister(o);
      if err {
        return;
      }
      if !o.prepares || !o.starts {
        GiveUp();
        return true;
      }
      StartContainer();
      PhaseSays(state, e);
      if !o.ready {
        GiveUp();
        return true;
      }
    }

    /** Container.Stop, as Destroy uses it. */
    method StopContainer(stops: bool)
      requires Valid() && In(Started(c))
      modifies `running, `state, `events
      ensures Valid() && In(Stopped(c)) && running == if stops then old(running) - {c} else old(running)
    {
      hide Inv, After;
      Do(Stop(e, stops));
      if c in running && stops {
        running := running - {c};
      }
    }

    method DestroyContainer()
      requires Valid() && In(Stopped(c)) && c !in running
      modifies `defined, `state, `events
      ensures Valid() && In(Destroyed(c)) && defined == old(defined) - {c}
    {
      hide Inv, After;
      Do(Event.Destroy(e));
      defined := defined - {c};
    }

    method DeregisterDestroyed(removes: bool)
      requires Valid() && In(Destroyed(c))
      modifies `files, `state, `events
      ensures Valid() && Gone() && files == if removes then old(files) - {ForExecutor(e)} else old(files)
    {
      hide Inv, After;
      Do(Event.Deregister(e, removes));
      Deregister(removes);
    }

    /** Container.Destroy: stop politely, destroy, and only then give up the executor file. LXC does
        not destroy a running container. */
    method Destroy(stops: bool, destroys: bool, removes: bool) returns (err: bool)
      requires Valid() && (hasLxc ==> In(Started(c)))
      modifies `files, `defined, `running, `state, `events
      ensures Valid() && (old(hasLxc) ==> Gone())
      // a container that was never opened is left alone
      ensures !hasLxc ==> !err && files == old(files) && defined == old(defined) && running == old(running)
      ensures hasLxc ==>
        && running == (if stops then old(running) - {c} else old(running))
        && (err <==> c in old(defined) && (!destroys || c in running))
        && defined == (if err then old(defined) else old(defined) - {c})
        && files == (if err || !removes then old(files) else old(files) - {ForExecutor(e)})
    {
      hide Inv, After;
      if !hasLxc {
        return false;
      }
      StopContainer(stops);
      if c in defined {
        if !destroys || c in running {
          GiveUp();
          return true;
        }
      }
      DestroyContainer();
      DeregisterDestroyed(removes);
      return false;
    }

    /** The kept container gets a file of its own, and the executor's file goes. */
    function KeptFiles(before: map<FileName, Container>, o: WriteOutcome, removes: bool): map<FileName, Container> {
      var written := match o
        case Written => before[ForContainer(c) := c]
        case Truncated => before - {ForContainer(c)}
        case Untouched => before;
      if removes then written - {ForExecutor(e)} else written
    }

    method SetAside(o: WriteOutcome, removes: bool) returns (err: bool)
      requires Valid() && In(Started(c))
      modifies `files, `state, `events
      ensures Valid() && Gone() && (err <==> o != Written)
      ensures files == KeptFiles(old(files), o, removes)
      ensures !removes || o == Written ==> IsNamed()
    {
      PhaseSays(state, e);
      Do(RegisterKept(e, o));
      err := Register(ForContainer(c), o);
      Do(DeregisterKept(e, removes));
      Deregister(removes);
    }

    /** Adapter.Shutdown: the kept container is named in a file of its own before the executor's file
        is given up. Afterwards a container that still runs is named, unless it was to be kept and its
        own file could not be written. */
    method Shutdown(keep: bool, o: ShutdownOutcome) returns (err: bool)
      requires Valid() && hasLxc && In(Started(c))
      modifies `files, `defined, `running, `state, `events
      ensures Valid() && Gone()
      ensures keep ==> running == old(running) && defined == old(defined) && (err <==> o.write != Written)
      ensures keep ==> files == KeptFiles(old(files), o.write, o.removes)
      // otherwise the container is stopped and, unless that fails or LXC refuses, destroyed
      ensures !keep ==> running == if o.stops then old(running) - {c} else old(running)
      ensures !keep && c in old(defined) && (!o.destroys || c in running) ==>
        err && files == old(files) && defined == old(defined)
      ensures !keep && !(c in old(defined) && (!o.destroys || c in running)) ==>
        && defined == old(defined) - {c}
        && files == (if o.removes then old(files) - {ForExecutor(e)} else old(files))
        && (err <==> !o.unmounts)
      ensures !keep && o.stops && o.destroys ==> c !in running && c !in defined && (err <==> !o.unmounts)
      ensures c in running && !(keep && o.removes && o.write != Written) ==> IsNamed()
    {
      hide Inv, After;
      PhaseSays(state, e);
      if keep {
        err := SetAside(o.write, o.removes);
        return;
      }
      err := Destroy(o.stops, o.destroys, o.removes);
      if err {
        return;
      }
      // the input mount is removed last
      err := !o.unmounts;
    }
  }
}
