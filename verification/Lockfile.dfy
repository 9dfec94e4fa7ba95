/** common/lockfile/lockfile.go: a lock shared by processes through one path of the file system.
    First every interleaving of any number of processes, with crashes; then TryLock as one process
    runs it. */
module Lockfile {
  import opened Options

  type Pid = nat
  type Inode = nat

  /** What a lock file contains: a pid, or nothing that parses as one. */
  datatype Content = Owner(pid: Pid) | Junk

  /** Where a process is in TryLock. `mine` is the inode of its temporary file; `judged` is the inode
      whose content it has read. */
  datatype Proc =
    | Idle
    | Linking(mine: Inode)
    | Comparing(mine: Inode)
    | Inspecting(mine: Inode)
    | Probing(mine: Inode, judged: Inode, seen: Content)
    | Removing(mine: Inode, judged: Inode)
    | Holding(mine: Inode)

  datatype State = State(
    path: Option<Inode>,
    files: map<Inode, Content>,
    procs: map<Pid, Proc>,   // the live processes
    dead: set<Pid>)

  /** Nobody runs yet; a lock file may be left over from a dead process, or be junk. */
  predicate Init(s: State) {
    && s.procs == map[]
    && (s.path.Some? ==> s.path.value in s.files)
    && (forall i :: i in s.files && s.files[i].Owner? ==> s.files[i].pid in s.dead)
  }

  /** GiveUp is an error return from anywhere in TryLock. */
  datatype Event =
    | Spawn(p: Pid)
    | Create(p: Pid, mine: Inode)
    | Link(p: Pid, works: bool)
    | Compare(p: Pid)
    | ReadOwner(p: Pid)
    | Probe(p: Pid)
    | Remove(p: Pid)
    | GiveUp(p: Pid)
    | Unlock(p: Pid)
    | Crash(p: Pid)

  predicate Enabled(s: State, e: Event) {
    match e
    case Spawn(p) => p !in s.procs && p !in s.dead
    case Create(p, mine) => p in s.procs && s.procs[p] == Idle && mine !in s.files
    case Link(p, _) => p in s.procs && s.procs[p].Linking?
    case Compare(p) => p in s.procs && s.procs[p].Comparing?
    case ReadOwner(p) => p in s.procs && s.procs[p].Inspecting?
    case Probe(p) => p in s.procs && s.procs[p].Probing?
    case Remove(p) => p in s.procs && s.procs[p].Removing?
    case GiveUp(p) => p in s.procs && !s.procs[p].Holding?
    case Unlock(p) => p in s.procs && s.procs[p].Holding?
    case Crash(p) => p in s.procs
  }

  function Next(s: State, e: Event): State
    requires Enabled(s, e)
  {
    match e
    case Spawn(p) => s.(procs := s.procs[p := Idle])
    case Create(p, mine) =>
      s.(files := s.files[mine := Owner(p)], procs := s.procs[p := Linking(mine)])
    case Link(p, works) =>
      var mine := s.procs[p].mine;
      s.(path := if works && s.path.None? then Some(mine) else s.path, procs := s.procs[p := Comparing(mine)])
    case Compare(p) =>
      var mine := s.procs[p].mine;
      s.(procs := s.procs[p := if s.path.None? then Idle else if s.path.value == mine then Holding(mine) else Inspecting(mine)])
    case ReadOwner(p) =>
      var mine := s.procs[p].mine;
      s.(procs := s.procs[p :=
        if s.path.None? || s.path.value !in s.files then Idle else Probing(mine, s.path.value, s.files[s.path.value])])
    case Probe(p) =>
      var Probing(mine, judged, seen) := s.procs[p];
      s.(procs := s.procs[p := if seen.Owner? && seen.pid in s.procs then Idle else Removing(mine, judged)])
    case Remove(p) => s.(path := None, procs := s.procs[p := Idle])
    case GiveUp(p) => s.(procs := s.procs[p := Idle])
    case Unlock(p) => s.(path := None, procs := s.procs[p := Idle])
    case Crash(p) => s.(procs := s.procs - {p}, dead := s.dead + {p})
  }

  /** A stretch of steps, with the event of every step. */
  ghost predicate Path(states: seq<State>, events: seq<Event>) {
    && |states| == |events| + 1
    && forall i :: 0 <= i < |events| ==> Enabled(states[i], events[i]) && states[i + 1] == Next(states[i], events[i])
  }

  ghost predicate Run(states: seq<State>, events: seq<Event>) {
    Path(states, events) && Init(states[0])
  }

  lemma Extend(states: seq<State>, events: seq<Event>, e: Event)
    returns (states': seq<State>, events': seq<Event>, s: State)
    requires Path(states, events) && Enabled(states[|events|], e)
    ensures Path(states', events') && states'[0] == states[0]
    ensures s == states'[|events'|] == Next(states[|events|], e) && events' == events + [e]
  {
    s := Next(states[|events|], e);
    states', events' := states + [s], events + [e];
    forall i | 0 <= i < |events'|
      ensures Enabled(states'[i], events'[i]) && states'[i + 1] == Next(states'[i], events'[i])
    {
      if i < |events| {
        assert states'[i] == states[i] && states'[i + 1] == states[i + 1];
      }
    }
  }

  // ---------- What every state keeps ----------

  predicate Holds(s: State, p: Pid) {
    p in s.procs && s.procs[p].Holding?
  }

  /** No live process owns the file. */
  predicate Stale(s: State, i: Inode) {
    i in s.files && (s.files[i].Owner? ==> s.files[i].pid !in s.procs)
  }

  predicate ProcInv(s: State, p: Pid)
    requires p in s.procs
  {
    var c := s.procs[p];
    && (c != Idle ==> c.mine in s.files && s.files[c.mine] == Owner(p))
    && (c.Probing? ==> c.judged in s.files && s.files[c.judged] == c.seen)
    && (c.Removing? ==> Stale(s, c.judged))
  }

  /** Inodes in use are files that name their process, hence two processes never share one; and what a
      process is about to remove was stale and, pids not being reused, still is. */
  ghost predicate Inv(s: State) {
    && (forall p :: p in s.procs ==> ProcInv(s, p))
    && (s.path.Some? ==> s.path.value in s.files)
    && (forall i :: i in s.files && s.files[i].Owner? ==> s.files[i].pid in s.procs || s.files[i].pid in s.dead)
    && s.procs.Keys !! s.dead
  }

  lemma PathIsFile(s: State)
    requires Inv(s)
    ensures s.path.Some? ==> s.path.value in s.files
  {
  }

  lemma StepKeepsProcs(s: State, e: Event, p: Pid)
    requires Inv(s) && Enabled(s, e) && p in Next(s, e).procs
    ensures ProcInv(Next(s, e), p)
  {
    if p in s.procs {
      assert ProcInv(s, p);
    }
  }

  lemma StepKeepsInv(s: State, e: Event)
    requires Inv(s) && Enabled(s, e)
    ensures Inv(Next(s, e))
  {
    var s' := Next(s, e);
    forall p | p in s'.procs ensures ProcInv(s', p) {
      StepKeepsProcs(s, e, p);
    }
    if e.Link? {
      assert ProcInv(s, e.p);
    }
  }

  lemma {:induction false} PathKeepsInv(states: seq<State>, events: seq<Event>, i: nat)
    requires Path(states, events) && i < |states| && Inv(states[0])
    ensures Inv(states[i])
  {
    if i > 0 {
      PathKeepsInv(states, events, i - 1);
      assert Enabled(states[i - 1], events[i - 1]) && states[i] == Next(states[i - 1], events[i - 1]);
      StepKeepsInv(states[i - 1], events[i - 1]);
    }
  }

  // ---------- Mutual exclusion ----------

  /** Every process that holds the lock has its own inode at the lock path. */
  ghost predicate Exclusive(s: State) {
    forall p :: Holds(s, p) ==> s.path == Some(s.procs[p].mine)
  }

  ghost predicate TwoHolders(s: State) {
    exists p, q :: p != q && Holds(s, p) && Holds(s, q)
  }

  lemma AtMostOneHolder(s: State, p: Pid, q: Pid)
    requires Inv(s) && Exclusive(s) && Holds(s, p) && Holds(s, q)
    ensures p == q
  {
    assert ProcInv(s, p) && ProcInv(s, q);
  }

  /** The step is a cleanup while a process holds the lock. */
  ghost predicate HitsHolder(s: State, e: Event) {
    e.Remove? && exists q :: Holds(s, q)
  }

  lemma StepKeepsExclusive(s: State, e: Event)
    requires Inv(s) && Exclusive(s) && Enabled(s, e) && !HitsHolder(s, e)
    ensures Exclusive(Next(s, e))
  {
    var s' := Next(s, e);
    forall p | Holds(s', p) ensures s'.path == Some(s'.procs[p].mine) {
      if Holds(s, p) {
        assert s.path == Some(s.procs[p].mine);
        if e.Unlock? {
          AtMostOneHolder(s, p, e.p);
        }
      }
    }
  }

  lemma {:induction false} PathKeepsExclusive(states: seq<State>, events: seq<Event>, i: nat)
    requires Path(states, events) && i < |states| && Inv(states[0]) && Exclusive(states[0])
    requires forall k :: 0 <= k < i ==> !HitsHolder(states[k], events[k])
    ensures Exclusive(states[i])
  {
    if i > 0 {
      PathKeepsExclusive(states, events, i - 1);
      PathKeepsInv(states, events, i - 1);
      assert Enabled(states[i - 1], events[i - 1]) && states[i] == Next(states[i - 1], events[i - 1]);
      StepKeepsExclusive(states[i - 1], events[i - 1]);
    }
  }

  lemma InitIsFine(s: State)
    requires Init(s)
    ensures Inv(s) && Exclusive(s)
  {
  }

  lemma OneHolder(states: seq<State>, events: seq<Event>, i: nat, p: Pid, q: Pid)
    requires Run(states, events) && i < |states|
    requires forall k :: 0 <= k < i ==> !HitsHolder(states[k], events[k])
    requires Holds(states[i], p) && Holds(states[i], q)
    ensures p == q && states[i].path == Some(states[i].procs[p].mine)
  {
    InitIsFine(states[0]);
    PathKeepsInv(states, events, i);
    PathKeepsExclusive(states, events, i);
    AtMostOneHolder(states[i], p, q);
  }

  // ---------- Removing only what was judged ----------

  /** A cleanup finds the file it has judged, or none. */
  predicate Current(s: State, e: Event) {
    e.Remove? && e.p in s.procs && s.procs[e.p].Removing? && s.path.Some? ==> s.path.value == s.procs[e.p].judged
  }

  lemma CurrentMisses(s: State, e: Event)
    requires Inv(s) && Exclusive(s) && Enabled(s, e) && Current(s, e)
    ensures !HitsHolder(s, e)
  {
    if e.Remove? {
      assert ProcInv(s, e.p);
      forall q | q in s.procs ensures !s.procs[q].Holding? {
        assert ProcInv(s, q);
      }
    }
  }

  lemma {:induction false} CurrentUpTo(states: seq<State>, events: seq<Event>, i: nat)
    requires Run(states, events) && i <= |events|
    requires forall k :: 0 <= k < |events| ==> Current(states[k], events[k])
    ensures forall k :: 0 <= k < i ==> !HitsHolder(states[k], events[k])
  {
    if i > 0 {
      CurrentUpTo(states, events, i - 1);
      InitIsFine(states[0]);
      PathKeepsInv(states, events, i - 1);
      PathKeepsExclusive(states, events, i - 1);
      assert Enabled(states[i - 1], events[i - 1]) && Current(states[i - 1], events[i - 1]);
      CurrentMisses(states[i - 1], events[i - 1]);
    }
  }

  /** Mutual exclusion in every run, with crashes and from any leftover file, in which each cleanup
      finds at the lock path the very file whose owner it has judged: there is at most one holder, and
      the path is its inode. */
  lemma ExclusionWhenCleanupIsCurrent(states: seq<State>, events: seq<Event>, i: nat, p: Pid, q: Pid)
    requires Run(states, events) && i < |states|
    requires forall k :: 0 <= k < |events| ==> Current(states[k], events[k])
    requires Holds(states[i], p) && Holds(states[i], q)
    ensures p == q && states[i].path == Some(states[i].procs[p].mine)
  {
    CurrentUpTo(states, events, i);
    OneHolder(states, events, i, p, q);
  }

  // ---------- The owner check and the removal as one step ----------

  predicate Cleaning(s: State, p: Pid) {
    p in s.procs && (s.procs[p].Probing? || s.procs[p].Removing?)
  }

  /** While a process is between reading the owner and removing the file, nobody else moves. */
  ghost predicate AtomicCleanup(s: State, e: Event) {
    forall p :: Cleaning(s, p) ==> e == Probe(p) || e == Remove(p)
  }

  /** What a cleaning process has judged is what is there. */
  ghost predicate FreshView(s: State) {
    forall p :: Cleaning(s, p) ==> s.path == Some(s.procs[p].judged)
  }

  lemma StepKeepsFreshView(s: State, e: Event)
    requires FreshView(s) && Enabled(s, e) && AtomicCleanup(s, e)
    ensures FreshView(Next(s, e))
  {
    var s' := Next(s, e);
    forall p | Cleaning(s', p) ensures s'.path == Some(s'.procs[p].judged) {
      if Cleaning(s, p) {
        assert e == Probe(p) || e == Remove(p);
        assert s.path == Some(s.procs[p].judged);
      } else {
        assert e == ReadOwner(p);
      }
    }
  }

  lemma {:induction false} FreshViewUpTo(states: seq<State>, events: seq<Event>, i: nat)
    requires Run(states, events) && i < |states|
    requires forall k :: 0 <= k < |events| ==> AtomicCleanup(states[k], events[k])
    ensures FreshView(states[i])
  {
    if i > 0 {
      FreshViewUpTo(states, events, i - 1);
      assert Enabled(states[i - 1], events[i - 1]) && states[i] == Next(states[i - 1], events[i - 1]);
      StepKeepsFreshView(states[i - 1], events[i - 1]);
    }
  }

  lemma FreshIsCurrent(s: State, e: Event)
    requires FreshView(s) && Enabled(s, e)
    ensures Current(s, e)
  {
    if e.Remove? {
      assert Cleaning(s, e.p);
    }
  }

  /** With crashes, and no pid reused: if the check and the removal are one step, a live holder is
      never displaced. */
  lemma ExclusionWithAtomicCleanup(states: seq<State>, events: seq<Event>, i: nat, p: Pid, q: Pid)
    requires Run(states, events) && i < |states|
    requires forall k :: 0 <= k < |events| ==> AtomicCleanup(states[k], events[k])
    requires Holds(states[i], p) && Holds(states[i], q)
    ensures p == q && states[i].path == Some(states[i].procs[p].mine)
  {
    forall k | 0 <= k < |events| ensures Current(states[k], events[k]) {
      FreshViewUpTo(states, events, k);
      FreshIsCurrent(states[k], events[k]);
    }
    ExclusionWhenCleanupIsCurrent(states, events, i, p, q);
  }

  // ---------- No process dies ----------

  /** No file without a live owner is in sight, so nobody gets to remove one. */
  ghost predicate NothingStale(s: State) {
    && (s.path.Some? ==> !Stale(s, s.path.value))
    && (forall p :: p in s.procs ==> !s.procs[p].Removing?)
    && (forall p :: p in s.procs && s.procs[p].Probing? ==> s.procs[p].seen.Owner? && s.procs[p].seen.pid in s.procs)
  }

  lemma StepKeepsNothingStale(s: State, e: Event)
    requires Inv(s) && NothingStale(s) && Enabled(s, e) && !e.Crash?
    ensures NothingStale(Next(s, e))
  {
    if e.Link? {
      assert ProcInv(s, e.p);
    }
  }

  lemma {:induction false} NothingStaleUpTo(states: seq<State>, events: seq<Event>, i: nat)
    requires Run(states, events) && i < |states| && states[0].path == None
    requires forall k :: 0 <= k < |events| ==> !events[k].Crash?
    ensures NothingStale(states[i])
  {
    if i > 0 {
      NothingStaleUpTo(states, events, i - 1);
      InitIsFine(states[0]);
      PathKeepsInv(states, events, i - 1);
      assert Enabled(states[i - 1], events[i - 1]) && states[i] == Next(states[i - 1], events[i - 1]);
      StepKeepsNothingStale(states[i - 1], events[i - 1]);
    }
  }

  /** Mutual exclusion for the code as it is, in every run in which no process dies and which begins
      with no lock file. */
  lemma ExclusionWithoutCrashes(states: seq<State>, events: seq<Event>, i: nat, p: Pid, q: Pid)
    requires Run(states, events) && i < |states|
    requires states[0].path == None
    requires forall k :: 0 <= k < |events| ==> !events[k].Crash?
    requires Holds(states[i], p) && Holds(states[i], q)
    ensures p == q && states[i].path == Some(states[i].procs[p].mine)
  {
    forall k | 0 <= k < |events| ensures Current(states[k], events[k]) {
      NothingStaleUpTo(states, events, k);
      assert Enabled(states[k], events[k]);
    }
    ExclusionWhenCleanupIsCurrent(states, events, i, p, q);
  }

  // ---------- The two steps of the source ----------

  lemma Takes(states: seq<State>, events: seq<Event>, p: Pid, mine: Inode)
    returns (states': seq<State>, events': seq<Event>, s: State)
    requires Path(states, events)
    requires var s0 := states[|events|]; p in s0.procs && s0.procs[p] == Idle && mine !in s0.files && s0.path.None?
    ensures Path(states', events') && s == states'[|events'|] && states'[0] == states[0]
    ensures events' == events + [Create(p, mine)] + [Link(p, true)] + [Compare(p)]
    ensures var s0 := states[|events|];
      s == s0.(path := Some(mine), files := s0.files[mine := Owner(p)], procs := s0.procs[p := Holding(mine)])
  {
    states', events', s := Extend(states, events, Create(p, mine));
    states', events', s := Extend(states', events', Link(p, true));
    states', events', s := Extend(states', events', Compare(p));
  }

  lemma JudgesStale(states: seq<State>, events: seq<Event>, p: Pid, mine: Inode)
    returns (states': seq<State>, events': seq<Event>, s: State)
    requires Path(states, events)
    requires var s0 := states[|events|];
      && p in s0.procs && s0.procs[p] == Idle && mine !in s0.files && s0.path.Some? && s0.path.value in s0.files
      && s0.files[s0.path.value].Owner? && s0.files[s0.path.value].pid !in s0.procs
    ensures Path(states', events') && s == states'[|events'|] && states'[0] == states[0]
    ensures var s0 := states[|events|];
      s == s0.(files := s0.files[mine := Owner(p)], procs := s0.procs[p := Removing(mine, s0.path.value)])
  {
    states', events', s := Extend(states, events, Create(p, mine));
    states', events', s := Extend(states', events', Link(p, true));
    states', events', s := Extend(states', events', Compare(p));
    states', events', s := Extend(states', events', ReadOwner(p));
    states', events', s := Extend(states', events', Probe(p));
  }

  /** Two processes judge the file of a dead one stale, one cleans it up and takes the lock, and the
      other's cleanup removes the new lock. */
  lemma RaceFromLeftover(states0: seq<State>, events0: seq<Event>)
    returns (states: seq<State>, events: seq<Event>, s: State)
    requires Path(states0, events0)
    requires var s0 := states0[|events0|];
      && s0.procs == map[] && s0.dead == {9} && s0.files == map[0 := Owner(9)] && s0.path == Some(0)
    ensures Path(states, events) && states[0] == states0[0] && s == states[|events|]
    ensures Holds(s, 1) && Holds(s, 2) && s.dead == {9}
  {
    states, events, s := Extend(states0, events0, Spawn(1));
    states, events, s := Extend(states, events, Spawn(2));
    states, events, s := JudgesStale(states, events, 1, 11);
    states, events, s := JudgesStale(states, events, 2, 12);
    states, events, s := Extend(states, events, Remove(2));
    states, events, s := Takes(states, events, 2, 22);
    states, events, s := Extend(states, events, Remove(1));
    states, events, s := Takes(states, events, 1, 21);
  }

  /** In the source the check and the removal are two steps, and the file of a dead process can then
      put two processes in possession, although none dies. */
  lemma SplitCleanupRaces() returns (states: seq<State>, events: seq<Event>, s: State)
    ensures Run(states, events) && s == states[|events|]
    ensures states[0].dead == s.dead
    ensures Holds(s, 1) && Holds(s, 2)
  {
    s := State(Some(0), map[0 := Owner(9)], map[], {9});
    states, events, s := RaceFromLeftover([s], []);
  }

  /** The same from a directory without a lock file: the first holder crashes. */
  lemma CrashRaces() returns (states: seq<State>, events: seq<Event>, s: State)
    ensures Run(states, events) && s == states[|events|]
    ensures states[0].path == None && states[0].dead == {} && s.dead == {9}
    ensures Holds(s, 1) && Holds(s, 2)
  {
    s := State(None, map[], map[], {});
    states, events := [s], [];
    states, events, s := Extend(states, events, Spawn(9));
    states, events, s := Takes(states, events, 9, 0);
    states, events, s := Extend(states, events, Crash(9));
    assert s.procs == map[];
    states, events, s := RaceFromLeftover(states, events);
  }

  // ---------- When a cleanup does harm ----------

  predicate NoCleanup(events: seq<Event>) {
    forall k :: 0 <= k < |events| ==> !events[k].Remove?
  }

  /** From `s`, two processes can come to hold the lock at the same time, with no further cleanup. */
  ghost predicate RaceReachable(s: State) {
    exists states, events ::
      Path(states, events) && states[0] == s && NoCleanup(events) && TwoHolders(states[|events|])
  }

  lemma {:induction false} FreshInode(used: set<Inode>) returns (i: Inode)
    ensures forall j :: j in used ==> j < i
    decreases used
  {
    if used == {} {
      i := 0;
    } else {
      var k :| k in used;
      var rest := FreshInode(used - {k});
      i := if k < rest then rest else k + 1;
      forall j | j in used ensures j < i {
        assert j == k || j in used - {k};
      }
    }
  }

  /** After its cleanup the process itself takes the lock, which another one still holds. */
  lemma HitMakesRace(s: State, e: Event)
    requires Enabled(s, e) && HitsHolder(s, e)
    ensures RaceReachable(Next(s, e))
  {
    var q :| Holds(s, q);
    var t := Next(s, e);
    var mine := FreshInode(t.files.Keys);
    var states, events, u := Takes([t], [], e.p, mine);
    assert e.p != q && Holds(u, e.p) && Holds(u, q);
    assert NoCleanup(events);
  }

  lemma NoRaceFrom(s: State)
    requires Inv(s) && Exclusive(s)
    ensures !RaceReachable(s)
  {
    if RaceReachable(s) {
      var states, events :|
        Path(states, events) && states[0] == s && NoCleanup(events) && TwoHolders(states[|events|]);
      PathKeepsInv(states, events, |events|);
      PathKeepsExclusive(states, events, |events|);
      var p, q :| p != q && Holds(states[|events|], p) && Holds(states[|events|], q);
      AtMostOneHolder(states[|events|], p, q);
    }
  }

  lemma {:induction false} NoRaceNoHit(states: seq<State>, events: seq<Event>, i: nat)
    requires Run(states, events) && i <= |events|
    requires forall k :: 0 <= k < |states| ==> !RaceReachable(states[k])
    ensures forall k :: 0 <= k < i ==> !HitsHolder(states[k], events[k])
  {
    if i > 0 {
      NoRaceNoHit(states, events, i - 1);
      assert Enabled(states[i - 1], events[i - 1]) && states[i] == Next(states[i - 1], events[i - 1]);
      if HitsHolder(states[i - 1], events[i - 1]) {
        HitMakesRace(states[i - 1], events[i - 1]);
      }
    }
  }

  /** The exact condition, over all runs with any number of processes and crashes: from no state of a
      run can two processes come to hold the lock without a further cleanup, if and only if no cleanup
      in the run happens while a process holds the lock. */
  lemma ExclusiveExactly(states: seq<State>, events: seq<Event>)
    requires Run(states, events)
    ensures (forall i :: 0 <= i < |states| ==> !RaceReachable(states[i]))
       <==> (forall i :: 0 <= i < |events| ==> !HitsHolder(states[i], events[i]))
  {
    if forall i :: 0 <= i < |states| ==> !RaceReachable(states[i]) {
      NoRaceNoHit(states, events, |events|);
    }
    if forall i :: 0 <= i < |events| ==> !HitsHolder(states[i], events[i]) {
      forall i | 0 <= i < |states| ensures !RaceReachable(states[i]) {
        InitIsFine(states[0]);
        PathKeepsInv(states, events, i);
        PathKeepsExclusive(states, events, i);
        NoRaceFrom(states[i]);
      }
    }
  }

  // ---------- One process ----------

  /** The state after a list of events, or None if one of them is not possible. */
  function After(s: State, events: seq<Event>): Option<State> {
    if events == [] then Some(s)
    else
      match After(s, events[..|events| - 1])
      case None => None
      case Some(t) =>
        var e := events[|events| - 1];
        if Enabled(t, e) then Some(Next(t, e)) else None
  }

  lemma AfterSnoc(s: State, events: seq<Event>, e: Event)
    requires After(s, events).Some? && Enabled(After(s, events).value, e)
    ensures After(s, events + [e]) == Some(Next(After(s, events).value, e))
  {
    assert (events + [e])[..|events|] == events;
  }

  datatype LockError = Ok | ErrBusy | ErrDeadOwner | ErrInvalidPid | ErrNotExist | ErrIo

  /** Which calls of one attempt fail: creating or writing the temporary file, linking, comparing,
      reading the lock file, removing it. */
  datatype Faults = Faults(temp: bool, link: bool, stat: bool, read: bool, remove: bool)

  /** The directory of the lock file as one process sees it: the inode at the lock path, and the
      contents of all inodes. Nobody else acts meanwhile: `events` records the calls as events of the
      step relation, and the directory is at every moment what these events make of it. */
  class LockDir {
    var path: Option<Inode>
    var files: map<Inode, Content>
    const alive: set<Pid>
    const me: Pid
    ghost const start: State
    ghost var state: State
    ghost var events: seq<Event>

    ghost predicate Valid()
      reads this
    {
      && After(start, events) == Some(state) && Inv(state)
      && state.path == path && state.files == files && state.procs.Keys == alive && me in alive
    }

    ghost predicate In(p: Proc)
      reads this
    {
      me in state.procs && state.procs[me] == p
    }

    constructor (s: State, me: Pid)
      requires Inv(s) && me in s.procs
      ensures Valid() && this.me == me && start == s == state && events == []
    {
      path, files, alive, this.me := s.path, s.files, s.procs.Keys, me;
      start, state, events := s, s, [];
    }

    ghost method Do(e: Event)
      requires After(start, events) == Some(state) && Inv(state) && Enabled(state, e)
      modifies `state, `events
      ensures events == old(events) + [e] && state == Next(old(state), e)
      ensures After(start, events) == Some(state) && Inv(state)
    {
      AfterSnoc(start, events, e);
      StepKeepsInv(state, e);
      events, state := events + [e], Next(state, e);
    }

    method GetOwner(fault: bool) returns (err: LockError)
      requires Valid()
      ensures err == Ok <==> !fault && path.Some? && files[path.value].Owner? && files[path.value].pid in alive
      ensures err == ErrDeadOwner <==> !fault && path.Some? && files[path.value].Owner? && files[path.value].pid !in alive
      ensures err == ErrInvalidPid <==> !fault && path.Some? && files[path.value] == Junk
      ensures err == ErrNotExist <==> !fault && path.None?
      ensures err == ErrIo <==> fault
    {
      if fault {
        return ErrIo;
      }
      if path.None? {
        return ErrNotExist;
      }
      match files[path.value] {
        case Junk => err := ErrInvalidPid;
        case Owner(q) => err := if q in alive then Ok else ErrDeadOwner;
      }
    }

    /** An error return. */
    ghost method GiveUp()
      requires Valid() && !state.procs[me].Holding?
      modifies `state, `events
      ensures Valid() && In(Idle) && events == old(events) + [Event.GiveUp(me)]
    {
      hide Inv, After;
      Do(Event.GiveUp(me));
    }

    /** The temporary file with the own pid, and the attempt to link it to the lock path. */
    method WriteAndLink(mine: Inode, fault: bool)
      requires Valid() && In(Idle) && mine !in files
      modifies `path, `files, `state, `events
      ensures Valid() && In(Comparing(mine)) && files == old(files)[mine := Owner(me)]
      ensures path == if old(path).None? && !fault then Some(mine) else old(path)
    {
      hide Inv, After;
      Do(Create(me, mine));
      files := files[mine := Owner(me)];
      Do(Link(me, !fault));
      if path.None? && !fault {
        path := Some(mine);
      }
    }

    /** Whether the lock path is the own file. */
    method CompareFiles(mine: Inode) returns (err: LockError)
      requires Valid() && In(Comparing(mine))
      modifies `state, `events
      ensures Valid() && err in {Ok, ErrBusy, ErrNotExist}
      ensures err == Ok <==> path == Some(mine)
      ensures err == ErrNotExist <==> path == None
      ensures In(match err case Ok => Holding(mine) case ErrNotExist => Idle case _ => Inspecting(mine))
    {
      hide Inv, After;
      Do(Compare(me));
      err := if path.None? then ErrNotExist else if path.value == mine then Ok else ErrBusy;
    }

    /** GetOwner as TryLock uses it is one reading and one probing of the owner: a live owner and an
        error end the attempt, and a stale file is to be removed. */
    method Inspect(mine: Inode, fault: bool) returns (err: LockError)
      requires Valid() && In(Inspecting(mine)) && path.Some?
      modifies `state, `events
      ensures Valid()
      ensures err == Ok <==> !fault && !Stale(state, path.value)
      ensures err in {ErrDeadOwner, ErrInvalidPid} <==> !fault && Stale(state, path.value)
      ensures err == ErrIo <==> fault
      ensures events == old(events) + if fault then [Event.GiveUp(me)] else [ReadOwner(me)] + [Probe(me)]
      ensures In(if !fault && Stale(state, path.value) then Removing(mine, path.value) else Idle)
    {
      hide Inv, After;
      err := GetOwner(fault);
      if fault {
        GiveUp();
      } else {
        Do(ReadOwner(me));
        Do(Probe(me));
        assert old(events) + [ReadOwner(me)] + [Probe(me)] == old(events) + ([ReadOwner(me)] + [Probe(me)]);
      }
    }

    method RemoveStale(mine: Inode, judged: Inode)
      requires Valid() && In(Removing(mine, judged))
      modifies `path, `state, `events
      ensures Valid() && In(Idle) && path == None
    {
      hide Inv, After;
      Do(Remove(me));
      path := None;
    }

    /** The lock path names a file with the pid of a live process. */
    predicate Held()
      reads this
    {
      path.Some? && path.value in files && files[path.value].Owner? && files[path.value].pid in alive
    }

    /** A lock file without a live owner is stale. */
    lemma HeldOrStale()
      requires Valid() && path.Some?
      ensures path.value in files && (Stale(state, path.value) <==> !Held())
    {
    }

    /** One attempt, up to the removal of a stale file. */
    method Attempt(mine: Inode, f: Faults) returns (err: LockError)
      requires Valid() && In(Idle) && mine !in files
      modifies `path, `files, `state, `events
      ensures Valid() && err in {Ok, ErrBusy, ErrDeadOwner, ErrInvalidPid, ErrNotExist, ErrIo}
      ensures files == if f.temp then old(files) else old(files)[mine := Owner(me)]
      ensures path == if old(path).None? && !f.temp && !f.link then Some(mine) else old(path)
      ensures err == Ok ==> In(Holding(mine))
      ensures err in {ErrBusy, ErrNotExist, ErrIo} ==> In(Idle)
      ensures err in {ErrDeadOwner, ErrInvalidPid} ==> old(path).Some? && In(Removing(mine, old(path).value))
      ensures err == Ok <==> old(path).None? && !f.temp && !f.stat && !f.link
      ensures err == ErrNotExist <==> old(path).None? && !f.temp && !f.stat && f.link
      ensures err == ErrBusy <==> old(Held()) && !f.temp && !f.stat && !f.read
      ensures err in {ErrDeadOwner, ErrInvalidPid} <==> old(path.Some? && !Held()) && !f.temp && !f.stat && !f.read
    {
      hide Inv, After;
      PathIsFile(state);
      if f.temp {
        return ErrIo;
      }
      if path.Some? {
        HeldOrStale();
      }
      WriteAndLink(mine, f.link);
      if f.stat {
        GiveUp();
        return ErrIo;
      }
      err := CompareFiles(mine);
      if err != ErrBusy {
        return;
      }
      HeldOrStale();
      err := Inspect(mine, f.read);
      if err == Ok {
        err := ErrBusy;
      }
    }

    /** TryLock. `fresh0` and what follows it name temporary files; `faults` lists the faults of the
        attempts, one after the other. */
    method TryLock(fresh0: nat, faults: nat -> Faults, attempt: nat) returns (err: LockError, mine: Inode)
      requires Valid() && In(Idle) && forall i :: i in files ==> i < fresh0
      modifies `path, `files, `state, `events
      ensures Valid() && In(if err == Ok then Holding(mine) else Idle)
      ensures err in {Ok, ErrBusy, ErrNotExist, ErrIo}
      ensures forall i :: i in old(files) ==> i in files && files[i] == old(files)[i]
      ensures err == Ok ==> path == Some(mine) && mine !in old(files)
      // a live owner keeps its lock, and only a live owner makes the lock busy
      ensures old(Held()) ==> path == old(path)
      ensures err == ErrBusy <==> old(Held()) && !faults(attempt).temp && !faults(attempt).stat && !faults(attempt).read
      // a free lock is taken, and so is a stale or junk one once its file is gone
      ensures var f, g := faults(attempt), faults(attempt + 1);
        var cleans := old(path.Some? && !Held()) && !f.temp && !f.stat && !f.read && !f.remove;
        && (err == Ok <==>
              (old(path).None? && !f.temp && !f.stat && !f.link) || (cleans && !g.temp && !g.stat && !g.link))
        && (err == ErrNotExist <==>
              (old(path).None? && !f.temp && !f.stat && f.link) || (cleans && !g.temp && !g.stat && g.link))
        && path == if old(path).None? then if f.temp || f.link then None else Some(mine)
                   else if !cleans then old(path)
                   else if g.temp || g.link then None else Some(mine)
      decreases path.Some?
    {
      hide Inv, After;
      mine := fresh0;
      err := Attempt(mine, faults(attempt));
      if err != ErrDeadOwner && err != ErrInvalidPid {
        return;
      }
      // clean the stale lock file and try again
      if faults(attempt).remove {
        GiveUp();
        return ErrIo, mine;
      }
      RemoveStale(mine, path.value);
      err, mine := TryLock(fresh0 + 1, faults, attempt + 1);
    }

    /** Unlock by the process that holds the lock. */
    method Unlock(mine: Inode) returns (err: LockError)
      requires Valid() && In(Holding(mine))
      modifies `path, `state, `events
      ensures Valid() && In(Idle) && path == None && (err == Ok <==> old(path).Some?)
    {
      hide Inv, After;
      err := if path.None? then ErrNotExist else Ok;
      Do(Event.Unlock(me));
      path := None;
    }
  }
}
