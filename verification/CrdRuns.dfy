/** What holds over every run of a CrdWatcher: ownership of its leaves, joining, the restart
    barrier, the stop latch, and agreement of its map with a fold of the watch events.
 */
module CrdRuns {
  import opened Common
  import opened Children
  import opened CrdState
  import opened CrdProtocol

  function Run(m: Machine, ls: seq<Label>): Option<Machine>
    decreases |ls|
  {
    if ls == [] then Some(m)
    else if Enabled(m, ls[0]) then Run(Step(m, ls[0]), ls[1..])
    else None
  }

  lemma {:induction false} RunConcat(m: Machine, a: seq<Label>, b: seq<Label>)
    ensures Run(m, a + b) == match Run(m, a) { case None => None case Some(m') => Run(m', b) }
    decreases |a|
  {
    if a == [] {
      assert a + b == b;
    } else {
      assert (a + b)[1..] == a[1..] + b;
      if Enabled(m, a[0]) { RunConcat(Step(m, a[0]), a[1..], b); }
    }
  }

  lemma {:induction false} RunKeepsInv(m: Machine, ls: seq<Label>)
    requires Inv(m) && Run(m, ls).Some?
    ensures Inv(Run(m, ls).value)
    decreases |ls|
  {
    if ls != [] {
      StepKeepsInv(m, ls[0]);
      RunKeepsInv(Step(m, ls[0]), ls[1..]);
    }
  }

  /** Leaf i is the value of exactly one key. */
  ghost predicate HeldOnce(s: Crd, i: nat) {
    exists n :: n in s.watchers && s.watchers[n].child == i
      && forall n' :: n' in s.watchers && s.watchers[n'].child == i ==> n' == n
  }

  /** No orphan: a leaf the map does not hold was stopped or reaped, and it can only be running
      if that happened before its own setRunning(true); a leaf marked later makes at most one
      more disruption. */
  lemma NoUnstoppedOrphan(ls: seq<Label>, i: nat)
    requires Run(FRESH, ls).Some?
    requires i < |Run(FRESH, ls).value.crd.pool|
    ensures var s := Run(FRESH, ls).value.crd;
            && (HeldOnce(s, i) <==> s.pool[i].mark.Kept?)
            && (s.pool[i].running ==> HeldOnce(s, i) || s.pool[i].mark.StoppedEarly? || s.pool[i].mark.ReapedEarly?)
            && (s.pool[i].mark.StoppedLate? || s.pool[i].mark.ReapedLate? ==> s.pool[i].late <= 1)
  {
    RunKeepsInv(FRESH, ls);
    var s := Run(FRESH, ls).value.crd;
    assert ChildLinked(s, i);
    if s.pool[i].mark.Kept? {
      var n := s.pool[i].owner;
      forall n' | n' in s.watchers && s.watchers[n'].child == i ensures n' == n { assert EntryLinked(s, n'); }
      assert HeldOnce(s, i);
    }
    if HeldOnce(s, i) {
      var n :| n in s.watchers && s.watchers[n].child == i;
      assert EntryLinked(s, n);
    }
  }

  /** The two exceptions are real: a leaf removed while its goroutine has not begun, by a
      DELETED event or by cleanUp, can begin afterwards and then runs outside the map. */
  lemma EarlyDeletionEscapes(m: Machine, cfg: Configuration)
    requires Inv(m) && m.pc.Select? && m.crd.Owns(cfg.deployment)
    requires m.crd.pool[m.crd.watchers[cfg.deployment].child].phase.Spawned?
    ensures var i := m.crd.watchers[cfg.deployment].child;
            Escaped(Run(m, [Deleted(cfg), Leaf(i, Begin)]), cfg.deployment, i, StoppedEarly)
  {
    var i := m.crd.watchers[cfg.deployment].child;
    assert EntryLinked(m.crd, cfg.deployment) && ChildLinked(m.crd, i);
    RunSingle(m, Deleted(cfg), [Leaf(i, Begin)]);
    RunSingle(Step(m, Deleted(cfg)), Leaf(i, Begin), []);
  }

  lemma EarlyReapingEscapes(m: Machine, name: string)
    requires Inv(m) && m.pc.Select? && m.crd.Owns(name)
    requires m.crd.pool[m.crd.watchers[name].child].phase.Spawned?
    ensures var i := m.crd.watchers[name].child;
            Escaped(Run(m, [CleanUpTick, Reap(name), Leaf(i, Begin)]), name, i, ReapedEarly)
  {
    var i := m.crd.watchers[name].child;
    assert EntryLinked(m.crd, name) && ChildLinked(m.crd, i);
    RunSingle(m, CleanUpTick, [Reap(name), Leaf(i, Begin)]);
    var m1 := Step(m, CleanUpTick);
    RunSingle(m1, Reap(name), [Leaf(i, Begin)]);
    RunSingle(Step(m1, Reap(name)), Leaf(i, Begin), []);
    assert [CleanUpTick] + [Reap(name), Leaf(i, Begin)] == [CleanUpTick, Reap(name), Leaf(i, Begin)];
  }

  predicate Escaped(o: Option<Machine>, name: string, i: nat, mark: Mark) {
    && o.Some? && name !in o.value.crd.watchers
    && i < |o.value.crd.pool| && o.value.crd.pool[i].running && o.value.crd.pool[i].mark == mark
  }

  /** Every accepted ADDED event puts the machine into such a state. */
  lemma LaunchedLeafIsSpawned(m: Machine, cfg: Configuration, dep: Target)
    requires Inv(m) && m.pc.Select? && m.crd.running && AddWatcher(m.crd, cfg, dep).1
    ensures var o := Run(m, [Added(cfg, Some(dep)), StartChild, CheckRunning]);
            && o.Some? && o.value.pc.Select? && o.value.crd.Owns(dep.name)
            && o.value.crd.pool[o.value.crd.watchers[dep.name].child].phase.Spawned?
  {
    RunSingle(m, Added(cfg, Some(dep)), [StartChild, CheckRunning]);
    var m1 := Step(m, Added(cfg, Some(dep)));
    RunSingle(m1, StartChild, [CheckRunning]);
    RunSingle(Step(m1, StartChild), CheckRunning, []);
    assert [Added(cfg, Some(dep))] + [StartChild, CheckRunning] == [Added(cfg, Some(dep)), StartChild, CheckRunning];
  }

  lemma RunSingle(m: Machine, l: Label, rest: seq<Label>)
    requires Enabled(m, l)
    ensures Run(m, [l] + rest) == Run(Step(m, l), rest)
  {
    assert ([l] + rest)[1..] == rest;
  }

  ghost predicate AllFinished(s: Crd) {
    forall i :: 0 <= i < |s.pool| ==> s.pool[i].phase.Finished?
  }

  /** With the wait group at zero and no leaf in the gap before its launch, every goroutine is
      over and every gauge is zero. */
  lemma EmptyWaitGroup(m: Machine)
    requires Inv(m) && m.crd.wg == 0 && !m.pc.Starting?
    ensures AllFinished(m.crd)
    ensures forall k: Kind :: m.crd.active.Of(k) == 0
  {
    var s := m.crd;
    forall i | 0 <= i < |s.pool| ensures s.pool[i].phase.Finished? {
      if s.pool[i].Unfinished() { CountPositive(s.pool, i, Pending); }
    }
    forall k: Kind ensures s.active.Of(k) == 0 { CountNone(s.pool, Live(k)); }
  }

  lemma {:induction false} CountNone(pool: seq<Child>, q: Census)
    requires forall i :: 0 <= i < |pool| ==> !Counts(pool[i], q)
    ensures Count(pool, q) == 0
  {
    if pool != [] { CountNone(pool[..|pool| - 1], q); }
  }

  /** Between events, per kind: leaves spawned = leaves active + leaves whose Dec has run; and the
      wait group counts the goroutines that have not run Done. */
  lemma CountersAreConserved(ls: seq<Label>, k: Kind)
    requires Run(FRESH, ls).Some? && !Run(FRESH, ls).value.pc.Starting?
    ensures var s := Run(FRESH, ls).value.crd;
            && s.spawned.Of(k) == s.active.Of(k) + Count(s.pool, Gone(k))
            && s.wg == Count(s.pool, Pending)
  {
    RunKeepsInv(FRESH, ls);
    var s := Run(FRESH, ls).value.crd;
    BornSplits(s.pool, k);
    CountNone(s.pool, Unlaunched(k));
  }

  /** Start returns from its final wait only when every leaf it ever launched is over. */
  lemma ReturnJoinsLeaves(ls: seq<Label>)
    requires Run(FRESH, ls).Some? && Run(FRESH, ls).value.pc.Returned?
    ensures Run(FRESH, ls).value.crd.watchers == map[]
    ensures AllFinished(Run(FRESH, ls).value.crd)
  {
    RunKeepsInv(FRESH, ls);
    EmptyWaitGroup(Run(FRESH, ls).value);
  }

  /** An event that handleEvent cannot recover from is different: Start returns with its map
      intact, and nothing will ever stop or forget a leaf of that map. */
  lemma {:induction false} AbortAbandonsLeaves(m: Machine, ls: seq<Label>)
    requires m.pc.Aborted? && Run(m, ls).Some?
    ensures Run(m, ls).value.pc.Aborted?
    ensures Run(m, ls).value.crd.watchers == m.crd.watchers
    ensures |Run(m, ls).value.crd.pool| == |m.crd.pool|
    ensures forall i :: 0 <= i < |m.crd.pool| ==> Run(m, ls).value.crd.pool[i].mark == m.crd.pool[i].mark
    decreases |ls|
  {
    if ls != [] { AbortAbandonsLeaves(Step(m, ls[0]), ls[1..]); }
  }

  /** Finished leaves take no further step, in any continuation. */
  lemma {:induction false} FinishedStayFinished(m: Machine, ls: seq<Label>, n: nat)
    requires Run(m, ls).Some? && Inv(m) && n <= |m.crd.pool|
    requires forall i :: 0 <= i < n ==> m.crd.pool[i].phase.Finished?
    ensures forall l | l in ls && l.Leaf? :: l.i >= n
    ensures n <= |Run(m, ls).value.crd.pool|
    ensures forall i :: 0 <= i < n ==> Run(m, ls).value.crd.pool[i].phase.Finished?
    decreases |ls|
  {
    if ls != [] {
      StepKeepsInv(m, ls[0]);
      var m' := Step(m, ls[0]);
      StepSparesFinished(m, ls[0]);
      FinishedStayFinished(m', ls[1..], n);
    }
  }

  /** Every leaf of s that is over still is in t. */
  ghost predicate SparesFinished(s: Crd, t: Crd) {
    && |s.pool| <= |t.pool|
    && forall i :: 0 <= i < |s.pool| && s.pool[i].phase.Finished? ==> t.pool[i].phase.Finished?
  }

  lemma ChangeSparesFinished(s: Crd, t: Crd, i: nat, c: Child)
    requires i < |s.pool| && t.pool == s.pool[i := c] && (s.pool[i].phase.Finished? ==> c.phase.Finished?)
    ensures SparesFinished(s, t)
  {
  }

  lemma ModifySparesFinished(s: Crd, cfg: Configuration, get: Option<Target>)
    requires cfg.deployment in s.watchers ==> s.Owns(cfg.deployment)
    ensures SparesFinished(s, ModifyWatcher(s, cfg, get).0)
  {
  }

  lemma DeleteSparesFinished(s: Crd, cfg: Configuration)
    requires cfg.deployment in s.watchers ==> s.Owns(cfg.deployment)
    ensures SparesFinished(s, DeleteWatcher(s, cfg).0)
  {
    if cfg.deployment in s.watchers {
      var i := s.watchers[cfg.deployment].child;
      ChangeSparesFinished(s, StopEntry(s, cfg.deployment), i, StopChild(s.pool[i]));
    }
  }

  lemma LeafSparesFinished(s: Crd, i: nat, move: Move)
    requires i < |s.pool| && CanMove(s.pool[i], move)
    ensures SparesFinished(s, MoveIn(s, i, move))
  {
    ChangeSparesFinished(s, MoveIn(s, i, move), i, MoveChild(s.pool[i], move));
  }

  lemma StepSparesFinished(m: Machine, l: Label)
    requires Placed(m) && Enabled(m, l)
    ensures SparesFinished(m.crd, Step(m, l).crd)
  {
    var s := m.crd;
    match l
    case Modified(cfg, get) => ModifySparesFinished(s, cfg, get);
    case Added(_, _) =>
    case Deleted(cfg) => DeleteSparesFinished(s, cfg);
    case SetNext =>
      var i := s.watchers[m.pc.cfg.deployment].child;
      var call := Reconfiguration(m.pc.cfg)[m.pc.k];
      ChangeSparesFinished(s, TuneEntry(s, m.pc.cfg.deployment, call), i, CallChild(s.pool[i], call));
    case StartChild =>
      var i := s.watchers[m.pc.name].child;
      ChangeSparesFinished(s, Launch(s, m.pc.name), i, LaunchChild(s.pool[i]));
    case StopNext(name) =>
      var i := s.watchers[name].child;
      ChangeSparesFinished(s, StopEntry(s, name), i, StopChild(s.pool[i]));
    case Reap(name) =>
      var i := s.watchers[name].child;
      ChangeSparesFinished(s, ReapEntry(s, name), i, ReapChild(s.pool[i]));
    case Leaf(i, move) => LeafSparesFinished(s, i, move);
    case _ => ControlTouchesNothing(m, l);
  }

  /** restartWatch is a barrier: when it returns the map is empty, every leaf created before is
      over, the wait group and all gauges are zero, and no earlier leaf ever acts again. */
  lemma RestartIsBarrier(before: seq<Label>, ok: bool, after: seq<Label>)
    requires Run(FRESH, before + [Rewatched(ok)] + after).Some?
    ensures Run(FRESH, before).Some?
    ensures var s := Run(FRESH, before).value.crd;
            && s.watchers == map[] && s.wg == 0
            && (forall k: Kind :: s.active.Of(k) == 0)
            && AllFinished(s)
            && (forall l | l in after && l.Leaf? :: l.i >= |s.pool|)
  {
    assert before + [Rewatched(ok)] + after == before + ([Rewatched(ok)] + after);
    RunConcat(FRESH, before, [Rewatched(ok)] + after);
    var m := Run(FRESH, before).value;
    assert Enabled(m, Rewatched(ok));
    RunSingle(m, Rewatched(ok), after);
    RunKeepsInv(FRESH, before);
    EmptyWaitGroup(m);
    StepKeepsInv(m, Rewatched(ok));
    FinishedStayFinished(Step(m, Rewatched(ok)), after, |m.crd.pool|);
  }

  /** The loop has been entered and not left for good. */
  predicate InLoop(pc: Pc) { !pc.Unstarted? && !pc.Opening? }

  /** Once the loop is entered, Running never goes from false to true. */
  lemma {:induction false} RunningNeverReturns(m: Machine, ls: seq<Label>)
    requires InLoop(m.pc) && !m.crd.running && Run(m, ls).Some?
    ensures InLoop(Run(m, ls).value.pc) && !Run(m, ls).value.crd.running
    decreases |ls|
  {
    if ls != [] { RunningNeverReturns(Step(m, ls[0]), ls[1..]); }
  }

  lemma {:induction false} StopsOnlyGrow(m: Machine, ls: seq<Label>)
    requires Run(m, ls).Some?
    ensures Run(m, ls).value.crd.stops >= m.crd.stops
    ensures InLoop(m.pc) ==> InLoop(Run(m, ls).value.pc)
    decreases |ls|
  {
    if ls != [] { StopsOnlyGrow(Step(m, ls[0]), ls[1..]); }
  }

  /** A Stop is never lost, not even one that precedes setRunning(true): at every later
      selection the wake-up branch is enabled, taking it clears Running for good, and if the
      loop was already entered when Stop was called, Running is false from then on. */
  lemma StopIsLatched(before: seq<Label>, after: seq<Label>)
    requires Run(FRESH, before + [StopCalled] + after).Some?
    ensures Run(FRESH, before).Some?
    ensures var m := Run(FRESH, before + [StopCalled] + after).value;
            && (m.pc.Select? ==> Enabled(m, ForceWake))
            && (InLoop(Run(FRESH, before).value.pc) ==> !m.crd.running)
            && (ForceWake in after ==> !m.crd.running)
  {
    assert before + [StopCalled] + after == before + ([StopCalled] + after);
    RunConcat(FRESH, before, [StopCalled] + after);
    var m0 := Run(FRESH, before).value;
    RunSingle(m0, StopCalled, after);
    var m1 := Step(m0, StopCalled);
    StopsOnlyGrow(m1, after);
    if InLoop(m0.pc) { RunningNeverReturns(m1, after); }
    if ForceWake in after { WakeClearsRunning(m1, after); }
  }

  lemma WakeClearsRunning(m: Machine, ls: seq<Label>)
    requires Run(m, ls).Some? && ForceWake in ls
    ensures !Run(m, ls).value.crd.running
  {
    var i :| 0 <= i < |ls| && ls[i] == ForceWake;
    assert ls == ls[..i] + ([ForceWake] + ls[i + 1..]);
    RunConcat(m, ls[..i], [ForceWake] + ls[i + 1..]);
    var m' := Run(m, ls[..i]).value;
    RunSingle(m', ForceWake, ls[i + 1..]);
    RunningNeverReturns(Step(m', ForceWake), ls[i + 1..]);
  }

  /** The last configuration accepted for each deployment, from the events alone. */
  function Want(w: map<string, Configuration>, l: Label): map<string, Configuration> {
    match l
    case Added(cfg, Some(dep)) =>
      if dep.name !in w && Known(cfg.scalingMode) && (cfg.scalingMode == KILL_POD ==> dep.labels != map[])
      then w[dep.name := cfg] else w
    case Modified(cfg, get) =>
      if cfg.deployment !in w then w
      else if cfg.scalingMode == w[cfg.deployment].scalingMode || (get.Some? && Known(cfg.scalingMode))
      then w[cfg.deployment := cfg]
      else w - {cfg.deployment}
    case Deleted(cfg) => w - {cfg.deployment}
    case StopNext(name) => w - {name}
    case Reap(name) => w - {name}
    case _ => w
  }

  function WantAll(w: map<string, Configuration>, ls: seq<Label>): map<string, Configuration>
    decreases |ls|
  {
    if ls == [] then w else WantAll(Want(w, ls[0]), ls[1..])
  }

  /** The map holds exactly the wanted deployments, each with a leaf of the wanted kind and
      settings; the stored configuration may be older but names the same scaling mode. */
  ghost predicate Faithful(s: Crd, w: map<string, Configuration>) {
    && s.watchers.Keys == w.Keys
    && (forall n {:trigger FaithfulAt(s, w, n)} :: n in w ==> FaithfulAt(s, w, n))
  }

  ghost predicate FaithfulAt(s: Crd, w: map<string, Configuration>, n: string)
    requires n in w
  {
    && s.Owns(n)
    && var c := s.pool[s.watchers[n].child];
    && s.watchers[n].configuration.scalingMode == w[n].scalingMode
    && Names(w[n].scalingMode, c.kind)
    && HasSettings(c.kind, c.settings, w[n])
  }

  lemma InsertKeepsFaithful(s: Crd, w: map<string, Configuration>, name: string, k: Kind, cfg: Configuration)
    requires Faithful(s, w) && name !in s.watchers && KindOf(cfg.scalingMode) == Some(k)
    ensures Faithful(Insert(s, name, k, cfg), w[name := cfg])
  {
    var s', w' := Insert(s, name, k, cfg), w[name := cfg];
    forall n | n in w' ensures FaithfulAt(s', w', n) {
      if n in w { assert FaithfulAt(s, w, n); }
    }
  }

  lemma RemovalKeepsFaithful(s: Crd, w: map<string, Configuration>, name: string, c: Child)
    requires Faithful(s, w) && Linked(s) && s.Owns(name)
    ensures Faithful(WithChild(s, s.watchers[name].child, c).(watchers := s.watchers - {name}), w - {name})
  {
    var s', w' := WithChild(s, s.watchers[name].child, c).(watchers := s.watchers - {name}), w - {name};
    assert EntryLinked(s, name);
    forall n | n in w' ensures FaithfulAt(s', w', n) { assert FaithfulAt(s, w, n) && EntryLinked(s, n); }
  }

  lemma KeptChangeKeepsFaithful(s: Crd, w: map<string, Configuration>, i: nat, c: Child)
    requires Faithful(s, w) && i < |s.pool| && c.kind == s.pool[i].kind && c.settings == s.pool[i].settings
    ensures Faithful(WithChild(s, i, c), w)
  {
    forall n | n in w ensures FaithfulAt(WithChild(s, i, c), w, n) { assert FaithfulAt(s, w, n); }
  }

  lemma FaithfulReadsMapAndPool(s: Crd, t: Crd, w: map<string, Configuration>)
    requires Faithful(s, w) && s.watchers == t.watchers && s.pool == t.pool
    ensures Faithful(t, w)
  {
    forall n | n in w ensures FaithfulAt(t, w, n) { assert FaithfulAt(s, w, n); }
  }

  lemma LaunchKeepsFaithful(s: Crd, w: map<string, Configuration>, name: string)
    requires Faithful(s, w) && s.Owns(name)
    ensures Faithful(Launch(s, name), w)
  {
    var i := s.watchers[name].child;
    var c := LaunchChild(s.pool[i]);
    KeptChangeKeepsFaithful(s, w, i, c);
    FaithfulReadsMapAndPool(WithChild(s, i, c), Launch(s, name), w);
  }

  lemma ReplacementKeepsFaithful(s: Crd, w: map<string, Configuration>, cfg: Configuration, k: Kind)
    requires Faithful(s, w) && Linked(s) && s.Owns(cfg.deployment) && KindOf(cfg.scalingMode) == Some(k)
    ensures Faithful(Insert(StopEntry(s, cfg.deployment), cfg.deployment, k, cfg), w[cfg.deployment := cfg])
  {
    var name := cfg.deployment;
    RemovalKeepsFaithful(s, w, name, StopChild(s.pool[s.watchers[name].child]));
    InsertKeepsFaithful(StopEntry(s, name), w - {name}, name, k, cfg);
    assert (w - {name})[name := cfg] == w[name := cfg];
  }

  lemma SwitchKeepsFaithful(s: Crd, w: map<string, Configuration>, cfg: Configuration, k: Kind)
    requires Faithful(s, w) && Linked(s) && s.Owns(cfg.deployment) && KindOf(cfg.scalingMode) == Some(k)
    ensures Faithful(Launch(Insert(StopEntry(s, cfg.deployment), cfg.deployment, k, cfg), cfg.deployment),
                     w[cfg.deployment := cfg])
  {
    ReplacementKeepsFaithful(s, w, cfg, k);
    LaunchKeepsFaithful(Insert(StopEntry(s, cfg.deployment), cfg.deployment, k, cfg), w[cfg.deployment := cfg],
                        cfg.deployment);
  }

  lemma TuningKeepsFaithful(s: Crd, w: map<string, Configuration>, cfg: Configuration, get: Option<Target>)
    requires Faithful(s, w) && Linked(s) && s.Owns(cfg.deployment)
    requires s.watchers[cfg.deployment].configuration.scalingMode == cfg.scalingMode
    ensures Faithful(ModifyWatcher(s, cfg, get).0, w[cfg.deployment := cfg])
  {
    var s', w' := ModifyWatcher(s, cfg, get).0, w[cfg.deployment := cfg];
    assert FaithfulAt(s, w, cfg.deployment) && EntryLinked(s, cfg.deployment);
    forall n | n in w' ensures FaithfulAt(s', w', n) {
      assert FaithfulAt(s, w, n) && EntryLinked(s, n);
    }
  }

  lemma ModifyKeepsFaithful(s: Crd, w: map<string, Configuration>, cfg: Configuration, get: Option<Target>)
    requires Faithful(s, w) && Linked(s) && (cfg.deployment in s.watchers ==> s.Owns(cfg.deployment))
    ensures Faithful(ModifyWatcher(s, cfg, get).0, Want(w, Modified(cfg, get)))
  {
    var name := cfg.deployment;
    if name in w {
      assert FaithfulAt(s, w, name);
      if s.watchers[name].configuration.scalingMode == cfg.scalingMode {
        TuningKeepsFaithful(s, w, cfg, get);
      } else if get.Some? && KindOf(cfg.scalingMode).Some? {
        SwitchKeepsFaithful(s, w, cfg, KindOf(cfg.scalingMode).value);
      } else {
        RemovalKeepsFaithful(s, w, name, StopChild(s.pool[s.watchers[name].child]));
      }
    }
  }

  /** Only the map, the kinds and the settings matter. */
  lemma FaithfulReadsSettings(s: Crd, t: Crd, w: map<string, Configuration>)
    requires Faithful(s, w) && SameSettings(s, t)
    ensures Faithful(t, w)
  {
    forall n | n in w ensures FaithfulAt(t, w, n) { assert FaithfulAt(s, w, n); }
  }

  /** The state as it will be when modifyWatcher has made the rest of its setter calls; outside that
      gap, the state as it is. */
  ghost function Settled(m: Machine): Crd {
    if m.pc.Tuning? && m.crd.Owns(m.pc.cfg.deployment) then Retuned(m.crd, m.pc.cfg) else m.crd
  }

  lemma SetNextIsSettled(m: Machine)
    requires Inv(m) && Enabled(m, SetNext)
    ensures Settled(Step(m, SetNext)) == Settled(m)
  {
    var i := m.crd.watchers[m.pc.cfg.deployment].child;
    var call := Reconfiguration(m.pc.cfg)[m.pc.k];
    ReconfigurationConfigures(m.crd.pool[i].kind, m.crd.pool[i].settings, m.pc.cfg);
    assert call in Reconfiguration(m.pc.cfg);
    var s := TuneEntry(m.crd, m.pc.cfg.deployment, call);
    if m.pc.k == 3 { assert s.pool[i].settings == Configured(s.pool[i].kind, m.crd.pool[i].settings, m.pc.cfg); }
    assert Settled(Step(m, SetNext)).pool == Settled(m).pool;
  }

  ghost predicate SameSettings(s: Crd, t: Crd) {
    && t.watchers == s.watchers && |t.pool| == |s.pool|
    && forall i :: 0 <= i < |s.pool| ==>
         t.pool[i].kind == s.pool[i].kind && t.pool[i].settings == s.pool[i].settings
  }

  lemma MoveKeepsSettings(s: Crd, i: nat, move: Move)
    requires i < |s.pool| && CanMove(s.pool[i], move)
    ensures SameSettings(s, MoveIn(s, i, move))
  {
    var c := MoveChild(s.pool[i], move);
    assert c.kind == s.pool[i].kind && c.settings == s.pool[i].settings;
  }

  lemma RetuningKeepsSame(s: Crd, t: Crd, cfg: Configuration)
    requires SameSettings(s, t) && s.Owns(cfg.deployment)
    ensures SameSettings(Retuned(s, cfg), Retuned(t, cfg))
  {
  }

  lemma LeafKeepsFaithful(m: Machine, w: map<string, Configuration>, i: nat, move: Move)
    requires Faithful(Settled(m), w) && Enabled(m, Leaf(i, move))
    ensures Faithful(Settled(Step(m, Leaf(i, move))), w)
  {
    var t := MoveIn(m.crd, i, move);
    MoveKeepsSettings(m.crd, i, move);
    if m.pc.Tuning? && m.crd.Owns(m.pc.cfg.deployment) {
      RetuningKeepsSame(m.crd, t, m.pc.cfg);
      FaithfulReadsSettings(Retuned(m.crd, m.pc.cfg), Retuned(t, m.pc.cfg), w);
    } else {
      FaithfulReadsSettings(m.crd, t, w);
    }
  }

  lemma AddKeepsFaithful(s: Crd, w: map<string, Configuration>, cfg: Configuration, dep: Target)
    requires Faithful(s, w)
    ensures Faithful(AddWatcher(s, cfg, dep).0, Want(w, Added(cfg, Some(dep))))
  {
    if AddWatcher(s, cfg, dep).1 { InsertKeepsFaithful(s, w, dep.name, KindOf(cfg.scalingMode).value, cfg); }
  }

  lemma DeleteKeepsFaithful(s: Crd, w: map<string, Configuration>, cfg: Configuration)
    requires Faithful(s, w) && Linked(s) && (cfg.deployment in s.watchers ==> s.Owns(cfg.deployment))
    ensures Faithful(DeleteWatcher(s, cfg).0, w - {cfg.deployment})
  {
    if cfg.deployment in s.watchers {
      RemovalKeepsFaithful(s, w, cfg.deployment, StopChild(s.pool[s.watchers[cfg.deployment].child]));
    } else {
      assert w - {cfg.deployment} == w;
    }
  }

  lemma ControlKeepsFaithful(m: Machine, w: map<string, Configuration>, l: Label)
    requires Enabled(m, l) && Control(l) && Faithful(Settled(m), w)
    ensures Faithful(Settled(Step(m, l)), w) && Want(w, l) == w
  {
    ControlTouchesNothing(m, l);
    FaithfulReadsMapAndPool(Settled(m), Settled(Step(m, l)), w);
  }

  lemma ModifiedKeepsFaithful(m: Machine, w: map<string, Configuration>, cfg: Configuration, get: Option<Target>)
    requires Inv(m) && Enabled(m, Modified(cfg, get)) && Faithful(m.crd, w)
    ensures Faithful(Settled(Step(m, Modified(cfg, get))), Want(w, Modified(cfg, get)))
  {
    ModifyKeepsFaithful(m.crd, w, cfg, get);
    assert Settled(Step(m, Modified(cfg, get))) == ModifyWatcher(m.crd, cfg, get).0;
  }

  /** The other steps leave no setter call open. */
  lemma AddedKeepsFaithful(m: Machine, w: map<string, Configuration>, cfg: Configuration, get: Option<Target>)
    requires Enabled(m, Added(cfg, get)) && Faithful(m.crd, w)
    ensures Faithful(Settled(Step(m, Added(cfg, get))), Want(w, Added(cfg, get)))
  {
    if get.Some? { AddKeepsFaithful(m.crd, w, cfg, get.value); }
  }

  lemma StartKeepsFaithful(m: Machine, w: map<string, Configuration>)
    requires Enabled(m, StartChild) && Faithful(m.crd, w)
    ensures Faithful(Settled(Step(m, StartChild)), w)
  {
    LaunchKeepsFaithful(m.crd, w, m.pc.name);
  }

  lemma DeletedKeepsFaithful(m: Machine, w: map<string, Configuration>, cfg: Configuration)
    requires Linked(m.crd) && Enabled(m, Deleted(cfg)) && Faithful(m.crd, w)
    ensures Faithful(Settled(Step(m, Deleted(cfg))), Want(w, Deleted(cfg)))
  {
    DeleteKeepsFaithful(m.crd, w, cfg);
  }

  lemma StopNextKeepsFaithful(m: Machine, w: map<string, Configuration>, name: string)
    requires Linked(m.crd) && Enabled(m, StopNext(name)) && Faithful(m.crd, w)
    ensures Faithful(Settled(Step(m, StopNext(name))), Want(w, StopNext(name)))
  {
    RemovalKeepsFaithful(m.crd, w, name, StopChild(m.crd.pool[m.crd.watchers[name].child]));
  }

  lemma ReapKeepsFaithful(m: Machine, w: map<string, Configuration>, name: string)
    requires Linked(m.crd) && Enabled(m, Reap(name)) && Faithful(m.crd, w)
    ensures Faithful(Settled(Step(m, Reap(name))), Want(w, Reap(name)))
  {
    RemovalKeepsFaithful(m.crd, w, name, ReapChild(m.crd.pool[m.crd.watchers[name].child]));
  }

  lemma StepKeepsFaithful(m: Machine, w: map<string, Configuration>, l: Label)
    requires Inv(m) && Enabled(m, l) && Faithful(Settled(m), w)
    ensures Faithful(Settled(Step(m, l)), Want(w, l))
  {
    match l
    case Added(cfg, get) => AddedKeepsFaithful(m, w, cfg, get);
    case StartChild => StartKeepsFaithful(m, w);
    case Modified(cfg, get) => ModifiedKeepsFaithful(m, w, cfg, get);
    case SetNext => SetNextIsSettled(m);
    case Deleted(cfg) => DeletedKeepsFaithful(m, w, cfg);
    case StopNext(name) => StopNextKeepsFaithful(m, w, name);
    case Reap(name) => ReapKeepsFaithful(m, w, name);
    case Leaf(i, move) => LeafKeepsFaithful(m, w, i, move);
    case _ => ControlKeepsFaithful(m, w, l);
  }

  lemma {:induction false} RunKeepsFaithful(m: Machine, w: map<string, Configuration>, ls: seq<Label>)
    requires Inv(m) && Faithful(Settled(m), w) && Run(m, ls).Some?
    ensures Faithful(Settled(Run(m, ls).value), WantAll(w, ls))
    decreases |ls|
  {
    if ls != [] {
      StepKeepsInv(m, ls[0]);
      StepKeepsFaithful(m, w, ls[0]);
      RunKeepsFaithful(Step(m, ls[0]), Want(w, ls[0]), ls[1..]);
    }
  }

  /** Over every run the map of deployment watchers is the fold of the events; while the setter calls
      of a MODIFIED event are being made, it is so up to the calls that are still to come. */
  lemma MapIsFoldOfEvents(ls: seq<Label>)
    requires Run(FRESH, ls).Some?
    ensures var m := Run(FRESH, ls).value;
            && Faithful(Settled(m), WantAll(map[], ls))
            && (!m.pc.Tuning? ==> Faithful(m.crd, WantAll(map[], ls)))
  {
    RunKeepsFaithful(FRESH, map[], ls);
  }

  /** After a restart the map is the fold of the events since, whatever came before. */
  lemma RestartForgetsHistory(before: seq<Label>, ok: bool, after: seq<Label>)
    requires Run(FRESH, before + [Rewatched(ok)] + after).Some?
    ensures Faithful(Settled(Run(FRESH, before + [Rewatched(ok)] + after).value), WantAll(map[], after))
  {
    RestartIsBarrier(before, ok, after);
    assert before + [Rewatched(ok)] + after == before + ([Rewatched(ok)] + after);
    RunConcat(FRESH, before, [Rewatched(ok)] + after);
    var m := Run(FRESH, before).value;
    RunSingle(m, Rewatched(ok), after);
    RunKeepsInv(FRESH, before);
    StepKeepsInv(m, Rewatched(ok));
    RunKeepsFaithful(Step(m, Rewatched(ok)), map[], after);
  }

  function LabelsOf(s: Crd, e: Event): seq<Label> {
    match e
    case AddedEvent(cfg, get) =>
      [Added(cfg, get)] + (if get.Some? && AddWatcher(s, cfg, get.value).1 then [StartChild] else [])
    case ModifiedEvent(cfg, get) =>
      [Modified(cfg, get)] + (if SameMode(s, cfg) then SetNexts(4) else [])
    case DeletedEvent(cfg) => [Deleted(cfg)]
    case Unhandled => [OtherEvent]
    case Blank => [ErrorEvent]
    case Foreign => [ForeignObject]
  }

  /** handleEvent, undisturbed, is a run of the machine; an event never stops the loop unless it
      is fatal. */
  lemma HandleEventIsRun(m: Machine, e: Event)
    requires Linked(m.crd) && m.pc.Select?
    ensures forall n :: n in m.crd.watchers ==> m.crd.Owns(n)
    ensures var (s, fatal) := HandleEvent(m.crd, e);
            Run(m, LabelsOf(m.crd, e)) == Some(Machine(s, if fatal then Aborted else Head))
  {
    forall n | n in m.crd.watchers ensures m.crd.Owns(n) { assert EntryLinked(m.crd, n); }
    match e
    case AddedEvent(cfg, get) => AddedEventIsRun(m, cfg, get);
    case ModifiedEvent(cfg, get) => ModifiedEventIsRun(m, cfg, get);
    case _ =>
      var ls := LabelsOf(m.crd, e);
      RunSingle(m, ls[0], []);
      assert [ls[0]] + [] == ls;
  }

  lemma AddedEventIsRun(m: Machine, cfg: Configuration, get: Option<Target>)
    requires m.pc.Select? && forall n :: n in m.crd.watchers ==> m.crd.Owns(n)
    ensures Run(m, LabelsOf(m.crd, AddedEvent(cfg, get)))
            == Some(Machine(HandleEvent(m.crd, AddedEvent(cfg, get)).0, Head))
  {
    var l := Added(cfg, get);
    if get.Some? && AddWatcher(m.crd, cfg, get.value).1 {
      RunSingle(m, l, [StartChild]);
      RunSingle(Step(m, l), StartChild, []);
      assert [StartChild] + [] == [StartChild];
    } else {
      RunSingle(m, l, []);
    }
  }

  lemma ModifiedEventIsRun(m: Machine, cfg: Configuration, get: Option<Target>)
    requires m.pc.Select? && forall n :: n in m.crd.watchers ==> m.crd.Owns(n)
    ensures Run(m, LabelsOf(m.crd, ModifiedEvent(cfg, get)))
            == Some(Machine(HandleEvent(m.crd, ModifiedEvent(cfg, get)).0, Head))
  {
    if SameMode(m.crd, cfg) {
      RunSingle(m, Modified(cfg, get), SetNexts(4));
      SettersRun(m.crd, cfg, 0);
      AllSettersRetune(m.crd, cfg);
    } else {
      RunSingle(m, Modified(cfg, get), []);
    }
  }

  /** The setter calls from the k-th on. */
  function TuneRest(s: Crd, cfg: Configuration, k: nat): Crd
    requires k <= 4 && s.Owns(cfg.deployment)
    decreases 4 - k
  {
    if k == 4 then s else TuneRest(TuneEntry(s, cfg.deployment, Reconfiguration(cfg)[k]), cfg, k + 1)
  }

  function SetNexts(n: nat): seq<Label> { if n == 0 then [] else [SetNext] + SetNexts(n - 1) }

  lemma {:induction false} SettersRun(s: Crd, cfg: Configuration, k: nat)
    requires k < 4 && s.Owns(cfg.deployment)
    ensures Run(Machine(s, Tuning(cfg, k)), SetNexts(4 - k)) == Some(Machine(TuneRest(s, cfg, k), Head))
    decreases 4 - k
  {
    RunSingle(Machine(s, Tuning(cfg, k)), SetNext, SetNexts(3 - k));
    var s' := TuneEntry(s, cfg.deployment, Reconfiguration(cfg)[k]);
    if k < 3 { SettersRun(s', cfg, k + 1); } else { assert TuneRest(s', cfg, 4) == s'; }
  }

  /** The leaf after the setter calls from the k-th on. */
  function TunedRest(c: Child, cfg: Configuration, k: nat): Child
    requires k <= 4
    decreases 4 - k
  {
    if k == 4 then c else TunedRest(CallChild(c, Reconfiguration(cfg)[k]), cfg, k + 1)
  }

  lemma {:induction false} TuneRestTouchesOneLeaf(s: Crd, cfg: Configuration, k: nat)
    requires k <= 4 && s.Owns(cfg.deployment)
    ensures var i := s.watchers[cfg.deployment].child;
            TuneRest(s, cfg, k) == WithChild(s, i, TunedRest(s.pool[i], cfg, k))
    decreases 4 - k
  {
    var i := s.watchers[cfg.deployment].child;
    if k == 4 {
      assert s.pool[i := s.pool[i]] == s.pool;
    } else {
      var c := CallChild(s.pool[i], Reconfiguration(cfg)[k]);
      TuneRestTouchesOneLeaf(TuneEntry(s, cfg.deployment, Reconfiguration(cfg)[k]), cfg, k + 1);
      assert s.pool[i := c][i := TunedRest(c, cfg, k + 1)] == s.pool[i := TunedRest(c, cfg, k + 1)];
    }
  }

  lemma AllSettersRetune(s: Crd, cfg: Configuration)
    requires s.Owns(cfg.deployment)
    ensures TuneRest(s, cfg, 0) == Retuned(s, cfg)
  {
    TuneRestTouchesOneLeaf(s, cfg, 0);
    AllSettersConfigure(s.pool[s.watchers[cfg.deployment].child], cfg);
  }

  lemma AllSettersConfigure(c: Child, cfg: Configuration)
    ensures TunedRest(c, cfg, 0) == c.(settings := Configured(c.kind, c.settings, cfg))
  {
    var calls := Reconfiguration(cfg);
    var c1 := CallChild(c, calls[0]);
    var c2 := CallChild(c1, calls[1]);
    var c3 := CallChild(c2, calls[2]);
    assert TunedRest(c, cfg, 0) == TunedRest(c1, cfg, 1) == TunedRest(c2, cfg, 2);
    assert TunedRest(c2, cfg, 2) == TunedRest(c3, cfg, 3) == TunedRest(CallChild(c3, calls[3]), cfg, 4);
    ReconfigurationConfigures(c.kind, c.settings, cfg);
  }

  /** One step of it, and the rest. */
  lemma StopNextRuns(m: Machine, done: set<string>, name: string, rest: seq<Label>)
    requires Linked(m.crd) && (m.pc.Restarting? || m.pc.Draining?)
    requires name in m.crd.watchers && name !in done
    ensures Run(Machine(StopEntries(m.crd, done), m.pc), [CrdProtocol.StopNext(name)] + rest)
            == Run(Machine(StopEntries(m.crd, done + {name}), m.pc), rest)
  {
    assert EntryLinked(m.crd, name);
    StopEntriesAdd(m.crd, done, name);
    RunSingle(Machine(StopEntries(m.crd, done), m.pc), CrdProtocol.StopNext(name), rest);
  }

  lemma {:induction false} StopSomeIsRun(m: Machine, done: set<string>, todo: set<string>) returns (ls: seq<Label>)
    requires Linked(m.crd) && (m.pc.Restarting? || m.pc.Draining?)
    requires done !! todo && done + todo == m.crd.watchers.Keys
    ensures Run(Machine(StopEntries(m.crd, done), m.pc), ls)
            == Some(Machine(StopEntries(m.crd, m.crd.watchers.Keys), m.pc))
    decreases todo
  {
    if todo == {} {
      assert done + todo == done;
      return [];
    }
    var name :| name in todo;
    var rest := StopSomeIsRun(m, done + {name}, todo - {name});
    StopNextRuns(m, done, name, rest);
    ls := [CrdProtocol.StopNext(name)] + rest;
  }

  /** The stop loop, undisturbed, is a run of StopNext steps that stops every leaf of the map once
      and empties it. */
  lemma StopAllIsRun(m: Machine) returns (ls: seq<Label>)
    requires Linked(m.crd) && (m.pc.Restarting? || m.pc.Draining?)
    ensures Run(m, ls) == Some(Machine(StopEntries(m.crd, m.crd.watchers.Keys), m.pc))
    ensures StopEntries(m.crd, m.crd.watchers.Keys).watchers == map[]
  {
    StopNoEntries(m.crd);
    ls := StopSomeIsRun(m, {}, m.crd.watchers.Keys);
  }
}
