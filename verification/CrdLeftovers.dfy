/** Leaves that outlive their place: those that a fatal event abandons, and those that escaped an
    early Stop and hold up the waits of their CrdWatcher.
 */
module CrdLeftovers {
  import opened Common
  import opened Children
  import opened CrdState
  import opened CrdProtocol
  import opened CrdRuns
  import opened LeafAlone

  // ---- The return on a fatal event ----

  /** One of the events that handleEvent cannot recover from has been received. */
  predicate Fatal(ls: seq<Label>) { ErrorEvent in ls || ForeignObject in ls }

  lemma {:induction false} AbortedIffFatal(m: Machine, ls: seq<Label>)
    requires Run(m, ls).Some?
    ensures Run(m, ls).value.pc.Aborted? <==> m.pc.Aborted? || Fatal(ls)
    decreases |ls|
  {
    if ls != [] {
      AbortedIffFatal(Step(m, ls[0]), ls[1..]);
      assert Fatal(ls) <==> Fatal([ls[0]]) || Fatal(ls[1..]) by { assert ls == [ls[0]] + ls[1..]; }
    }
  }

  /** The wait group tells exactly whether a goroutine is left. */
  lemma FinishedIffEmptyWaitGroup(m: Machine)
    requires Inv(m) && !m.pc.Starting?
    ensures AllFinished(m.crd) <==> m.crd.wg == 0
  {
    if m.crd.wg == 0 {
      EmptyWaitGroup(m);
    } else if AllFinished(m.crd) {
      CountNone(m.crd.pool, Pending);
    }
  }

  predicate Over(pc: Pc) { pc.Returned? || pc.Aborted? }

  predicate MovesLeaf(ls: seq<Label>) { exists k :: 0 <= k < |ls| && ls[k].Leaf? }

  ghost predicate CanStillMove(m: Machine) {
    exists more :: Run(m, more).Some? && MovesLeaf(more)
  }

  /** The goroutine of a leaf goes on; one that has panicked does not. */
  predicate Alive(c: Child) { c.Unfinished() && !(c.phase.Looping? && c.stage.Panicked?) }

  ghost predicate SomeAlive(s: Crd) { exists i :: 0 <= i < |s.pool| && Alive(s.pool[i]) }

  /** A move that it can always make. */
  function NextMove(c: Child): Move {
    match c.phase
    case Looping =>
      (match c.stage
       case AtHead => if c.running then Check else Leave
       case Waiting => Rest
       case Cleared => if CanLoad(c) then Load else if c.kind.Deployment? then Panic else Miss
       case _ => Act)
    case Exited => Decrement
    case Decremented => Done
    case _ => Begin
  }

  lemma AliveMoves(m: Machine, i: nat)
    requires i < |m.crd.pool| && Alive(m.crd.pool[i])
    ensures Enabled(m, Leaf(i, NextMove(m.crd.pool[i])))
  {
  }

  lemma {:induction false} NothingLeftToMove(m: Machine, ls: seq<Label>)
    requires Over(m.pc) && !SomeAlive(m.crd) && Run(m, ls).Some?
    requires forall i :: 0 <= i < |m.crd.pool| ==> !m.crd.pool[i].phase.Created?
    ensures !MovesLeaf(ls)
    decreases |ls|
  {
    if ls != [] {
      DeadStayStill(m, ls[0]);
      NothingLeftToMove(Step(m, ls[0]), ls[1..]);
      assert forall k :: 0 < k < |ls| ==> ls[k] == ls[1..][k - 1];
    }
  }

  lemma DeadStayStill(m: Machine, l: Label)
    requires Over(m.pc) && !SomeAlive(m.crd) && Enabled(m, l)
    requires forall i :: 0 <= i < |m.crd.pool| ==> !m.crd.pool[i].phase.Created?
    ensures !l.Leaf? && Step(m, l).crd.pool == m.crd.pool && Over(Step(m, l).pc)
  {
    assert forall i :: 0 <= i < |m.crd.pool| ==> !Alive(m.crd.pool[i]);
  }

  lemma NoneCreated(m: Machine)
    requires Inv(m) && !m.pc.Starting?
    ensures forall i :: 0 <= i < |m.crd.pool| ==> !m.crd.pool[i].phase.Created?
  {
  }

  /** After either return of Start, some leaf still makes a move in some continuation if and only
      if the return came from a fatal event and some leaf was alive; as long as none has
      panicked, that means that the wait group was not empty. */
  lemma LeavesGoOnIffFatal(ls: seq<Label>)
    requires Run(FRESH, ls).Some? && Over(Run(FRESH, ls).value.pc)
    ensures var m := Run(FRESH, ls).value;
            && (CanStillMove(m) <==> Fatal(ls) && SomeAlive(m.crd))
            && (NonePanicked(m.crd) ==> (CanStillMove(m) <==> Fatal(ls) && m.crd.wg != 0))
  {
    var m := Run(FRESH, ls).value;
    RunKeepsInv(FRESH, ls);
    AbortedIffFatal(FRESH, ls);
    NoneCreated(m);
    AliveIffWaitGroup(m);
    if SomeAlive(m.crd) {
      var i :| 0 <= i < |m.crd.pool| && Alive(m.crd.pool[i]);
      AliveMoves(m, i);
      var step := Leaf(i, NextMove(m.crd.pool[i]));
      RunSingle(m, step, []);
      assert [step] + [] == [step] && [step][0].Leaf?;
    } else {
      forall more | Run(m, more).Some? ensures !MovesLeaf(more) { NothingLeftToMove(m, more); }
    }
  }

  predicate NonePanicked(s: Crd) {
    forall i :: 0 <= i < |s.pool| ==> !s.pool[i].stage.Panicked?
  }

  lemma AliveIffWaitGroup(m: Machine)
    requires Inv(m) && !m.pc.Starting?
    ensures m.crd.wg == 0 ==> !SomeAlive(m.crd)
    ensures NonePanicked(m.crd) ==> (SomeAlive(m.crd) <==> m.crd.wg != 0)
  {
    FinishedIffEmptyWaitGroup(m);
    NoneCreated(m);
    if m.crd.wg != 0 {
      var i :| 0 <= i < |m.crd.pool| && !m.crd.pool[i].phase.Finished?;
      assert NonePanicked(m.crd) ==> Alive(m.crd.pool[i]);
    }
  }

  // ---- What an abandoned leaf can still do ----

  function Disruptions(ls: seq<Label>, i: nat): nat {
    if ls == [] then 0 else (if ls[0] == Leaf(i, Act) then 1 else 0) + Disruptions(ls[1..], i)
  }

  /** The moves of leaf i in a run of the machine. */
  function OwnMoves(ls: seq<Label>, i: nat): seq<Atom> {
    if ls == [] then []
    else (if ls[0].Leaf? && ls[0].i == i then [Own(ls[0].move)] else []) + OwnMoves(ls[1..], i)
  }

  /** The steps of the machine that make the moves of a trace. */
  function Steps(trace: seq<Atom>, i: nat): seq<Label>
    requires Alone(trace)
  {
    if trace == [] then [] else [Leaf(i, trace[0].move)] + Steps(trace[1..], i)
  }

  /** After the abort nobody calls a leaf any more, so a leaf does what a trace of its own does. */
  lemma {:induction false} AbandonedIsAlone(m: Machine, ls: seq<Label>, i: nat)
    requires m.pc.Aborted? && i < |m.crd.pool| && Run(m, ls).Some?
    ensures Alone(OwnMoves(ls, i)) && Acts(OwnMoves(ls, i)) == Disruptions(ls, i)
    ensures Replay(m.crd.pool[i], OwnMoves(ls, i)).Some?
    decreases |ls|
  {
    if ls != [] {
      var rest := OwnMoves(ls[1..], i);
      AbandonedIsAlone(Step(m, ls[0]), ls[1..], i);
      if ls[0].Leaf? && ls[0].i == i {
        ActsOfCons(Own(ls[0].move), rest);
        ReplayCons(m.crd.pool[i], ls[0].move, rest);
      } else {
        assert [] + rest == rest;
      }
    }
  }

  /** And every trace of its own is part of a run. */
  lemma {:induction false} AloneRuns(m: Machine, trace: seq<Atom>, i: nat)
    requires i < |m.crd.pool| && Alone(trace) && Replay(m.crd.pool[i], trace).Some?
    ensures Run(m, Steps(trace, i)).Some? && Disruptions(Steps(trace, i), i) == Acts(trace)
    ensures var t := Run(m, Steps(trace, i)).value;
            && t.pc == m.pc && t.crd.watchers == m.crd.watchers && |t.crd.pool| == |m.crd.pool|
            && t.crd.pool[i] == Replay(m.crd.pool[i], trace).value
            && (forall j :: 0 <= j < |m.crd.pool| && j != i ==> t.crd.pool[j] == m.crd.pool[j])
    decreases |trace|
  {
    if trace != [] {
      var step := Leaf(i, trace[0].move);
      AloneRuns(Step(m, step), trace[1..], i);
      RunSingle(m, step, Steps(trace[1..], i));
      assert Steps(trace, i)[1..] == Steps(trace[1..], i);
    }
  }

  /** Leaf i makes at least n more disruptions in some continuation. */
  ghost predicate CanStillDisrupt(m: Machine, i: nat, n: nat) {
    exists more :: Run(m, more).Some? && Disruptions(more, i) >= n
  }

  lemma CanStillDisruptIffCanAct(m: Machine, i: nat, n: nat)
    requires m.pc.Aborted? && i < |m.crd.pool|
    ensures CanStillDisrupt(m, i, n) <==> CanAct(m.crd.pool[i], n)
  {
    if CanAct(m.crd.pool[i], n) {
      var trace :| Alone(trace) && Replay(m.crd.pool[i], trace).Some? && Acts(trace) >= n;
      AloneRuns(m, trace, i);
    }
    if CanStillDisrupt(m, i, n) {
      var more :| Run(m, more).Some? && Disruptions(more, i) >= n;
      AbandonedIsAlone(m, more, i);
    }
  }

  /** The exact extent of the damage: after the return leaf i disrupts in some continuation if and
      only if it was loaded; without bound if and only if it was rampant, and otherwise at most
      once. */
  lemma AbandonedDisruptsIffLoaded(m: Machine, i: nat)
    requires m.pc.Aborted? && i < |m.crd.pool|
    ensures CanStillDisrupt(m, i, 1) <==> Loaded(m.crd.pool[i])
    ensures (forall n: nat :: CanStillDisrupt(m, i, n)) <==> Rampant(m.crd.pool[i])
    ensures !Rampant(m.crd.pool[i]) ==> !CanStillDisrupt(m, i, 2)
  {
    DisruptsIffLoaded(m.crd.pool[i]);
    DisruptsForeverIffRampant(m.crd.pool[i]);
    forall n: nat ensures CanStillDisrupt(m, i, n) <==> CanAct(m.crd.pool[i], n) {
      CanStillDisruptIffCanAct(m, i, n);
    }
  }

  /** An abandoned leaf that is rampant disrupts as often as it likes and goes on running. */
  lemma AbandonedLeafDisrupts(m: Machine, i: nat, n: nat) returns (more: seq<Label>)
    requires m.pc.Aborted? && i < |m.crd.pool| && Rampant(m.crd.pool[i])
    ensures Run(m, more).Some? && Disruptions(more, i) >= n
    ensures var t := Run(m, more).value;
            t.pc.Aborted? && t.crd.watchers == m.crd.watchers && i < |t.crd.pool| && t.crd.pool[i].running
  {
    var trace := RampantDisrupts(m.crd.pool[i], n);
    AloneRuns(m, trace, i);
    more := Steps(trace, i);
  }

  /** The configuration allows requests. */
  predicate Permits(cfg: Configuration) {
    cfg.enabled && (cfg.scalingMode == RANDOM_SCALE ==> cfg.maxReplicas >= 0)
  }

  /** It happens: a CrdWatcher that accepts one ADDED event and then receives an unusable one returns
      with the leaf in its map and running.  If the configuration permits it the leaf disrupts
      without end afterwards, and otherwise never again. */
  lemma AbortedWatcherDisrupts(cfg: Configuration, dep: Target, fatal: Label)
    requires AddWatcher(EMPTY, cfg, dep).1 && Fatal([fatal])
    ensures Run(FRESH, FirstWatch(cfg, dep) + [fatal]).Some?
    ensures var m := Run(FRESH, FirstWatch(cfg, dep) + [fatal]).value;
            && m.pc.Aborted? && m.crd.Owns(dep.name) && m.crd.watchers[dep.name].child == 0 && m.crd.pool[0].running
            && (Permits(cfg) <==> forall n: nat :: CanStillDisrupt(m, 0, n))
            && (!Permits(cfg) ==> !CanStillDisrupt(m, 0, 1))
  {
    var m := OneLeafWatched(cfg, dep);
    RunSingle(m, fatal, []);
    assert [fatal] + [] == [fatal];
    RunConcat(FRESH, FirstWatch(cfg, dep), [fatal]);
    AbandonedDisruptsIffLoaded(Step(m, fatal), 0);
  }

  /** From the start to the first selection after an accepted event whose leaf has begun. */
  function FirstWatch(cfg: Configuration, dep: Target): seq<Label> {
    [StartCalled, Open(true), CheckRunning]
    + [Added(cfg, Some(dep)), StartChild, CheckRunning] + [Leaf(0, Begin)]
  }

  /** What the leaf of an accepted configuration is at its first head check. */
  predicate FirstLeaf(cfg: Configuration, c: Child) {
    && c.phase.Looping? && c.stage.AtHead? && c.running && (c.kind.AntiHpa? ==> c.ready)
    && KindOf(cfg.scalingMode) == Some(c.kind)
    && c.settings == Configured(c.kind, Defaults(c.kind), cfg)
  }

  lemma OneLeafWatched(cfg: Configuration, dep: Target) returns (m: Machine)
    requires AddWatcher(EMPTY, cfg, dep).1
    ensures Run(FRESH, FirstWatch(cfg, dep)) == Some(m)
    ensures m.pc.Select? && m.crd.watchers == map[dep.name := Entry(cfg, 0)] && |m.crd.pool| == 1
    ensures m.crd.running && FirstLeaf(cfg, m.crd.pool[0])
  {
    var m1 := LoopEntered();
    var added := [Added(cfg, Some(dep)), StartChild, CheckRunning];
    var m2 := LeafAdded(m1, cfg, dep);
    RunConcat(FRESH, [StartCalled, Open(true), CheckRunning], added);
    m := LeafBegun(m2);
    RunConcat(FRESH, [StartCalled, Open(true), CheckRunning] + added, [Leaf(0, Begin)]);
  }

  lemma LeafAdded(m: Machine, cfg: Configuration, dep: Target) returns (t: Machine)
    requires m == Machine(EMPTY.(starts := 1, running := true), Select) && AddWatcher(EMPTY, cfg, dep).1
    ensures Run(m, [Added(cfg, Some(dep)), StartChild, CheckRunning]) == Some(t)
    ensures t.pc.Select? && t.crd.running && t.crd.watchers == map[dep.name := Entry(cfg, 0)]
    ensures |t.crd.pool| == 1 && t.crd.pool[0].phase.Spawned?
    ensures var c := t.crd.pool[0];
            KindOf(cfg.scalingMode) == Some(c.kind) && c.settings == Configured(c.kind, Defaults(c.kind), cfg)
  {
    RunThree(m, Added(cfg, Some(dep)), StartChild, CheckRunning);
    t := Machine(Launch(AddWatcher(m.crd, cfg, dep).0, dep.name), Select);
  }

  lemma LeafBegun(m: Machine) returns (t: Machine)
    requires |m.crd.pool| == 1 && m.crd.pool[0].phase.Spawned?
    ensures Run(m, [Leaf(0, Begin)]) == Some(t)
    ensures t.pc == m.pc && t.crd.running == m.crd.running && t.crd.watchers == m.crd.watchers
    ensures |t.crd.pool| == 1 && t.crd.pool[0] == MoveChild(m.crd.pool[0], Begin)
  {
    RunSingle(m, Leaf(0, Begin), []);
    assert [Leaf(0, Begin)] + [] == [Leaf(0, Begin)];
    t := Step(m, Leaf(0, Begin));
  }

  lemma LoopEntered() returns (m: Machine)
    ensures Run(FRESH, [StartCalled, Open(true), CheckRunning]) == Some(m)
    ensures m == Machine(EMPTY.(starts := 1, running := true), Select)
  {
    RunThree(FRESH, StartCalled, Open(true), CheckRunning);
    m := Machine(EMPTY.(starts := 1, running := true), Select);
  }

  lemma RunThree(m: Machine, a: Label, b: Label, c: Label)
    requires Enabled(m, a) && Enabled(Step(m, a), b) && Enabled(Step(Step(m, a), b), c)
    ensures Run(m, [a, b, c]) == Some(Step(Step(Step(m, a), b), c))
  {
    RunSingle(m, a, [b, c]);
    RunSingle(Step(m, a), b, [c]);
    RunSingle(Step(Step(m, a), b), c, []);
    assert [a] + [b, c] == [a, b, c] && [b] + [c] == [b, c] && [c] + [] == [c];
  }

  /** What a CrdWatcher that nobody stopped says after its fatal return: it claims to be running
      if and only if the event carried an unknown object, and not a configuration in an empty or error
      event. */
  lemma {:induction false} ClaimsToRunIffForeign(m: Machine, ls: seq<Label>)
    requires !m.pc.Aborted? && (m.pc.Select? ==> m.crd.running || m.crd.stops > 0)
    requires Run(m, ls).Some? && Run(m, ls).value.pc.Aborted? && Run(m, ls).value.crd.stops == 0
    ensures Run(m, ls).value.crd.running <==> ForeignObject in ls
    ensures Run(m, ls).value.crd.running <==> ErrorEvent !in ls
    decreases |ls|
  {
    StopsOnlyGrow(m, ls);
    var m' := Step(m, ls[0]);
    assert ls == [ls[0]] + ls[1..];
    StopsOnlyGrow(m', ls[1..]);
    if m'.pc.Aborted? {
      AbortedStaysAsItIs(m', ls[1..]);
    } else {
      ClaimsToRunIffForeign(m', ls[1..]);
    }
  }

  lemma {:induction false} AbortedStaysAsItIs(m: Machine, ls: seq<Label>)
    requires m.pc.Aborted? && Run(m, ls).Some? && Run(m, ls).value.crd.stops == 0
    ensures Run(m, ls).value.crd.running == m.crd.running && !Fatal(ls)
    decreases |ls|
  {
    if ls != [] {
      StopsOnlyGrow(Step(m, ls[0]), ls[1..]);
      AbortedStaysAsItIs(Step(m, ls[0]), ls[1..]);
      assert ls == [ls[0]] + ls[1..];
    }
  }

  // ---- Leaves that escaped an early Stop ----

  /** restartWatch and the end of Start can go on if and only if the map is empty and every
      goroutine ever started is over. */
  lemma WaitEndsIffAllFinished(m: Machine, ok: bool)
    requires Inv(m)
    ensures m.pc.Restarting? ==> (Enabled(m, Rewatched(ok)) <==> m.crd.watchers == map[] && AllFinished(m.crd))
    ensures m.pc.Joining? ==> (Enabled(m, Joined) <==> AllFinished(m.crd))
  {
    if m.pc.Restarting? || m.pc.Joining? { FinishedIffEmptyWaitGroup(m); }
  }

  lemma ModifyLeavesRemoved(s: Crd, cfg: Configuration, get: Option<Target>, i: nat)
    requires Linked(s) && (cfg.deployment in s.watchers ==> s.Owns(cfg.deployment))
    requires i < |s.pool| && !s.pool[i].mark.Kept?
    ensures var t := ModifyWatcher(s, cfg, get).0; i < |t.pool| && t.pool[i] == s.pool[i]
  {
    if cfg.deployment in s.watchers { assert EntryLinked(s, cfg.deployment); }
  }

  /** Only its own moves change a leaf that has left the map. */
  lemma RemovedLeafIsAlone(m: Machine, l: Label, i: nat)
    requires Inv(m) && Enabled(m, l) && i < |m.crd.pool| && !m.crd.pool[i].mark.Kept?
    ensures i < |Step(m, l).crd.pool|
    ensures Step(m, l).crd.pool[i] ==
            if l.Leaf? && l.i == i then MoveChild(m.crd.pool[i], l.move) else m.crd.pool[i]
  {
    var s := m.crd;
    match l
    case Modified(cfg, get) => ModifyLeavesRemoved(s, cfg, get, i);
    case Deleted(cfg) => if cfg.deployment in s.watchers { assert EntryLinked(s, cfg.deployment); }
    case StartChild => assert EntryLinked(s, m.pc.name);
    case SetNext => assert EntryLinked(s, m.pc.cfg.deployment);
    case StopNext(name) => assert EntryLinked(s, name);
    case Reap(name) => assert EntryLinked(s, name);
    case Added(_, _) =>
    case Leaf(_, _) =>
    case _ => ControlTouchesNothing(m, l);
  }

  predicate Runs(m: Machine, i: nat) { i < |m.crd.pool| && m.crd.pool[i].running }

  ghost predicate CanStillRun(m: Machine, i: nat) {
    exists more :: Run(m, more).Some? && Runs(Run(m, more).value, i)
  }

  lemma {:induction false} BegunStaysDown(m: Machine, i: nat, ls: seq<Label>)
    requires Inv(m) && i < |m.crd.pool| && !m.crd.pool[i].mark.Kept?
    requires m.crd.pool[i].Begun() && !m.crd.pool[i].running && Run(m, ls).Some?
    ensures !Runs(Run(m, ls).value, i)
    decreases |ls|
  {
    if ls != [] {
      RemovedLeafIsAlone(m, ls[0], i);
      StepKeepsInv(m, ls[0]);
      BegunStaysDown(Step(m, ls[0]), i, ls[1..]);
    }
  }

  /** A leaf that has left the map and is not running, whether stopped or reaped, runs again in some
      continuation if and only if it has not executed its setRunning(true) yet. */
  lemma RemovedRunsAgainIffNotBegun(m: Machine, i: nat)
    requires Inv(m) && i < |m.crd.pool| && !m.crd.pool[i].mark.Kept? && !m.crd.pool[i].running
    ensures CanStillRun(m, i) <==> !m.crd.pool[i].Begun()
  {
    if m.crd.pool[i].Begun() {
      forall more | Run(m, more).Some? ensures !Runs(Run(m, more).value, i) { BegunStaysDown(m, i, more); }
    } else {
      RemovedIsLaunched(m, i);
      RunSingle(m, Leaf(i, Begin), []);
      assert [Leaf(i, Begin)] + [] == [Leaf(i, Begin)];
      assert Runs(Run(m, [Leaf(i, Begin)]).value, i);
    }
  }

  lemma RemovedIsLaunched(m: Machine, i: nat)
    requires Inv(m) && i < |m.crd.pool| && !m.crd.pool[i].mark.Kept?
    ensures !m.crd.pool[i].phase.Created?
  {
    assert m.pc.Starting? ==> EntryLinked(m.crd, m.pc.name);
  }

  ghost predicate Escapee(m: Machine, i: nat) {
    i < |m.crd.pool| && !m.crd.pool[i].mark.Kept? && m.crd.pool[i].phase.Looping? && m.crd.pool[i].running
  }

  lemma EscapeeStays(m: Machine, l: Label, i: nat)
    requires Inv(m) && Escapee(m, i) && Enabled(m, l) && l != Leaf(i, Halt)
    ensures Escapee(Step(m, l), i) && !l.Rewatched? && !l.Joined?
    ensures m.pc.Restarting? ==> Step(m, l).pc.Restarting? && !l.StopCalled?
  {
    RemovedLeafIsAlone(m, l, i);
    CountPositive(m.crd.pool, i, Pending);
  }

  /** A leaf that runs outside the map goes on until it halts by itself.  Until then no restart
      and no final wait comes to an end, and a restart that is waiting keeps the mutex, so that
      nobody can stop the CrdWatcher either. */
  lemma {:induction false} EscapeeHoldsUpWaits(m: Machine, ls: seq<Label>, i: nat)
    requires Inv(m) && Escapee(m, i) && Run(m, ls).Some? && Leaf(i, Halt) !in ls
    ensures Escapee(Run(m, ls).value, i)
    ensures Rewatched(true) !in ls && Rewatched(false) !in ls && Joined !in ls
    ensures m.pc.Restarting? ==> Run(m, ls).value.pc.Restarting? && StopCalled !in ls
    decreases |ls|
  {
    if ls != [] {
      EscapeeStays(m, ls[0], i);
      StepKeepsInv(m, ls[0]);
      EscapeeHoldsUpWaits(Step(m, ls[0]), ls[1..], i);
      assert ls == [ls[0]] + ls[1..];
    }
  }
}
