/** That a CrdWatcher is never stuck for good: from every state that is not a fatal return, and in
    which no leaf is about to panic, its Start loop can come to its return.
 */
module CrdReturns {
  import opened Common
  import opened Children
  import opened CrdState
  import opened CrdProtocol
  import opened CrdRuns
  import opened LeafAlone
  import opened LeafCalls
  import opened CrdLeftovers
  import opened CrdProgress

  // ---- One leaf ----

  /** The leaf has panicked, or will at its next move. */
  predicate Doomed(c: Child) {
    c.phase.Looping? && (c.stage.Panicked? || (c.stage.Cleared? && c.kind.Deployment? && !CanLoad(c)))
  }

  /** How the round that it is in ends. */
  function RoundEnd(c: Child): seq<Atom> {
    match c.stage
    case Waiting => [Own(Rest)]
    case Cleared => if CanLoad(c) then [Own(Load)] + [Own(Act)] else [Own(Miss)]
    case Firing => [Own(Act)]
    case _ => []
  }

  lemma RoundEndReplays(c: Child)
    requires c.phase.Looping? && !Doomed(c)
    ensures Alone(RoundEnd(c)) && Replay(c, RoundEnd(c)).Some?
    ensures var d := Replay(c, RoundEnd(c)).value; d.phase.Looping? && d.stage.AtHead?
  {
    match c.stage
    case Waiting => OneMove(c, Rest);
    case Cleared =>
      if CanLoad(c) {
        ReplayCons(c, Load, [Own(Act)]);
        OneMove(MoveChild(c, Load), Act);
      } else {
        OneMove(c, Miss);
      }
    case Firing => OneMove(c, Act);
    case AtHead =>
  }

  const WAY_OUT: seq<Atom> := [Own(Halt)] + ([Own(Leave)] + ([Own(Decrement)] + [Own(Done)]))

  lemma WayOutReplays(c: Child)
    requires c.phase.Looping? && c.stage.AtHead?
    ensures Replay(c, WAY_OUT).Some? && Replay(c, WAY_OUT).value.phase.Finished?
  {
    var c1 := MoveChild(c, Halt);
    var c2 := MoveChild(c1, Leave);
    var c3 := MoveChild(c2, Decrement);
    ReplayCons(c, Halt, [Own(Leave)] + ([Own(Decrement)] + [Own(Done)]));
    ReplayCons(c1, Leave, [Own(Decrement)] + [Own(Done)]);
    ReplayCons(c2, Decrement, [Own(Done)]);
    OneMove(c3, Done);
  }

  /** A goroutine that is not about to panic can come to its end by itself. */
  lemma LeafEnds(c: Child) returns (trace: seq<Atom>)
    requires !c.phase.Created? && !Doomed(c)
    ensures Alone(trace) && Replay(c, trace).Some? && Replay(c, trace).value.phase.Finished?
  {
    match c.phase
    case Spawned =>
      var d := MoveChild(c, Begin);
      WayOutReplays(d);
      ReplayCons(c, Begin, WAY_OUT);
      trace := [Own(Begin)] + WAY_OUT;
    case Looping =>
      RoundEndReplays(c);
      var d := Replay(c, RoundEnd(c)).value;
      WayOutReplays(d);
      ReplayConcat(c, RoundEnd(c), WAY_OUT);
      trace := RoundEnd(c) + WAY_OUT;
    case Exited =>
      ReplayCons(c, Decrement, [Own(Done)]);
      OneMove(MoveChild(c, Decrement), Done);
      trace := [Own(Decrement)] + [Own(Done)];
    case Decremented =>
      OneMove(c, Done);
      trace := [Own(Done)];
    case Finished => trace := [];
  }

  // ---- All leaves ----

  predicate NoneDoomed(s: Crd) { forall i :: 0 <= i < |s.pool| ==> !Doomed(s.pool[i]) }

  /** Every goroutine that has been started is over. */
  predicate AllOver(s: Crd) {
    forall i :: 0 <= i < |s.pool| ==> s.pool[i].phase.Created? || s.pool[i].phase.Finished?
  }

  /** Nothing but leaves has moved. */
  predicate SamePlace(m: Machine, t: Machine) {
    && t.pc == m.pc && t.crd.watchers == m.crd.watchers && |t.crd.pool| == |m.crd.pool|
    && t.crd.running == m.crd.running
  }

  lemma {:induction false} StepsKeepRunning(m: Machine, trace: seq<Atom>, i: nat)
    requires Alone(trace) && Run(m, Steps(trace, i)).Some?
    ensures Run(m, Steps(trace, i)).value.crd.running == m.crd.running
    decreases |trace|
  {
    if trace != [] {
      assert Steps(trace, i)[1..] == Steps(trace[1..], i);
      StepsKeepRunning(Step(m, Steps(trace, i)[0]), trace[1..], i);
    }
  }

  lemma {:induction false} LeavesEnd(m: Machine, n: nat) returns (ls: seq<Label>)
    requires n <= |m.crd.pool| && NoneDoomed(m.crd)
    ensures Run(m, ls).Some? && SamePlace(m, Run(m, ls).value)
    ensures var t := Run(m, ls).value;
            && (forall i :: 0 <= i < n ==> t.crd.pool[i].phase.Created? || t.crd.pool[i].phase.Finished?)
            && (forall i :: n <= i < |m.crd.pool| ==> t.crd.pool[i] == m.crd.pool[i])
  {
    if n == 0 {
      return [];
    }
    var first := LeavesEnd(m, n - 1);
    var m1 := Run(m, first).value;
    var c := m1.crd.pool[n - 1];
    var trace: seq<Atom> := [];
    if !c.phase.Created? { trace := LeafEnds(c); }
    AloneRuns(m1, trace, n - 1);
    StepsKeepRunning(m1, trace, n - 1);
    ls := first + Steps(trace, n - 1);
    RunConcat(m, first, Steps(trace, n - 1));
  }

  /** All goroutines come to their end, wherever the loop is. */
  lemma AllLeavesEnd(m: Machine) returns (ls: seq<Label>)
    requires Inv(m) && NoneDoomed(m.crd)
    ensures Run(m, ls).Some?
    ensures var t := Run(m, ls).value;
            SamePlace(m, t) && AllOver(t.crd) && Inv(t) && NoneDoomed(t.crd) && (!t.pc.Starting? ==> t.crd.wg == 0)
  {
    ls := LeavesEnd(m, |m.crd.pool|);
    RunKeepsInv(m, ls);
    OverIsJoined(Run(m, ls).value);
  }

  lemma OverIsJoined(t: Machine)
    requires Inv(t) && AllOver(t.crd)
    ensures NoneDoomed(t.crd) && (!t.pc.Starting? ==> t.crd.wg == 0)
  {
    if !t.pc.Starting? {
      NoneCreated(t);
      FinishedIffEmptyWaitGroup(t);
    }
  }

  // ---- The way to the return ----

  lemma RunThen(m: Machine, a: seq<Label>, b: seq<Label>)
    requires Run(m, a).Some? && Run(Run(m, a).value, b).Some?
    ensures Run(m, a + b) == Run(Run(m, a).value, b)
  {
    RunConcat(m, a, b);
  }

  lemma OneStep(m: Machine, l: Label)
    requires Enabled(m, l)
    ensures Run(m, [l]) == Some(Step(m, l))
  {
    RunSingle(m, l, []);
    assert [l] + [] == [l];
  }

  /** Stopping creates no doomed leaf. */
  lemma StoppingIsSafe(s: Crd, names: set<string>)
    requires NoneDoomed(s)
    ensures NoneDoomed(StopEntries(s, names))
  {
  }

  /** The final waits: stop what is in the map, wait for every goroutine. */
  lemma DrainedAndJoined(m: Machine) returns (ls: seq<Label>)
    requires Inv(m) && NoneDoomed(m.crd) && (m.pc.Draining? || m.pc.Restarting?)
    ensures Run(m, ls).Some?
    ensures var t := Run(m, ls).value;
            && t.pc == m.pc && t.crd.watchers == map[] && t.crd.wg == 0 && Inv(t) && AllOver(t.crd)
            && t.crd.running == m.crd.running
  {
    var stops := StopAllIsRun(m);
    var m1 := Run(m, stops).value;
    RunKeepsInv(m, stops);
    StoppingIsSafe(m.crd, m.crd.watchers.Keys);
    var ends := AllLeavesEnd(m1);
    RunThen(m, stops, ends);
    ls := stops + ends;
  }

  lemma ReturnFromDraining(m: Machine) returns (ls: seq<Label>)
    requires Inv(m) && NoneDoomed(m.crd) && m.pc.Draining?
    ensures Run(m, ls).Some? && Run(m, ls).value.pc.Returned?
  {
    var drained := DrainedAndJoined(m);
    var m1 := Run(m, drained).value;
    OneStep(m1, AllStopped);
    var m2 := Step(m1, AllStopped);
    OneStep(m2, CrdProtocol.Joined);
    RunThen(m1, [AllStopped], [CrdProtocol.Joined]);
    ls := drained + ([AllStopped] + [CrdProtocol.Joined]);
    RunThen(m, drained, [AllStopped] + [CrdProtocol.Joined]);
  }

  lemma ReturnFromJoining(m: Machine) returns (ls: seq<Label>)
    requires Inv(m) && NoneDoomed(m.crd) && m.pc.Joining?
    ensures Run(m, ls).Some? && Run(m, ls).value.pc.Returned?
  {
    var ends := AllLeavesEnd(m);
    var m1 := Run(m, ends).value;
    OneStep(m1, CrdProtocol.Joined);
    RunThen(m, ends, [CrdProtocol.Joined]);
    ls := ends + [CrdProtocol.Joined];
  }

  lemma ReturnFromSelect(m: Machine) returns (ls: seq<Label>)
    requires Inv(m) && NoneDoomed(m.crd) && m.pc.Select?
    ensures Run(m, ls).Some? && Run(m, ls).value.pc.Returned?
  {
    var m1 := Step(m, ContextDone);
    OneStep(m, ContextDone);
    OneStep(m1, CheckRunning);
    StepKeepsInv(m, ContextDone);
    StepKeepsInv(m1, CheckRunning);
    var rest := ReturnFromDraining(Step(m1, CheckRunning));
    RunThen(m1, [CheckRunning], rest);
    ls := [ContextDone] + ([CheckRunning] + rest);
    RunThen(m, [ContextDone], [CheckRunning] + rest);
  }

  lemma ReturnFromHead(m: Machine) returns (ls: seq<Label>)
    requires Inv(m) && NoneDoomed(m.crd) && m.pc.Head?
    ensures Run(m, ls).Some? && Run(m, ls).value.pc.Returned?
  {
    OneStep(m, CheckRunning);
    StepKeepsInv(m, CheckRunning);
    var m1 := Step(m, CheckRunning);
    var rest;
    if m.crd.running { rest := ReturnFromSelect(m1); } else { rest := ReturnFromDraining(m1); }
    ls := [CheckRunning] + rest;
    RunThen(m, [CheckRunning], rest);
  }

  /** From inside a branch of the select statement the loop comes back to its head. */
  lemma BackToHead(m: Machine) returns (ls: seq<Label>)
    requires Inv(m) && AllOver(m.crd)
    requires m.pc.Starting? || m.pc.Tuning? || m.pc.Cleaning? || m.pc.Restarting? || m.pc.Failing?
    ensures Run(m, ls).Some?
    ensures var t := Run(m, ls).value; t.pc.Head? && Inv(t) && NoneDoomed(t.crd)
  {
    OverIsJoined(m);
    match m.pc {
      case Starting(_) =>
        OneStep(m, StartChild);
        ls := [StartChild];
      case Tuning(cfg, k) =>
        SettersRun(m.crd, cfg, k);
        assert m == Machine(m.crd, Tuning(cfg, k));
        ls := SetNexts(4 - k);
        TuneRestTouchesOneLeaf(m.crd, cfg, k);
        TunedRestKeepsPhase(m.crd.pool[m.crd.watchers[cfg.deployment].child], cfg, k);
      case Cleaning(todo) =>
        ls := CleaningEnds(m.crd, todo);
        assert m == Machine(m.crd, Cleaning(todo));
      case Restarting =>
        var drained := DrainedAndJoined(m);
        var m1 := Run(m, drained).value;
        OneStep(m1, Rewatched(true));
        RunThen(m, drained, [Rewatched(true)]);
        ls := drained + [Rewatched(true)];
      case Failing =>
        OneStep(m, GiveUp);
        ls := [GiveUp];
    }
    RunKeepsInv(m, ls);
  }

  lemma {:induction false} TunedRestKeepsPhase(c: Child, cfg: Configuration, k: nat)
    requires k <= 4
    ensures TunedRest(c, cfg, k).phase == c.phase
    decreases 4 - k
  {
    if k < 4 { TunedRestKeepsPhase(CallChild(c, Reconfiguration(cfg)[k]), cfg, k + 1); }
  }

  lemma {:induction false} CleaningEnds(s: Crd, todo: set<string>) returns (ls: seq<Label>)
    requires todo <= s.watchers.Keys && Linked(s) && Balanced(s) && AllOver(s)
    ensures Run(Machine(s, Cleaning(todo)), ls).Some?
    ensures var t := Run(Machine(s, Cleaning(todo)), ls).value; t.pc.Head? && AllOver(t.crd)
    decreases todo
  {
    var m := Machine(s, Cleaning(todo));
    if todo == {} {
      OneStep(m, CleanUpEnd);
      return [CleanUpEnd];
    }
    var n :| n in todo;
    assert EntryLinked(s, n);
    var l := CrdProgress.Dealing(s, n);
    var s' := Step(m, l).crd;
    if l.Reap? { ReapEntryKeeps(s, n); }
    var rest := CleaningEnds(s', todo - {n});
    OneStep(m, l);
    ls := [l] + rest;
    RunThen(m, [l], rest);
  }

  lemma ReturnFromBranch(m: Machine) returns (ls: seq<Label>)
    requires Inv(m) && NoneDoomed(m.crd)
    requires m.pc.Starting? || m.pc.Tuning? || m.pc.Cleaning? || m.pc.Restarting? || m.pc.Failing?
    ensures Run(m, ls).Some? && Run(m, ls).value.pc.Returned?
  {
    var ends := AllLeavesEnd(m);
    var m1 := Run(m, ends).value;
    var back := BackToHead(m1);
    var rest := ReturnFromHead(Run(m1, back).value);
    RunThen(m1, back, rest);
    ls := ends + (back + rest);
    RunThen(m, ends, back + rest);
  }

  /** From every state that is not a fatal return, and in which no leaf has panicked or is about to,
      some continuation comes to the normal return. */
  lemma CanAlwaysReturn(m: Machine) returns (ls: seq<Label>)
    requires Inv(m) && NoneDoomed(m.crd) && !m.pc.Aborted?
    ensures Run(m, ls).Some? && Run(m, ls).value.pc.Returned?
  {
    match m.pc
    case Returned => ls := [];
    case Unstarted =>
      OneStep(m, StartCalled);
      OneStep(Step(m, StartCalled), Open(false));
      RunThen(m, [StartCalled], [Open(false)]);
      ls := [StartCalled] + [Open(false)];
    case Opening =>
      OneStep(m, Open(false));
      ls := [Open(false)];
    case Head => ls := ReturnFromHead(m);
    case Select => ls := ReturnFromSelect(m);
    case Draining => ls := ReturnFromDraining(m);
    case Joining => ls := ReturnFromJoining(m);
    case Starting(_) => ls := ReturnFromBranch(m);
    case Tuning(_, _) => ls := ReturnFromBranch(m);
    case Cleaning(_) => ls := ReturnFromBranch(m);
    case Restarting => ls := ReturnFromBranch(m);
    case Failing => ls := ReturnFromBranch(m);
  }

  /** Over every run: Start can still return. */
  lemma EveryRunCanReturn(ls: seq<Label>) returns (more: seq<Label>)
    requires Run(FRESH, ls).Some? && !Fatal(ls) && NoneDoomed(Run(FRESH, ls).value.crd)
    ensures Run(FRESH, ls + more).Some? && Run(FRESH, ls + more).value.pc.Returned?
  {
    RunKeepsInv(FRESH, ls);
    AbortedIffFatal(FRESH, ls);
    more := CanAlwaysReturn(Run(FRESH, ls).value);
    RunConcat(FRESH, ls, more);
  }

  // ---- Restarts happen ----

  /** A CrdWatcher that watches a deployment, and whose watch is closed, can come back to its select
      statement with a new watch, running, and with an empty map. */
  lemma ClosedWatchIsReopened(m: Machine) returns (ls: seq<Label>)
    requires Inv(m) && NoneDoomed(m.crd) && m.pc.Select? && m.crd.running
    ensures Run(m, [WatchClosed] + ls + [Rewatched(true), CheckRunning]).Some?
    ensures var t := Run(m, [WatchClosed] + ls + [Rewatched(true), CheckRunning]).value;
            t.pc.Select? && t.crd.running && t.crd.watchers == map[] && AllFinished(t.crd)
  {
    OneStep(m, WatchClosed);
    var m1 := Step(m, WatchClosed);
    StepKeepsInv(m, WatchClosed);
    ls := DrainedAndJoined(m1);
    var m2 := Run(m1, ls).value;
    FinishedIffEmptyWaitGroup(m2);
    OneStep(m2, Rewatched(true));
    OneStep(Step(m2, Rewatched(true)), CheckRunning);
    RunThen(m2, [Rewatched(true)], [CheckRunning]);
    assert [Rewatched(true)] + [CheckRunning] == [Rewatched(true), CheckRunning];
    RunThen(m, [WatchClosed], ls);
    RunThen(m, [WatchClosed] + ls, [Rewatched(true), CheckRunning]);
  }

  /** So restarts happen: after an accepted ADDED event, with its leaf in the map, the watch is closed
      and the CrdWatcher selects again, the leaf over and the map empty. */
  lemma RestartHappens(cfg: Configuration, dep: Target) returns (ls: seq<Label>)
    requires AddWatcher(EMPTY, cfg, dep).1
    ensures Run(FRESH, FirstWatch(cfg, dep)).Some? && dep.name in Run(FRESH, FirstWatch(cfg, dep)).value.crd.watchers
    ensures Run(FRESH, FirstWatch(cfg, dep) + ([WatchClosed] + ls + [Rewatched(true), CheckRunning])).Some?
    ensures var t := Run(FRESH, FirstWatch(cfg, dep) + ([WatchClosed] + ls + [Rewatched(true), CheckRunning])).value;
            t.pc.Select? && t.crd.running && t.crd.watchers == map[] && AllFinished(t.crd)
  {
    var m := OneLeafWatched(cfg, dep);
    RunKeepsInv(FRESH, FirstWatch(cfg, dep));
    ls := ClosedWatchIsReopened(m);
    RunThen(FRESH, FirstWatch(cfg, dep), [WatchClosed] + ls + [Rewatched(true), CheckRunning]);
  }
}
