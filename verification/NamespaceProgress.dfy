/** Where the Start loop of the NamespaceWatcher goes: that it restarts when its watch is closed, ends
    when it is told to and only then, and asks every CrdWatcher when it cleans up.
 */
module NamespaceProgress {
  import opened Common
  import CrdProtocol
  import opened NamespaceState
  import opened NamespaceProtocol
  import opened NamespaceRuns

  lemma RunHead(t: Tree, l: Label, rest: seq<Label>)
    requires Enabled(t, l)
    ensures Run(t, [l] + rest) == Run(Step(t, l), rest)
    ensures Run(t, [l]) == Some(Step(t, l))
  {
    assert ([l] + rest)[1..] == rest && [l][1..] == [];
  }

  // ---- A closed watch ----

  lemma {:induction false} RestartComesFirst(t: Tree, ls: seq<Label>, k: nat) returns (j: nat)
    requires t.pc.Restarting? && Run(t, ls).Some? && k < |ls| && ls[k] == CheckRunning
    ensures j < k && ls[j].Rewatched?
    decreases |ls|
  {
    if ls[0].Rewatched? {
      j := 0;
    } else {
      j := RestartComesFirst(Step(t, ls[0]), ls[1..], k - 1);
      j := j + 1;
    }
  }

  lemma AfterClosing(behavior: string, before: seq<Label>, after: seq<Label>) returns (t: Tree)
    requires Run(Root(behavior), before + [WatchClosed] + after).Some?
    ensures Run(Root(behavior), before).Some?
    ensures Run(Root(behavior), before + [WatchClosed]) == Some(t) && t.pc.Restarting? && Run(t, after).Some?
    ensures t.ns == Run(Root(behavior), before).value.ns
  {
    RunConcat(Root(behavior), before + [WatchClosed], after);
    RunConcat(Root(behavior), before, [WatchClosed]);
    var t0 := Run(Root(behavior), before).value;
    assert [WatchClosed][1..] == [];
    t := Step(t0, WatchClosed);
    RunHead(t0, WatchClosed, []);
  }

  /** When the watch is closed, the next head check comes only after a restart has gone through, and
      then no CrdWatcher is in the map and all of them are joined. */
  lemma ClosedWatchRestarts(behavior: string, before: seq<Label>, after: seq<Label>, k: nat) returns (j: nat)
    requires Run(Root(behavior), before + [WatchClosed] + after).Some?
    requires k < |after| && after[k] == CheckRunning
    ensures j < k && after[j].Rewatched?
    ensures Run(Root(behavior), before + [WatchClosed] + after[..j]).Some?
    ensures var t := Run(Root(behavior), before + [WatchClosed] + after[..j]).value;
            && t.ns.watchers == map[]
            && (forall i :: 0 <= i < |t.ns.pool| ==> NamespaceRuns.Joined(t.ns.pool[i]))
  {
    var t := AfterClosing(behavior, before, after);
    j := RestartComesFirst(t, after, k);
    var upTo := before + [WatchClosed] + after[..j];
    assert before + [WatchClosed] + after == upTo + [Rewatched(after[j].ok)] + after[j + 1..];
    NamespaceRuns.RestartIsBarrier(behavior, upTo, after[j].ok, after[j + 1..]);
  }

  // ---- The end of the loop ----

  /** What clears Running once the first watch is open. */
  predicate Ender(l: Label) {
    l.StopCalled? || l.ContextDone? || l.ErrorEvent? || (l.Rewatched? && !l.ok)
  }

  predicate SomeEnder(ls: seq<Label>) { exists k :: 0 <= k < |ls| && Ender(ls[k]) }

  lemma EnderStep(t: Tree, l: Label)
    requires !t.pc.Opening? && Enabled(t, l)
    ensures !Step(t, l).pc.Opening?
    ensures Step(t, l).ns.running <==> t.ns.running && !Ender(l)
  {
  }

  lemma {:induction false} RunningUntilEnder(t: Tree, ls: seq<Label>)
    requires !t.pc.Opening? && Run(t, ls).Some?
    ensures Run(t, ls).value.ns.running <==> t.ns.running && !SomeEnder(ls)
    decreases |ls|
  {
    if ls != [] {
      EnderStep(t, ls[0]);
      RunningUntilEnder(Step(t, ls[0]), ls[1..]);
      assert forall k :: 0 < k < |ls| ==> ls[k] == ls[1..][k - 1];
      if SomeEnder(ls[1..]) {
        var k :| 0 <= k < |ls[1..]| && Ender(ls[1..][k]);
        assert Ender(ls[k + 1]);
      }
    }
  }

  /** Over every run, once the first watch is open, Running holds if and only if nobody has called
      Stop, the context has not ended, and neither an error event nor a restart without a new watch
      has come. */
  lemma RunningIffNothingEnded(behavior: string, before: seq<Label>, after: seq<Label>)
    requires Run(Root(behavior), before + [Open(true)] + after).Some?
    ensures Run(Root(behavior), before + [Open(true)] + after).value.ns.running <==> !SomeEnder(after)
  {
    RunConcat(Root(behavior), before + [Open(true)], after);
    RunConcat(Root(behavior), before, [Open(true)]);
    var t := Run(Root(behavior), before).value;
    RunHead(t, Open(true), []);
    RunningUntilEnder(Step(t, Open(true)), after);
  }

  /** The branches of the select statement. */
  predicate Selects(l: Label) {
    || l.Added? || l.Modified? || l.Deleted? || l.OtherEvent? || l.ErrorEvent?
    || l.WatchClosed? || l.CleanUpTick? || l.ContextDone?
  }

  predicate NeverSelects(ls: seq<Label>) { forall k :: 0 <= k < |ls| ==> !Selects(ls[k]) }

  predicate Leaving(t: Tree) {
    t.pc.Draining? || t.pc.Joining? || t.pc.Returned? || (t.pc.Head? && !t.ns.running)
  }

  lemma LeavingStep(t: Tree, l: Label)
    requires Leaving(t) && Enabled(t, l)
    ensures !Selects(l) && Leaving(Step(t, l))
  {
  }

  lemma {:induction false} LeavingSelectsNothing(t: Tree, ls: seq<Label>)
    requires Leaving(t) && Run(t, ls).Some?
    ensures NeverSelects(ls)
    decreases |ls|
  {
    if ls != [] {
      LeavingStep(t, ls[0]);
      LeavingSelectsNothing(Step(t, ls[0]), ls[1..]);
      assert forall k :: 0 < k < |ls| ==> ls[k] == ls[1..][k - 1];
    }
  }

  /** The end of the context, an error event, a restart without a new watch, and a head check that
      finds Running false all end the loop: after them nothing is selected any more. */
  lemma EnderEndsLoop(behavior: string, before: seq<Label>, l: Label, after: seq<Label>)
    requires Run(Root(behavior), before + [l] + after).Some? && Run(Root(behavior), before).Some?
    requires l.ContextDone? || l.ErrorEvent? || (l.Rewatched? && !l.ok)
          || (l.CheckRunning? && !Run(Root(behavior), before).value.ns.running)
    ensures NeverSelects(after)
  {
    RunConcat(Root(behavior), before + [l], after);
    RunConcat(Root(behavior), before, [l]);
    var t := Run(Root(behavior), before).value;
    assert [l][1..] == [];
    RunHead(t, l, []);
    LeavingSelectsNothing(Step(t, l), after);
  }

  // ---- cleanUp ----

  predicate Dealt(ls: seq<Label>, n: string) {
    exists k :: 0 <= k < |ls| && (ls[k] == Evict(n) || ls[k] == Spare(n))
  }

  /** cleanUp has still to ask n, or has asked it and is about to evict it. */
  predicate StillOpen(t: Tree, n: string) {
    (t.pc.Cleaning? && n in t.pc.todo) || (t.pc.Evicting? && (n in t.pc.todo || t.pc.ns == n))
  }

  lemma StillOpenStep(t: Tree, l: Label, n: string)
    requires StillOpen(t, n) && Enabled(t, l) && l != Evict(n) && l != Spare(n)
    ensures StillOpen(Step(t, l), n)
  {
  }

  lemma {:induction false} NobodyIsForgotten(t: Tree, ls: seq<Label>, n: string)
    requires StillOpen(t, n) && Run(t, ls).Some? && !StillOpen(Run(t, ls).value, n)
    ensures Dealt(ls, n)
    decreases |ls|
  {
    if ls[0] == Evict(n) || ls[0] == Spare(n) {
      assert Dealt(ls, n);
    } else {
      StillOpenStep(t, ls[0], n);
      NobodyIsForgotten(Step(t, ls[0]), ls[1..], n);
      var k :| 0 <= k < |ls[1..]| && (ls[1..][k] == Evict(n) || ls[1..][k] == Spare(n));
      assert ls[k + 1] == ls[1..][k];
    }
  }

  /** A cleanUp comes to its end only after every key of the map has been evicted or spared. */
  lemma CleanUpAsksEveryKey(t: Tree, ls: seq<Label>, n: string)
    requires Run(t, [CleanUpTick] + ls + [CleanUpEnd]).Some? && n in t.ns.watchers
    ensures Dealt(ls, n)
  {
    assert [CleanUpTick] + ls + [CleanUpEnd] == [CleanUpTick] + (ls + [CleanUpEnd]);
    RunHead(t, CleanUpTick, ls + [CleanUpEnd]);
    var t1 := Step(t, CleanUpTick);
    RunConcat(t1, ls, [CleanUpEnd]);
    NobodyIsForgotten(t1, ls, n);
  }

  // ---- The counter of CrdWatchers ----

  lemma SpawnedStep(t: Tree, l: Label)
    requires Enabled(t, l)
    requires t.ns.cmcSpawned + (if t.pc.Starting? then 1 else 0) == |t.ns.pool|
    ensures Step(t, l).ns.cmcSpawned + (if Step(t, l).pc.Starting? then 1 else 0) == |Step(t, l).ns.pool|
  {
  }

  lemma {:induction false} SpawnedUntil(t: Tree, ls: seq<Label>)
    requires t.ns.cmcSpawned + (if t.pc.Starting? then 1 else 0) == |t.ns.pool| && Run(t, ls).Some?
    ensures var u := Run(t, ls).value;
            u.ns.cmcSpawned + (if u.pc.Starting? then 1 else 0) == |u.ns.pool|
    decreases |ls|
  {
    if ls != [] {
      SpawnedStep(t, ls[0]);
      SpawnedUntil(Step(t, ls[0]), ls[1..]);
    }
  }

  /** cmcSpawned counts the CrdWatchers ever created, except one that is about to be launched. */
  lemma SpawnedCountsWatchers(behavior: string, ls: seq<Label>)
    requires Run(Root(behavior), ls).Some?
    ensures var t := Run(Root(behavior), ls).value;
            t.ns.cmcSpawned == |t.ns.pool| - (if t.pc.Starting? then 1 else 0)
  {
    SpawnedUntil(Root(behavior), ls);
  }

  // ---- It happens ----

  /** A run that accepts one namespace. */
  function OneNamespace(ns: string): seq<Label> {
    [Open(true)] + ([CheckRunning] + ([Added(ns, None)] + ([StartCrd] + [CheckRunning])))
  }

  lemma OneNamespaceRuns(ns: string) returns (t: Tree)
    ensures Run(Root(ALLOW_ALL), OneNamespace(ns)) == Some(t)
    ensures t.pc.Select? && t.ns.running && t.ns.watchers == map[ns := 0] && t.ns.wg == 1
    ensures |t.ns.pool| == 1 && t.ns.pool[0].machine.pc.Opening? && !t.ns.pool[0].finished && t.ns.pool[0].owner == ns
    ensures t.ns.pool[0].Starts() == 1 && t.ns.behavior == ALLOW_ALL
  {
    var t0 := Root(ALLOW_ALL);
    RunHead(t0, Open(true), [CheckRunning] + ([Added(ns, None)] + ([StartCrd] + [CheckRunning])));
    var t1 := Step(t0, Open(true));
    RunHead(t1, CheckRunning, [Added(ns, None)] + ([StartCrd] + [CheckRunning]));
    var t2 := Step(t1, CheckRunning);
    AllowedIffPolicy(ALLOW_ALL, None);
    RunHead(t2, Added(ns, None), [StartCrd] + [CheckRunning]);
    var t3 := Step(t2, Added(ns, None));
    RunHead(t3, StartCrd, [CheckRunning]);
    var t4 := Step(t3, StartCrd);
    RunHead(t4, CheckRunning, []);
    t := Step(t4, CheckRunning);
  }

  /** One key, one CrdWatcher that cannot open its watch: stopped, returned, and done. */
  function Emptying(ns: string): seq<Label> {
    [StopNext(ns)] + ([Crd(0, CrdProtocol.Open(false))] + [CrdDone(0)])
  }

  lemma EmptyingRuns(t: Tree, ns: string, rest: seq<Label>) returns (u: Tree)
    requires t.pc.Restarting? || t.pc.Draining?
    requires t.ns.watchers == map[ns := 0] && t.ns.wg == 1 && |t.ns.pool| == 1
    requires t.ns.pool[0].machine.pc.Opening? && !t.ns.pool[0].finished && t.ns.pool[0].Starts() == 1
    ensures Run(t, Emptying(ns) + rest) == Run(u, rest)
    ensures u.pc == t.pc && u.ns.watchers == map[] && u.ns.wg == 0 && u.ns.running == t.ns.running
    ensures u.ns.behavior == t.ns.behavior
  {
    var a, b, c := StopNext(ns), Crd(0, CrdProtocol.Open(false)), CrdDone(0);
    RunHead(t, a, [b] + ([c] + rest));
    var t1 := Step(t, a);
    RunHead(t1, b, [c] + rest);
    var t2 := Step(t1, b);
    RunHead(t2, c, rest);
    u := Step(t2, c);
    assert Emptying(ns) + rest == [a] + ([b] + ([c] + rest));
  }

  const NEW_WATCH: seq<Label> := [Rewatched(true)] + [CheckRunning]
  const OUT: seq<Label> := [AllStopped] + [NamespaceProtocol.Joined]

  lemma NewWatchRuns(t: Tree)
    requires t.pc.Restarting? && t.ns.watchers == map[] && t.ns.wg == 0 && t.ns.running
    ensures var o := Run(t, NEW_WATCH); o.Some? && o.value.pc.Select? && o.value.ns.watchers == map[]
  {
    RunHead(t, Rewatched(true), [CheckRunning]);
    RunHead(Step(t, Rewatched(true)), CheckRunning, []);
  }

  lemma OutRuns(t: Tree)
    requires t.pc.Draining? && t.ns.watchers == map[] && t.ns.wg == 0
    ensures var o := Run(t, OUT); o.Some? && o.value.pc.Returned?
  {
    RunHead(t, AllStopped, [NamespaceProtocol.Joined]);
    RunHead(Step(t, AllStopped), NamespaceProtocol.Joined, []);
  }

  /** A restart happens: with a namespace in the map, a closed watch can lead back to the select
      statement with an empty map. */
  lemma RestartHappens(ns: string) returns (t: Tree)
    ensures Run(Root(ALLOW_ALL), OneNamespace(ns)) == Some(t) && ns in t.ns.watchers
    ensures var o := Run(t, [WatchClosed] + (Emptying(ns) + NEW_WATCH));
            o.Some? && o.value.pc.Select? && o.value.ns.watchers == map[]
  {
    t := OneNamespaceRuns(ns);
    RunHead(t, WatchClosed, Emptying(ns) + NEW_WATCH);
    var u := EmptyingRuns(Step(t, WatchClosed), ns, NEW_WATCH);
    NewWatchRuns(u);
  }

  /** A return happens: the end of the context can lead from there to the return of Start. */
  lemma ReturnHappens(ns: string) returns (t: Tree)
    ensures Run(Root(ALLOW_ALL), OneNamespace(ns)) == Some(t) && ns in t.ns.watchers
    ensures var o := Run(t, [ContextDone] + ([CheckRunning] + (Emptying(ns) + OUT)));
            o.Some? && o.value.pc.Returned?
  {
    t := OneNamespaceRuns(ns);
    RunHead(t, ContextDone, [CheckRunning] + (Emptying(ns) + OUT));
    var t1 := Step(t, ContextDone);
    RunHead(t1, CheckRunning, Emptying(ns) + OUT);
    var v := EmptyingRuns(Step(t1, CheckRunning), ns, OUT);
    OutRuns(v);
  }
}
