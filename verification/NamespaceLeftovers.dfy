/** What the NamespaceWatcher misses: dead CrdWatchers that cleanUp spares, and a Stop that comes
    too early.
 */
module NamespaceLeftovers {
  import opened Common
  import opened Children
  import CrdProtocol
  import CrdLeftovers
  import opened NamespaceState
  import opened NamespaceProtocol
  import opened NamespaceRuns

  // ---- CrdWatchers that returned on a fatal event ----

  /** When cleanUp comes to a CrdWatcher that has returned on a fatal event, it evicts it if and
      only if that was an empty or error event that carried a configuration; after an unknown
      object, also in an error event, the watcher still claims to be running and is spared. */
  lemma DeadWatcherEvictedIffErrorEvent(behavior: string, ls: seq<Label>, i: nat)
    requires Run(Root(behavior), ls).Some?
    requires i < |Run(Root(behavior), ls).value.ns.pool|
    requires var t := Run(Root(behavior), ls).value;
             var c := t.ns.pool[i];
             && c.machine.pc.Aborted? && Holds(t.ns, c.owner, i)
             && t.pc.Cleaning? && c.owner in t.pc.todo
    ensures var t := Run(Root(behavior), ls).value;
            var own := Project(Root(behavior), ls, i);
            && (Enabled(t, FoundIdle(t.ns.pool[i].owner)) <==> CrdProtocol.ErrorEvent in own)
            && (Enabled(t, Spare(t.ns.pool[i].owner)) <==> CrdProtocol.ForeignObject in own)
  {
    RunKeepsInv(Root(behavior), ls);
    CleanUpAsks(Run(Root(behavior), ls).value, i);
    ProjectRuns(Root(behavior), ls, i);
    CrdLeftovers.ClaimsToRunIffForeign(CrdProtocol.FRESH, Project(Root(behavior), ls, i));
  }

  lemma CleanUpAsks(t: Tree, i: nat)
    requires Inv(t) && t.pc.Cleaning? && i < |t.ns.pool| && t.ns.pool[i].machine.pc.Aborted?
    requires Holds(t.ns, t.ns.pool[i].owner, i) && t.ns.pool[i].owner in t.pc.todo
    ensures t.ns.pool[i].machine.crd.stops == 0
    ensures Enabled(t, FoundIdle(t.ns.pool[i].owner)) <==> !t.ns.pool[i].machine.crd.running
    ensures Enabled(t, Spare(t.ns.pool[i].owner)) <==> t.ns.pool[i].machine.crd.running
  {
    assert EntryLinked(t.ns, t.ns.pool[i].owner);
  }

  /** An event or a loop that takes namespace n out of the map without asking its watcher. */
  predicate TakesOut(behavior: string, l: Label, n: string) {
    || l == Deleted(n)
    || l == StopNext(n)
    || (l.Modified? && l.ns == n && !IsNamespaceAllowed(behavior, l.tag))
  }

  /** CrdWatcher i is dead, still in the map, and claims to be running. */
  ghost predicate Undead(t: Tree, i: nat, n: string) {
    && i < |t.ns.pool| && Holds(t.ns, n, i)
    && t.ns.pool[i].machine.pc.Aborted? && t.ns.pool[i].machine.crd.running
    && !(t.pc.Evicting? && t.pc.ns == n)
  }

  lemma OtherKeysStay(t: Tree, l: Label, n: string)
    requires Enabled(t, l) && n in t.ns.watchers && !TakesOut(t.ns.behavior, l, n) && l != Evict(n)
    ensures Step(t, l).ns.behavior == t.ns.behavior
    ensures n in Step(t, l).ns.watchers && Step(t, l).ns.watchers[n] == t.ns.watchers[n]
  {
  }

  lemma UndeadStays(t: Tree, l: Label, i: nat, n: string)
    requires Inv(t) && Enabled(t, l) && Undead(t, i, n) && !TakesOut(t.ns.behavior, l, n)
    ensures l != FoundIdle(n) && l != Evict(n)
    ensures Undead(Step(t, l), i, n) && Step(t, l).ns.behavior == t.ns.behavior
  {
    assert EntryLinked(t.ns, n) && CellLinked(t, i);
    OtherKeysStay(t, l, n);
    CausedRuns(t, l, i);
    if Caused(t, l, i) == [] {
      assert MachineOf(Step(t, l).ns, i) == t.ns.pool[i].machine;
    } else {
      OnlyOwnSteps(t, l, i, n);
    }
  }

  /** The only steps that concern such a CrdWatcher are moves of the leaves it abandoned. */
  lemma OnlyOwnSteps(t: Tree, l: Label, i: nat, n: string)
    requires Inv(t) && Enabled(t, l) && Undead(t, i, n) && !TakesOut(t.ns.behavior, l, n)
    requires Caused(t, l, i) != []
    ensures l.Crd? && l.i == i && l.step.Leaf?
    ensures Step(t, l).ns.pool[i].machine.pc.Aborted? && Step(t, l).ns.pool[i].machine.crd.running
  {
    assert EntryLinked(t.ns, n) && CellLinked(t, i);
    if t.pc.Starting? { assert CellLinked(t, t.ns.watchers[t.pc.ns]); }
    forall m | Holds(t.ns, m, i) ensures m == n { assert EntryLinked(t.ns, m); }
  }

  /** So cleanUp never removes it: it stays in the map, dead, until a DELETED event, a MODIFIED
      event that refuses the namespace, a restart or the end of the NamespaceWatcher. */
  lemma {:induction false} DeadWatcherIsSpared(t: Tree, ls: seq<Label>, i: nat, n: string)
    requires Inv(t) && Undead(t, i, n) && Run(t, ls).Some?
    requires forall l :: l in ls ==> !TakesOut(t.ns.behavior, l, n)
    ensures FoundIdle(n) !in ls && Evict(n) !in ls
    ensures Undead(Run(t, ls).value, i, n)
    decreases |ls|
  {
    if ls != [] {
      UndeadStays(t, ls[0], i, n);
      StepKeepsInv(t, ls[0]);
      DeadWatcherIsSpared(Step(t, ls[0]), ls[1..], i, n);
      assert ls == [ls[0]] + ls[1..];
    }
  }

  // ---- CrdWatchers that wait for an escaped leaf ----

  /** CrdWatcher i, stored under n, waits in restartWatch for its leaf j, which runs outside the map. */
  ghost predicate Hung(t: Tree, i: nat, n: string, j: nat) {
    && i < |t.ns.pool| && Holds(t.ns, n, i)
    && t.ns.pool[i].machine.pc.Restarting? && CrdLeftovers.Escapee(t.ns.pool[i].machine, j)
  }

  /** A step that needs the mutex of the CrdWatcher stored under n. */
  predicate Asks(behavior: string, l: Label, n: string) {
    TakesOut(behavior, l, n) || l == FoundIdle(n) || l == Spare(n) || l == Evict(n)
  }

  lemma HungCannotBeAsked(t: Tree, l: Label, i: nat, n: string, j: nat)
    requires Enabled(t, l) && Hung(t, i, n, j)
    ensures !Asks(t.ns.behavior, l, n) && !l.Rewatched? && !l.AllStopped?
  {
  }

  lemma HungStepsAlone(m: CrdProtocol.Machine, step: CrdProtocol.Label, j: nat)
    requires CrdProtocol.Inv(m) && m.pc.Restarting? && CrdLeftovers.Escapee(m, j)
    requires CrdProtocol.Enabled(m, step) && step != CrdProtocol.Leaf(j, Halt)
    ensures !step.StopCalled? && !step.StartCalled?
    ensures CrdProtocol.Step(m, step).pc.Restarting? && CrdLeftovers.Escapee(CrdProtocol.Step(m, step), j)
  {
    CrdLeftovers.EscapeeStays(m, step, j);
  }

  lemma HungStays(t: Tree, l: Label, i: nat, n: string, j: nat)
    requires Inv(t) && Enabled(t, l) && Hung(t, i, n, j) && l != Crd(i, CrdProtocol.Leaf(j, Halt))
    ensures Hung(Step(t, l), i, n, j) && Step(t, l).ns.behavior == t.ns.behavior
  {
    assert EntryLinked(t.ns, n) && CellLinked(t, i);
    HungCannotBeAsked(t, l, i, n, j);
    OtherKeysStay(t, l, n);
    CausedRuns(t, l, i);
    HungIsCausedToStep(t, l, i, n, j);
  }

  /** What the tree does to such a CrdWatcher is at most a step of its own. */
  lemma HungIsCausedToStep(t: Tree, l: Label, i: nat, n: string, j: nat)
    requires Inv(t) && Enabled(t, l) && Hung(t, i, n, j) && l != Crd(i, CrdProtocol.Leaf(j, Halt))
    ensures var m := MachineOf(Step(t, l).ns, i); m.pc.Restarting? && CrdLeftovers.Escapee(m, j)
    ensures i < |Step(t, l).ns.pool|
  {
    assert EntryLinked(t.ns, n) && CellLinked(t, i);
    HungCannotBeAsked(t, l, i, n, j);
    CausedRuns(t, l, i);
    forall m | Holds(t.ns, m, i) ensures m == n { assert EntryLinked(t.ns, m); }
    if t.pc.Starting? { assert CellLinked(t, t.ns.watchers[t.pc.ns]); }
    if l.Crd? && l.i == i { HungStepsAlone(t.ns.pool[i].machine, l.step, j); }
  }

  /** cleanUp has not dealt with key n yet. */
  predicate StillToAsk(t: Tree, n: string) {
    match t.pc
    case Cleaning(todo) => n in todo
    case Evicting(ns, todo) => ns == n || n in todo
    case _ => false
  }

  lemma StillToAskStays(t: Tree, l: Label, i: nat, n: string, j: nat)
    requires Enabled(t, l) && Hung(t, i, n, j) && StillToAsk(t, n)
    ensures StillToAsk(Step(t, l), n) && !l.CleanUpEnd?
  {
  }

  /** Until the escaped leaf halts by itself, nothing asks or removes the CrdWatcher that waits for
      it: the loops and events of the NamespaceWatcher that come to its key hang, so no cleanUp that
      still has the key to ask, no restart and no final stop loop comes to an end. */
  lemma {:induction false} EscapeeHangsTree(t: Tree, ls: seq<Label>, i: nat, n: string, j: nat)
    requires Inv(t) && Hung(t, i, n, j) && Run(t, ls).Some?
    requires Crd(i, CrdProtocol.Leaf(j, Halt)) !in ls
    ensures Hung(Run(t, ls).value, i, n, j)
    ensures forall l :: l in ls ==> !Asks(t.ns.behavior, l, n) && !l.Rewatched? && !l.AllStopped?
    ensures StillToAsk(t, n) ==> StillToAsk(Run(t, ls).value, n) && CleanUpEnd !in ls
    decreases |ls|
  {
    if ls != [] {
      HungCannotBeAsked(t, ls[0], i, n, j);
      HungStays(t, ls[0], i, n, j);
      if StillToAsk(t, n) { StillToAskStays(t, ls[0], i, n, j); }
      StepKeepsInv(t, ls[0]);
      EscapeeHangsTree(Step(t, ls[0]), ls[1..], i, n, j);
      assert ls == [ls[0]] + ls[1..];
    }
  }

  // ---- A Stop of the NamespaceWatcher ----

  lemma {:induction false} RunningNeverReturns(t: Tree, ls: seq<Label>)
    requires !t.pc.Opening? && !t.ns.running && Run(t, ls).Some?
    ensures !Run(t, ls).value.ns.running
    decreases |ls|
  {
    if ls != [] {
      RunningNeedsOpening(t, ls[0]);
      RunningNeverReturns(Step(t, ls[0]), ls[1..]);
    }
  }

  lemma RunningNeedsOpening(t: Tree, l: Label)
    requires !t.pc.Opening? && !t.ns.running && Enabled(t, l)
    ensures !Step(t, l).pc.Opening? && !Step(t, l).ns.running
  {
  }

  /** After a Stop now, the NamespaceWatcher never runs again. */
  ghost predicate StopWouldHold(t: Tree)
    requires Enabled(t, StopCalled)
  {
    forall ls :: Run(Step(t, StopCalled), ls).Some? ==> !Run(Step(t, StopCalled), ls).value.ns.running
  }

  /** Unlike that of a CrdWatcher, its Stop leaves no trace besides the flag: it holds if and only if
      the first watch is already open, and one that comes before setRunning(true) is lost. */
  lemma StopHoldsIffOpened(t: Tree)
    requires Enabled(t, StopCalled)
    ensures StopWouldHold(t) <==> !t.pc.Opening?
  {
    var t' := Step(t, StopCalled);
    if t.pc.Opening? {
      var ls := [Open(true)];
      assert ls[1..] == [];
      assert Run(t', ls) == Some(Step(t', Open(true)));
    } else {
      forall ls | Run(t', ls).Some? ensures !Run(t', ls).value.ns.running { RunningNeverReturns(t', ls); }
    }
  }
}
