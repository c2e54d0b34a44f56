/** The whole tree running: the Start loop of the NamespaceWatcher as a program-counter machine,
    interleaved with every step of every CrdWatcher machine below it and, inside those, of
    every leaf.
 */
module NamespaceProtocol {
  import opened Common
  import CrdProtocol
  import opened NamespaceState

  /** `Evicting` is cleanUp between asking a CrdWatcher whether it is running and stopping it: the
      CrdWatcher may move in between. */
  datatype Pc =
    | Opening | Head | Select | Starting(ns: string)
    | Cleaning(todo: set<string>) | Evicting(ns: string, todo: set<string>)
    | Restarting | Draining | Joining | Returned

  datatype Tree = Tree(ns: Ns, pc: Pc)

  datatype Label =
    | Open(ok: bool) | CheckRunning
    | Added(ns: string, tag: Option<string>) | Modified(ns: string, tag: Option<string>) | Deleted(ns: string)
    | StartCrd | ErrorEvent | OtherEvent | ContextDone | StopCalled
    | WatchClosed | Rewatched(ok: bool) | StopNext(ns: string)
    | CleanUpTick | FoundIdle(ns: string) | Evict(ns: string) | Spare(ns: string) | CleanUpEnd
    | AllStopped | Joined
    | Crd(i: nat, step: CrdProtocol.Label) | CrdDone(i: nat)

  /** The mutex of the CrdWatcher stored under `ns` can be taken. */
  predicate Reachable(s: Ns, ns: string) {
    s.Owns(ns) && !CrdProtocol.Locked(s.pool[s.watchers[ns]].machine.pc)
  }

  predicate Examining(t: Tree, ns: string) {
    t.pc.Cleaning? && ns in t.pc.todo && Reachable(t.ns, ns)
  }

  predicate Enabled(t: Tree, l: Label) {
    var s := t.ns;
    match l
    case Open(_) => t.pc.Opening?
    case CheckRunning => t.pc.Head?
    case Added(_, _) => t.pc.Select?
    case Modified(ns, tag) =>
      t.pc.Select? && (ns in s.watchers && !IsNamespaceAllowed(s.behavior, tag) ==> Reachable(s, ns))
    case Deleted(ns) => t.pc.Select? && (ns in s.watchers ==> Reachable(s, ns))
    case StartCrd => t.pc.Starting? && s.Owns(t.pc.ns)
    case ErrorEvent | OtherEvent | ContextDone | WatchClosed | CleanUpTick => t.pc.Select?
    case StopCalled => !t.pc.Cleaning? && !t.pc.Evicting? && !t.pc.Restarting?
    case Rewatched(_) => t.pc.Restarting? && s.watchers == map[] && s.wg == 0
    case StopNext(ns) => (t.pc.Restarting? || t.pc.Draining?) && Reachable(s, ns)
    case FoundIdle(ns) => Examining(t, ns) && !s.pool[s.watchers[ns]].machine.crd.running
    case Evict(ns) => t.pc.Evicting? && t.pc.ns == ns && Reachable(s, ns)
    case Spare(ns) => Examining(t, ns) && s.pool[s.watchers[ns]].machine.crd.running
    case CleanUpEnd => t.pc.Cleaning? && t.pc.todo == {}
    case AllStopped => t.pc.Draining? && s.watchers == map[]
    case Joined => t.pc.Joining? && s.wg == 0
    case Crd(i, step) =>
      i < |s.pool| && !step.StartCalled? && !step.StopCalled? && CrdProtocol.Enabled(s.pool[i].machine, step)
    case CrdDone(i) =>
      i < |s.pool| && s.pool[i].Launched() && (s.pool[i].machine.pc.Returned? || s.pool[i].machine.pc.Aborted?)
  }

  function Step(t: Tree, l: Label): Tree
    requires Enabled(t, l)
  {
    var s := t.ns;
    match l
    case Open(ok) => if ok then Tree(s.(running := true), Head) else Tree(s, Returned)
    case CheckRunning => Tree(s, if s.running then Select else Draining)
    case Added(ns, tag) =>
      if !IsNamespaceAllowed(s.behavior, tag) then Tree(s, Head) else TryAdd(s, ns)
    case Modified(ns, tag) =>
      if IsNamespaceAllowed(s.behavior, tag) then TryAdd(s, ns) else Tree(RemoveWatcher(s, ns).0, Head)
    case Deleted(ns) => Tree(RemoveWatcher(s, ns).0, Head)
    case StartCrd => Tree(StartCrdWatcher(s, t.pc.ns), Head)
    case ErrorEvent | ContextDone => Tree(s.(running := false), Head)
    case OtherEvent => Tree(s, Head)
    case StopCalled => Tree(s.(running := false), t.pc)
    case WatchClosed => Tree(s, Restarting)
    case Rewatched(ok) => Tree(s.(running := s.running && ok, cmcActive := 0), Head)
    case StopNext(ns) => Tree(StopEntry(s, ns), t.pc)
    case CleanUpTick => Tree(s, Cleaning(s.watchers.Keys))
    case FoundIdle(ns) => Tree(s, Evicting(ns, t.pc.todo - {ns}))
    case Evict(ns) => Tree(StopEntry(s, ns), Cleaning(t.pc.todo))
    case Spare(ns) => Tree(s, Cleaning(t.pc.todo - {ns}))
    case CleanUpEnd => Tree(s, Head)
    case AllStopped => Tree(s, Joining)
    case Joined => Tree(s, Returned)
    case Crd(i, step) =>
      Tree(WithCell(s, i, s.pool[i].(machine := CrdProtocol.Step(s.pool[i].machine, step))), t.pc)
    case CrdDone(i) => Tree(WithCell(s, i, s.pool[i].(finished := true)).(wg := s.wg - 1), t.pc)
  }

  function TryAdd(s: Ns, ns: string): Tree {
    var (s1, added) := AddWatcher(s, ns);
    Tree(s1, if added then Starting(ns) else Head)
  }

  ghost predicate Inv(t: Tree) {
    && Linked(t)
    && t.ns.wg == Count(t.ns.pool)
    && Placed(t)
  }

  /** The map points exactly to the watchers that were never stopped, each under the namespace it
      was created for, and every watcher below satisfies its own invariant. */
  ghost predicate Linked(t: Tree) {
    && (forall n {:trigger EntryLinked(t.ns, n)} :: n in t.ns.watchers ==> EntryLinked(t.ns, n))
    && (forall i {:trigger CellLinked(t, i)} :: 0 <= i < |t.ns.pool| ==> CellLinked(t, i))
  }

  ghost predicate EntryLinked(s: Ns, n: string)
    requires n in s.watchers
  {
    s.watchers[n] < |s.pool| && s.pool[s.watchers[n]].owner == n && s.pool[s.watchers[n]].Stops() == 0
  }

  ghost predicate CellLinked(t: Tree, i: nat)
    requires i < |t.ns.pool|
  {
    var c := t.ns.pool[i];
    && CrdProtocol.Inv(c.machine)
    && c.Stops() <= 1
    && (c.Stops() == 0 ==> c.owner in t.ns.watchers && t.ns.watchers[c.owner] == i)
    && (c.Starts() == 0 ==> t.pc == Starting(c.owner) && c.Stops() == 0 && !c.finished)
    && (c.finished ==> c.machine.pc.Returned? || c.machine.pc.Aborted?)
  }

  ghost predicate Placed(t: Tree) {
    && (t.pc.Opening? ==> t.ns.pool == [] && t.ns.watchers == map[])
    && (t.pc.Starting? ==> t.ns.Owns(t.pc.ns) && t.ns.pool[t.ns.watchers[t.pc.ns]].Starts() == 0)
    && (t.pc.Joining? || t.pc.Returned? ==> t.ns.watchers == map[])
    && (t.pc.Returned? ==> t.ns.wg == 0)
  }

  lemma LinkedReadsMapAndPool(t: Tree, t': Tree)
    requires Linked(t) && t.ns.watchers == t'.ns.watchers && t.ns.pool == t'.ns.pool
    requires !t.pc.Starting? || t'.pc == t.pc
    ensures Linked(t')
  {
    forall n | n in t'.ns.watchers ensures EntryLinked(t'.ns, n) { assert EntryLinked(t.ns, n); }
    forall i | 0 <= i < |t'.ns.pool| ensures CellLinked(t', i) { assert CellLinked(t, i); }
  }

  /** A cell that keeps its owner, its stop count and a good machine stays linked. */
  lemma CellChangeKeeps(t: Tree, t': Tree, i: nat, c: Cell)
    requires Linked(t) && t.ns.wg == Count(t.ns.pool) && i < |t.ns.pool|
    requires t'.ns.watchers == t.ns.watchers && t'.ns.pool == t.ns.pool[i := c]
    requires c.owner == t.ns.pool[i].owner && c.Stops() == t.ns.pool[i].Stops() && CrdProtocol.Inv(c.machine)
    requires c.Starts() == 0 ==> t.ns.pool[i].Starts() == 0 && !c.finished
    requires c.finished ==> c.machine.pc.Returned? || c.machine.pc.Aborted?
    requires t'.pc == t.pc || (c.Starts() > 0 && t.pc == Starting(c.owner) && t.ns.pool[i].Stops() == 0)
    requires t'.ns.wg == t.ns.wg - (if t.ns.pool[i].Launched() then 1 else 0) + (if c.Launched() then 1 else 0)
    ensures Linked(t') && t'.ns.wg == Count(t'.ns.pool)
  {
    CountUpdate(t.ns.pool, i, c);
    assert CellLinked(t, i);
    forall n | n in t'.ns.watchers ensures EntryLinked(t'.ns, n) { assert EntryLinked(t.ns, n); }
    forall j | 0 <= j < |t'.ns.pool| ensures CellLinked(t', j) { assert CellLinked(t, j); }
  }

  lemma StopKeeps(t: Tree, t': Tree, ns: string)
    requires Inv(t) && t.ns.Owns(ns) && !t.pc.Starting? && !t'.pc.Starting?
    requires t'.ns.watchers == StopEntry(t.ns, ns).watchers && t'.ns.pool == StopEntry(t.ns, ns).pool
    requires t'.ns.wg == t.ns.wg
    ensures Linked(t') && t'.ns.wg == Count(t'.ns.pool)
  {
    var i := t.ns.watchers[ns];
    assert EntryLinked(t.ns, ns) && CellLinked(t, i);
    CountUpdate(t.ns.pool, i, StopCell(t.ns.pool[i]));
    StopCellKeepsInv(t.ns.pool[i]);
    forall n | n in t'.ns.watchers ensures EntryLinked(t'.ns, n) { assert EntryLinked(t.ns, n); }
    forall j | 0 <= j < |t'.ns.pool| ensures CellLinked(t', j) { assert CellLinked(t, j); }
  }

  lemma StopCellKeepsInv(c: Cell)
    requires CrdProtocol.Inv(c.machine)
    ensures CrdProtocol.Inv(StopCell(c).machine)
  {
    CrdProtocol.LinkedReadsMapAndPool(c.machine.crd, StopCell(c).machine.crd);
  }

  lemma FreshMachine()
    ensures CrdProtocol.Inv(CrdProtocol.FRESH)
  {
  }

  lemma AddKeepsEntries(t: Tree, ns: string, n: string)
    requires Linked(t) && ns !in t.ns.watchers && n in TryAdd(t.ns, ns).ns.watchers
    ensures EntryLinked(TryAdd(t.ns, ns).ns, n)
  {
    if n != ns { assert EntryLinked(t.ns, n); }
  }

  lemma AddKeepsCells(t: Tree, ns: string, j: nat)
    requires Inv(t) && t.pc.Select? && ns !in t.ns.watchers && j < |t.ns.pool|
    ensures j < |TryAdd(t.ns, ns).ns.pool| && CellLinked(TryAdd(t.ns, ns), j)
  {
    assert CellLinked(t, j);
  }

  lemma NewCellLinked(t: Tree, ns: string)
    requires ns !in t.ns.watchers
    ensures |TryAdd(t.ns, ns).ns.pool| == |t.ns.pool| + 1
    ensures CellLinked(TryAdd(t.ns, ns), |t.ns.pool|)
  {
    FreshMachine();
  }

  lemma AddKeepsLinked(t: Tree, ns: string)
    requires Inv(t) && t.pc.Select? && ns !in t.ns.watchers
    ensures Linked(TryAdd(t.ns, ns))
  {
    var t' := TryAdd(t.ns, ns);
    forall n | n in t'.ns.watchers ensures EntryLinked(t'.ns, n) { AddKeepsEntries(t, ns, n); }
    NewCellLinked(t, ns);
    forall j | 0 <= j < |t'.ns.pool| ensures CellLinked(t', j) {
      if j < |t.ns.pool| { AddKeepsCells(t, ns, j); }
    }
  }

  lemma AddKeepsInv(t: Tree, ns: string)
    requires Inv(t) && t.pc.Select?
    ensures Inv(TryAdd(t.ns, ns))
  {
    if ns in t.ns.watchers {
      LinkedReadsMapAndPool(t, TryAdd(t.ns, ns));
    } else {
      AddKeepsLinked(t, ns);
      CountAppend(t.ns.pool, Cell(ns, CrdProtocol.FRESH, false));
    }
  }

  lemma RemoveKeepsInv(t: Tree, ns: string)
    requires Inv(t) && t.pc.Select? && (ns in t.ns.watchers ==> t.ns.Owns(ns))
    ensures Inv(Tree(RemoveWatcher(t.ns, ns).0, Head))
  {
    var t' := Tree(RemoveWatcher(t.ns, ns).0, Head);
    if ns in t.ns.watchers { StopKeeps(t, t', ns); } else { LinkedReadsMapAndPool(t, t'); }
  }

  lemma StartKeepsInv(t: Tree)
    requires Inv(t) && Enabled(t, StartCrd)
    ensures Inv(Step(t, StartCrd))
  {
    var i := t.ns.watchers[t.pc.ns];
    var c := t.ns.pool[i];
    assert EntryLinked(t.ns, t.pc.ns) && CellLinked(t, i);
    assert StartCell(c).machine == CrdProtocol.Step(c.machine, CrdProtocol.StartCalled);
    CrdProtocol.StepKeepsInv(c.machine, CrdProtocol.StartCalled);
    CellChangeKeeps(t, Step(t, StartCrd), i, StartCell(c));
  }

  lemma CrdStepKeepsInv(t: Tree, i: nat, step: CrdProtocol.Label)
    requires Inv(t) && Enabled(t, Crd(i, step))
    ensures Inv(Step(t, Crd(i, step)))
  {
    var c := t.ns.pool[i];
    assert CellLinked(t, i);
    CrdProtocol.StepKeepsInv(c.machine, step);
    CountsUnmoved(c.machine, step);
    CellChangeKeeps(t, Step(t, Crd(i, step)), i, c.(machine := CrdProtocol.Step(c.machine, step)));
  }

  /** Only the namespace watcher starts and stops a CrdWatcher, and a returned one stays returned. */
  lemma CountsUnmoved(m: CrdProtocol.Machine, step: CrdProtocol.Label)
    requires CrdProtocol.Enabled(m, step) && !step.StartCalled? && !step.StopCalled?
    ensures CrdProtocol.Step(m, step).crd.starts == m.crd.starts
    ensures CrdProtocol.Step(m, step).crd.stops == m.crd.stops
    ensures m.pc.Returned? || m.pc.Aborted? ==> CrdProtocol.Step(m, step).pc == m.pc
  {
  }

  lemma StepKeepsInv(t: Tree, l: Label)
    requires Inv(t) && Enabled(t, l)
    ensures Inv(Step(t, l))
  {
    match l
    case Added(ns, tag) =>
      if IsNamespaceAllowed(t.ns.behavior, tag) { AddKeepsInv(t, ns); } else { LinkedReadsMapAndPool(t, Step(t, l)); }
    case Modified(ns, tag) =>
      if IsNamespaceAllowed(t.ns.behavior, tag) { AddKeepsInv(t, ns); } else { RemoveKeepsInv(t, ns); }
    case Deleted(ns) => RemoveKeepsInv(t, ns);
    case StartCrd => StartKeepsInv(t);
    case StopNext(ns) => StopKeeps(t, Step(t, l), ns);
    case Evict(ns) => StopKeeps(t, Step(t, l), ns);
    case Crd(i, step) => CrdStepKeepsInv(t, i, step);
    case CrdDone(i) =>
      assert CellLinked(t, i);
      CellChangeKeeps(t, Step(t, l), i, t.ns.pool[i].(finished := true));
    case _ => LinkedReadsMapAndPool(t, Step(t, l));
  }
}
