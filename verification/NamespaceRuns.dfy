/** What holds over every run of the whole tree of watchers. */
module NamespaceRuns {
  import opened Common
  import CrdProtocol
  import CrdRuns
  import opened NamespaceState
  import opened NamespaceProtocol

  function Run(t: Tree, ls: seq<Label>): Option<Tree>
    decreases |ls|
  {
    if ls == [] then Some(t)
    else if Enabled(t, ls[0]) then Run(Step(t, ls[0]), ls[1..])
    else None
  }

  function Root(behavior: string): Tree { Tree(Initial(behavior), Opening) }

  lemma {:induction false} RunKeepsInv(t: Tree, ls: seq<Label>)
    requires Inv(t) && Run(t, ls).Some?
    ensures Inv(Run(t, ls).value)
    decreases |ls|
  {
    if ls != [] {
      StepKeepsInv(t, ls[0]);
      RunKeepsInv(Step(t, ls[0]), ls[1..]);
    }
  }

  // ---- Each CrdWatcher on its own ----

  predicate Holds(s: Ns, ns: string, i: nat) { ns in s.watchers && s.watchers[ns] == i }

  /** What a step of the tree means for CrdWatcher i: a step of its own, its Start, its Stop, or
      nothing. */
  function Caused(t: Tree, l: Label, i: nat): seq<CrdProtocol.Label> {
    match l
    case Crd(j, step) => if j == i then [step] else []
    case StartCrd => if t.pc.Starting? && Holds(t.ns, t.pc.ns, i) then [CrdProtocol.StartCalled] else []
    case Modified(ns, tag) =>
      if !IsNamespaceAllowed(t.ns.behavior, tag) && Holds(t.ns, ns, i) then [CrdProtocol.StopCalled] else []
    case Deleted(ns) => StopIfHeld(t.ns, ns, i)
    case Evict(ns) => StopIfHeld(t.ns, ns, i)
    case StopNext(ns) => StopIfHeld(t.ns, ns, i)
    case _ => []
  }

  function StopIfHeld(s: Ns, ns: string, i: nat): seq<CrdProtocol.Label> {
    if Holds(s, ns, i) then [CrdProtocol.StopCalled] else []
  }

  /** The part of a run of the tree that concerns CrdWatcher i. */
  function Project(t: Tree, ls: seq<Label>, i: nat): seq<CrdProtocol.Label>
    decreases |ls|
  {
    if ls == [] || !Enabled(t, ls[0]) then []
    else Caused(t, ls[0], i) + Project(Step(t, ls[0]), ls[1..], i)
  }

  /** The machine of CrdWatcher i, which is fresh as long as the object does not exist. */
  function MachineOf(s: Ns, i: nat): CrdProtocol.Machine {
    if i < |s.pool| then s.pool[i].machine else CrdProtocol.FRESH
  }

  lemma RunOne(m: CrdProtocol.Machine, l: CrdProtocol.Label)
    requires CrdProtocol.Enabled(m, l)
    ensures CrdRuns.Run(m, [l]) == Some(CrdProtocol.Step(m, l))
  {
    CrdRuns.RunSingle(m, l, []);
    assert [l] + [] == [l];
  }

  lemma StopCausesStop(s: Ns, ns: string, i: nat)
    requires Reachable(s, ns)
    ensures CrdRuns.Run(MachineOf(s, i), StopIfHeld(s, ns, i)) == Some(MachineOf(StopEntry(s, ns), i))
  {
    if s.watchers[ns] == i { RunOne(s.pool[i].machine, CrdProtocol.StopCalled); }
  }

  lemma RemovalCausesStop(s: Ns, ns: string, i: nat)
    requires ns in s.watchers ==> Reachable(s, ns)
    ensures CrdRuns.Run(MachineOf(s, i), StopIfHeld(s, ns, i)) == Some(MachineOf(RemoveWatcher(s, ns).0, i))
  {
    if ns in s.watchers { StopCausesStop(s, ns, i); }
  }

  lemma StartCausesStart(t: Tree, i: nat)
    requires Inv(t) && Enabled(t, StartCrd)
    ensures CrdRuns.Run(MachineOf(t.ns, i), Caused(t, StartCrd, i)) == Some(MachineOf(Step(t, StartCrd).ns, i))
  {
    var j := t.ns.watchers[t.pc.ns];
    assert CellLinked(t, j);
    if j == i { RunOne(t.ns.pool[i].machine, CrdProtocol.StartCalled); }
  }

  lemma AddCausesNothing(s: Ns, ns: string, i: nat)
    ensures MachineOf(TryAdd(s, ns).ns, i) == MachineOf(s, i)
  {
  }

  lemma CrdStepCausesItself(t: Tree, j: nat, step: CrdProtocol.Label, i: nat)
    requires Enabled(t, Crd(j, step))
    ensures CrdRuns.Run(MachineOf(t.ns, i), Caused(t, Crd(j, step), i))
            == Some(MachineOf(Step(t, Crd(j, step)).ns, i))
  {
    if j == i { RunOne(t.ns.pool[i].machine, step); }
  }

  lemma CausedRuns(t: Tree, l: Label, i: nat)
    requires Inv(t) && Enabled(t, l)
    ensures CrdRuns.Run(MachineOf(t.ns, i), Caused(t, l, i)) == Some(MachineOf(Step(t, l).ns, i))
  {
    match l
    case Crd(j, step) => CrdStepCausesItself(t, j, step, i);
    case StartCrd => StartCausesStart(t, i);
    case Added(ns, tag) => AddCausesNothing(t.ns, ns, i);
    case Modified(ns, tag) =>
      if IsNamespaceAllowed(t.ns.behavior, tag) {
        AddCausesNothing(t.ns, ns, i);
      } else {
        RemovalCausesStop(t.ns, ns, i);
      }
    case Deleted(ns) => RemovalCausesStop(t.ns, ns, i);
    case Evict(ns) => StopCausesStop(t.ns, ns, i);
    case StopNext(ns) => StopCausesStop(t.ns, ns, i);
    case _ =>
  }

  lemma {:induction false} ProjectRuns(t: Tree, ls: seq<Label>, i: nat)
    requires Inv(t) && Run(t, ls).Some?
    ensures CrdRuns.Run(MachineOf(t.ns, i), Project(t, ls, i)) == Some(MachineOf(Run(t, ls).value.ns, i))
    decreases |ls|
  {
    if ls != [] {
      var t' := Step(t, ls[0]);
      StepKeepsInv(t, ls[0]);
      CausedRuns(t, ls[0], i);
      ProjectRuns(t', ls[1..], i);
      CrdRuns.RunConcat(MachineOf(t.ns, i), Caused(t, ls[0], i), Project(t', ls[1..], i));
    }
  }

  /** Inside the tree every CrdWatcher behaves like a CrdWatcher on its own that receives its part
      of the run, so everything proved about such runs holds here: in particular its map is the
      fold of the events that the run delivered to it. */
  lemma EveryCrdWatcherIsARun(behavior: string, ls: seq<Label>, i: nat)
    requires Run(Root(behavior), ls).Some? && i < |Run(Root(behavior), ls).value.ns.pool|
    ensures var m := Run(Root(behavior), ls).value.ns.pool[i].machine;
            var own := Project(Root(behavior), ls, i);
            && CrdRuns.Run(CrdProtocol.FRESH, own) == Some(m)
            && CrdRuns.Faithful(CrdRuns.Settled(m), CrdRuns.WantAll(map[], own))
            && (!m.pc.Tuning? ==> CrdRuns.Faithful(m.crd, CrdRuns.WantAll(map[], own)))
  {
    ProjectRuns(Root(behavior), ls, i);
    CrdRuns.MapIsFoldOfEvents(Project(Root(behavior), ls, i));
  }

  /** Each CrdWatcher is started at most once and stopped at most once, so its ForceStopChan is
      never closed twice; and the ones still in the map are exactly those never stopped, each
      under one key, the namespace it was created for. */
  lemma StartedAndStoppedOnce(behavior: string, ls: seq<Label>, i: nat)
    requires Run(Root(behavior), ls).Some? && i < |Run(Root(behavior), ls).value.ns.pool|
    ensures var t := Run(Root(behavior), ls).value;
            var c := t.ns.pool[i];
            && c.Starts() <= 1 && c.Stops() <= 1
            && (c.Starts() == 0 ==> t.pc == Starting(c.owner))
            && (forall n :: n in t.ns.watchers && t.ns.watchers[n] == i <==> n == c.owner && c.Stops() == 0)
  {
    RunKeepsInv(Root(behavior), ls);
    var t := Run(Root(behavior), ls).value;
    assert CellLinked(t, i);
    forall n | n in t.ns.watchers ensures EntryLinked(t.ns, n) {}
  }

  /** Everything below a CrdWatcher that left its loop normally is over. */
  ghost predicate Joined(c: Cell) {
    c.finished && (c.machine.pc.Returned? || c.machine.pc.Aborted?)
      && (c.machine.pc.Returned? ==> CrdRuns.AllFinished(c.machine.crd))
  }

  lemma EmptyWaitGroup(t: Tree)
    requires Inv(t) && t.ns.wg == 0 && !t.pc.Starting?
    ensures forall i :: 0 <= i < |t.ns.pool| ==> Joined(t.ns.pool[i])
  {
    forall i | 0 <= i < |t.ns.pool| ensures Joined(t.ns.pool[i]) {
      assert CellLinked(t, i);
      if t.ns.pool[i].Launched() { CountPositive(t.ns.pool, i); }
      if t.ns.pool[i].machine.pc.Returned? { CrdRuns.EmptyWaitGroup(t.ns.pool[i].machine); }
    }
  }

  /** Hierarchical join: when Start returns from its final wait, every CrdWatcher goroutine ever
      started is over, and so is every leaf below one that left its loop normally. */
  lemma ReturnJoinsTree(behavior: string, ls: seq<Label>)
    requires Run(Root(behavior), ls).Some? && Run(Root(behavior), ls).value.pc.Returned?
    ensures var s := Run(Root(behavior), ls).value.ns;
            && s.watchers == map[]
            && (forall i :: 0 <= i < |s.pool| ==> Joined(s.pool[i]) && s.pool[i].Stops() == 1)
  {
    RunKeepsInv(Root(behavior), ls);
    var t := Run(Root(behavior), ls).value;
    EmptyWaitGroup(t);
    forall i | 0 <= i < |t.ns.pool| ensures t.ns.pool[i].Stops() == 1 { assert CellLinked(t, i); }
  }

  /** A step inside a joined CrdWatcher can only be a leaf that a fatal event abandoned. */
  ghost predicate OnlyAbandoned(t: Tree, l: Label, n: nat) {
    match l
    case Crd(i, step) => i < n && i < |t.ns.pool| ==> step.Leaf? && t.ns.pool[i].machine.pc.Aborted?
    case CrdDone(i) => i >= n
    case _ => true
  }

  ghost predicate OnlyAbandonedFrom(t: Tree, ls: seq<Label>, n: nat)
    decreases |ls|
  {
    ls == [] ||
      (OnlyAbandoned(t, ls[0], n) && (Enabled(t, ls[0]) ==> OnlyAbandonedFrom(Step(t, ls[0]), ls[1..], n)))
  }

  lemma JoinedMachineIsQuiet(c: Cell, step: CrdProtocol.Label)
    requires CrdProtocol.Inv(c.machine) && Joined(c)
    requires CrdProtocol.Enabled(c.machine, step) && !step.StartCalled? && !step.StopCalled?
    ensures step.Leaf? && c.machine.pc.Aborted?
    ensures Joined(c.(machine := CrdProtocol.Step(c.machine, step)))
  {
  }

  lemma JoinedStays(t: Tree, l: Label, i: nat)
    requires Inv(t) && Enabled(t, l) && i < |t.ns.pool| && Joined(t.ns.pool[i])
    ensures i < |Step(t, l).ns.pool| && Joined(Step(t, l).ns.pool[i])
  {
    assert CellLinked(t, i);
    if l.Crd? && l.i == i { JoinedMachineIsQuiet(t.ns.pool[i], l.step); }
  }

  lemma JoinedIsQuiet(t: Tree, l: Label, n: nat)
    requires Inv(t) && Enabled(t, l) && n <= |t.ns.pool|
    requires forall i :: 0 <= i < n ==> Joined(t.ns.pool[i])
    ensures OnlyAbandoned(t, l, n)
    ensures n <= |Step(t, l).ns.pool|
    ensures forall i :: 0 <= i < n ==> Joined(Step(t, l).ns.pool[i])
  {
    forall i | 0 <= i < n ensures i < |Step(t, l).ns.pool| && Joined(Step(t, l).ns.pool[i]) {
      JoinedStays(t, l, i);
    }
    if l.Crd? && l.i < n {
      assert CellLinked(t, l.i);
      JoinedMachineIsQuiet(t.ns.pool[l.i], l.step);
    }
    if n > 0 { assert n - 1 < |Step(t, l).ns.pool|; }
  }

  lemma {:induction false} JoinedStayQuiet(t: Tree, ls: seq<Label>, n: nat)
    requires Inv(t) && Run(t, ls).Some? && n <= |t.ns.pool|
    requires forall i :: 0 <= i < n ==> Joined(t.ns.pool[i])
    ensures OnlyAbandonedFrom(t, ls, n)
    decreases |ls|
  {
    if ls != [] {
      JoinedIsQuiet(t, ls[0], n);
      StepKeepsInv(t, ls[0]);
      JoinedStayQuiet(Step(t, ls[0]), ls[1..], n);
    }
  }

  lemma {:induction false} RunConcat(t: Tree, a: seq<Label>, b: seq<Label>)
    ensures Run(t, a + b) == match Run(t, a) { case None => None case Some(t') => Run(t', b) }
    decreases |a|
  {
    if a == [] {
      assert a + b == b;
    } else {
      assert (a + b)[1..] == a[1..] + b;
      if Enabled(t, a[0]) { RunConcat(Step(t, a[0]), a[1..], b); }
    }
  }

  /** restartWatch is a barrier for the tree: when it returns, no CrdWatcher is in the map and
      all of them are joined, and afterwards nothing moves in them but abandoned leaves. */
  lemma RestartIsBarrier(behavior: string, before: seq<Label>, ok: bool, after: seq<Label>)
    requires Run(Root(behavior), before + [Rewatched(ok)] + after).Some?
    ensures Run(Root(behavior), before).Some?
    ensures var t := Run(Root(behavior), before).value;
            && t.ns.watchers == map[]
            && (forall i :: 0 <= i < |t.ns.pool| ==> Joined(t.ns.pool[i]))
            && Enabled(t, Rewatched(ok))
            && OnlyAbandonedFrom(Step(t, Rewatched(ok)), after, |t.ns.pool|)
            && Step(t, Rewatched(ok)).ns.cmcActive == 0
  {
    assert before + [Rewatched(ok)] + after == before + ([Rewatched(ok)] + after);
    RunConcat(Root(behavior), before, [Rewatched(ok)] + after);
    var t := Run(Root(behavior), before).value;
    assert ([Rewatched(ok)] + after)[1..] == after;
    RunKeepsInv(Root(behavior), before);
    EmptyWaitGroup(t);
    StepKeepsInv(t, Rewatched(ok));
    JoinedStayQuiet(Step(t, Rewatched(ok)), after, |t.ns.pool|);
  }

  /** What the events since the last restart tell: the labels of the existing namespaces, and
      the namespaces whose watcher was stopped by a loop and not added again. */
  datatype Picture = Picture(known: map<string, Option<string>>, evicted: set<string>)

  const BLANK := Picture(map[], {})

  function See(p: Picture, behavior: string, l: Label): Picture {
    match l
    case Added(ns, tag) =>
      Picture(p.known[ns := tag], if IsNamespaceAllowed(behavior, tag) then p.evicted - {ns} else p.evicted)
    case Modified(ns, tag) =>
      Picture(p.known[ns := tag], if IsNamespaceAllowed(behavior, tag) then p.evicted - {ns} else p.evicted)
    case Deleted(ns) => p.(known := p.known - {ns})
    case Evict(ns) => p.(evicted := p.evicted + {ns})
    case StopNext(ns) => p.(evicted := p.evicted + {ns})
    case Rewatched(_) => BLANK
    case _ => p
  }

  /** The existing namespaces whose latest label is accepted, without the evicted ones. */
  function Expected(p: Picture, behavior: string): set<string> {
    set n | n in p.known && IsNamespaceAllowed(behavior, p.known[n]) && n !in p.evicted
  }

  /** An ADDED event that refuses a namespace which is being watched: the code skips it. */
  predicate Contradicts(t: Tree, l: Label) {
    l.Added? && !IsNamespaceAllowed(t.ns.behavior, l.tag) && l.ns in t.ns.watchers
  }

  predicate NeverContradicts(t: Tree, ls: seq<Label>)
    decreases |ls|
  {
    ls == [] || !Enabled(t, ls[0]) || (!Contradicts(t, ls[0]) && NeverContradicts(Step(t, ls[0]), ls[1..]))
  }

  /** The keys of the map agree with the picture now and after every further step. */
  predicate AgreesThroughout(t: Tree, p: Picture, ls: seq<Label>)
    decreases |ls|
  {
    && t.ns.watchers.Keys == Expected(p, t.ns.behavior)
    && (ls == [] || !Enabled(t, ls[0]) ||
        AgreesThroughout(Step(t, ls[0]), See(p, t.ns.behavior, ls[0]), ls[1..]))
  }

  /** The expected set gains or loses the namespace of the event, and nothing else. */
  lemma SeeLabel(p: Picture, behavior: string, ns: string, tag: Option<string>)
    ensures See(p, behavior, Added(ns, tag)) == See(p, behavior, Modified(ns, tag))
    ensures Expected(See(p, behavior, Added(ns, tag)), behavior) ==
            if IsNamespaceAllowed(behavior, tag) then Expected(p, behavior) + {ns} else Expected(p, behavior) - {ns}
  {
  }

  lemma SeeRemoval(p: Picture, behavior: string, ns: string)
    ensures Expected(See(p, behavior, Deleted(ns)), behavior) == Expected(p, behavior) - {ns}
    ensures Expected(See(p, behavior, Evict(ns)), behavior) == Expected(p, behavior) - {ns}
    ensures Expected(See(p, behavior, StopNext(ns)), behavior) == Expected(p, behavior) - {ns}
  {
  }

  /** What a step does to the keys. */
  function KeysAfter(t: Tree, l: Label): set<string> {
    var keys := t.ns.watchers.Keys;
    match l
    case Added(ns, tag) => if IsNamespaceAllowed(t.ns.behavior, tag) then keys + {ns} else keys
    case Modified(ns, tag) => if IsNamespaceAllowed(t.ns.behavior, tag) then keys + {ns} else keys - {ns}
    case Deleted(ns) => keys - {ns}
    case Evict(ns) => keys - {ns}
    case StopNext(ns) => keys - {ns}
    case _ => keys
  }

  lemma StepMovesKeys(t: Tree, l: Label)
    requires Enabled(t, l)
    ensures Step(t, l).ns.watchers.Keys == KeysAfter(t, l) && Step(t, l).ns.behavior == t.ns.behavior
  {
  }

  lemma StepAgreesIffConsistent(t: Tree, p: Picture, l: Label)
    requires Enabled(t, l) && t.ns.watchers.Keys == Expected(p, t.ns.behavior)
    ensures Step(t, l).ns.behavior == t.ns.behavior
    ensures Step(t, l).ns.watchers.Keys == Expected(See(p, t.ns.behavior, l), t.ns.behavior) <==> !Contradicts(t, l)
  {
    StepMovesKeys(t, l);
    KeysAgreeAfter(t, p, l);
  }

  lemma KeysAgreeAfter(t: Tree, p: Picture, l: Label)
    requires t.ns.watchers.Keys == Expected(p, t.ns.behavior) && (l.Rewatched? ==> t.ns.watchers == map[])
    ensures KeysAfter(t, l) == Expected(See(p, t.ns.behavior, l), t.ns.behavior) <==> !Contradicts(t, l)
  {
    match l
    case Added(ns, tag) =>
      SeeLabel(p, t.ns.behavior, ns, tag);
      assert Contradicts(t, l) ==> ns in KeysAfter(t, l);
    case Modified(ns, tag) => SeeLabel(p, t.ns.behavior, ns, tag);
    case Deleted(ns) => SeeRemoval(p, t.ns.behavior, ns);
    case Evict(ns) => SeeRemoval(p, t.ns.behavior, ns);
    case StopNext(ns) => SeeRemoval(p, t.ns.behavior, ns);
    case Rewatched(_) => assert Expected(BLANK, t.ns.behavior) == {};
    case _ =>
  }

  /** The watched namespaces are the existing, accepted and not evicted ones after every step of
      a run if and only if no ADDED event refuses a namespace that is being watched. */
  lemma {:induction false} KeysAgreeIffConsistent(t: Tree, p: Picture, ls: seq<Label>)
    requires t.ns.watchers.Keys == Expected(p, t.ns.behavior)
    ensures AgreesThroughout(t, p, ls) <==> NeverContradicts(t, ls)
    decreases |ls|
  {
    if ls != [] && Enabled(t, ls[0]) {
      StepAgreesIffConsistent(t, p, ls[0]);
      if !Contradicts(t, ls[0]) {
        KeysAgreeIffConsistent(Step(t, ls[0]), See(p, t.ns.behavior, ls[0]), ls[1..]);
      }
    }
  }

  /** The API server's discipline: ADDED only for a namespace it has not announced, counting from
      the last restart. */
  predicate WellFormedStream(p: Picture, behavior: string, ls: seq<Label>)
    decreases |ls|
  {
    ls == [] ||
      ((ls[0].Added? ==> ls[0].ns !in p.known) && WellFormedStream(See(p, behavior, ls[0]), behavior, ls[1..]))
  }

  lemma {:induction false} WellFormedNeverContradicts(t: Tree, p: Picture, ls: seq<Label>)
    requires t.ns.watchers.Keys == Expected(p, t.ns.behavior)
    requires WellFormedStream(p, t.ns.behavior, ls)
    ensures NeverContradicts(t, ls)
    decreases |ls|
  {
    if ls != [] && Enabled(t, ls[0]) {
      StepAgreesIffConsistent(t, p, ls[0]);
      WellFormedNeverContradicts(Step(t, ls[0]), See(p, t.ns.behavior, ls[0]), ls[1..]);
    }
  }

  /** For every well-formed stream, restarts included, the keys agree after every step. */
  lemma WellFormedKeysAgree(behavior: string, ls: seq<Label>)
    requires WellFormedStream(BLANK, behavior, ls)
    ensures AgreesThroughout(Root(behavior), BLANK, ls)
  {
    assert Expected(BLANK, behavior) == {};
    WellFormedNeverContradicts(Root(behavior), BLANK, ls);
    KeysAgreeIffConsistent(Root(behavior), BLANK, ls);
  }

  /** Keys deleted since the last reset of the gauge without lowering it. */
  function Skipped(ls: seq<Label>): nat {
    if ls == [] then 0 else SkippedAfter(Skipped(ls[..|ls| - 1]), ls[|ls| - 1])
  }

  function SkippedAfter(before: nat, l: Label): nat {
    match l
    case Evict(_) => before + 1
    case StopNext(_) => before + 1
    case Rewatched(_) => 0
    case _ => before
  }

  /** By how much the gauge of active CrdWatchers exceeds the number of keys; a watcher that is
      in the map but not launched yet is not counted. */
  function Drift(t: Tree): int {
    t.ns.cmcActive + (if t.pc.Starting? then 1 else 0) - |t.ns.watchers.Keys|
  }

  lemma AddedKey(k: set<string>, n: string)
    requires n !in k
    ensures |k + {n}| == |k| + 1
  {
  }

  lemma RemovedKey(k: set<string>, n: string)
    requires n in k
    ensures |k - {n}| == |k| - 1
  {
  }

  lemma DriftOfAdd(t: Tree, ns: string)
    requires t.pc.Select?
    ensures Drift(TryAdd(t.ns, ns)) == Drift(t)
  {
    if ns !in t.ns.watchers {
      assert TryAdd(t.ns, ns).ns.watchers.Keys == t.ns.watchers.Keys + {ns};
      AddedKey(t.ns.watchers.Keys, ns);
    }
  }

  lemma DriftOfRemove(t: Tree, ns: string)
    requires t.pc.Select? && (ns in t.ns.watchers ==> t.ns.Owns(ns))
    ensures Drift(Tree(RemoveWatcher(t.ns, ns).0, Head)) == Drift(t)
  {
    if ns in t.ns.watchers {
      assert RemoveWatcher(t.ns, ns).0.watchers.Keys == t.ns.watchers.Keys - {ns};
      RemovedKey(t.ns.watchers.Keys, ns);
    }
  }

  lemma DriftOfStep(t: Tree, l: Label)
    requires Enabled(t, l) && Drift(t) >= 0
    ensures Drift(Step(t, l)) == SkippedAfter(Drift(t), l)
  {
    match l
    case Added(ns, tag) => if IsNamespaceAllowed(t.ns.behavior, tag) { DriftOfAdd(t, ns); }
    case Modified(ns, tag) =>
      if IsNamespaceAllowed(t.ns.behavior, tag) { DriftOfAdd(t, ns); } else { DriftOfRemove(t, ns); }
    case Deleted(ns) => DriftOfRemove(t, ns);
    case Evict(ns) => StopRemovesKey(t, ns);
    case StopNext(ns) => StopRemovesKey(t, ns);
    case _ =>
  }

  lemma StopRemovesKey(t: Tree, ns: string)
    requires t.ns.Owns(ns)
    ensures |StopEntry(t.ns, ns).watchers.Keys| == |t.ns.watchers.Keys| - 1
  {
    assert StopEntry(t.ns, ns).watchers.Keys == t.ns.watchers.Keys - {ns};
    RemovedKey(t.ns.watchers.Keys, ns);
  }

  /** The gauge is too high by exactly the keys that cleanUp and the stop loops have deleted
      since the last restart, so it is right if and only if there are none. */
  lemma {:induction false} ActiveGaugeDrift(behavior: string, ls: seq<Label>)
    requires Run(Root(behavior), ls).Some?
    ensures Drift(Run(Root(behavior), ls).value) == Skipped(ls)
    decreases |ls|
  {
    if ls != [] {
      var ls0, l := ls[..|ls| - 1], ls[|ls| - 1];
      assert ls == ls0 + [l];
      RunConcat(Root(behavior), ls0, [l]);
      ActiveGaugeDrift(behavior, ls0);
      var t := Run(Root(behavior), ls0).value;
      assert [l][1..] == [];
      assert Run(t, [l]) == Some(Step(t, l));
      DriftOfStep(t, l);
    }
  }

  // ---- cleanUp ----

  /** The steps with which cleanUp deals with one key. */
  function Dealing(s: Ns, n: string): seq<Label> {
    if Alive(s, n) then [Spare(n)] else [FoundIdle(n), Evict(n)]
  }

  lemma RunTwo(t: Tree, a: Label, b: Label, rest: seq<Label>)
    requires Enabled(t, a) && Enabled(Step(t, a), b)
    ensures Run(t, [a, b] + rest) == Run(Step(Step(t, a), b), rest)
  {
    assert ([a, b] + rest)[1..] == [b] + rest && ([b] + rest)[1..] == rest;
  }

  lemma DealingRuns(s: Ns, done: set<string>, todo: set<string>, n: string, rest: seq<Label>)
    requires Injective(s) && n in todo && n !in done && Reachable(s, n)
    ensures Run(Tree(StopEntries(s, done), Cleaning(todo)), Dealing(s, n) + rest)
            == Run(Tree(StopEntries(s, if Alive(s, n) then done else done + {n}), Cleaning(todo - {n})), rest)
  {
    OthersUntouched(s, done, n);
    StopEntriesAdd(s, done, n);
    var t := Tree(StopEntries(s, done), Cleaning(todo));
    if Alive(s, n) {
      assert ([Spare(n)] + rest)[1..] == rest;
    } else {
      RunTwo(t, FoundIdle(n), Evict(n), rest);
    }
  }

  lemma {:induction false} CleanUpSomeRuns(s: Ns, done: set<string>, todo: set<string>) returns (ls: seq<Label>)
    requires Injective(s) && done !! todo && todo <= s.watchers.Keys
    requires forall n :: n in todo ==> Reachable(s, n)
    requires forall n :: n in s.watchers && n !in todo ==> (n in done <==> !Alive(s, n))
    requires done <= s.watchers.Keys
    ensures Run(Tree(StopEntries(s, done), Cleaning(todo)), ls + [CleanUpEnd])
            == Some(Tree(StopEntries(s, set n | n in s.watchers && !Alive(s, n)), Head))
    decreases todo
  {
    if todo == {} {
      ls := [];
      assert done == set n | n in s.watchers && !Alive(s, n);
      assert ([] + [CleanUpEnd])[1..] == [];
      return;
    }
    var n :| n in todo;
    var rest := CleanUpSomeRuns(s, if Alive(s, n) then done else done + {n}, todo - {n});
    DealingRuns(s, done, todo, n, rest + [CleanUpEnd]);
    ls := Dealing(s, n) + rest;
    assert ls + [CleanUpEnd] == Dealing(s, n) + (rest + [CleanUpEnd]);
  }

  /** cleanUp is a run of the machine, from its tick to its end: of the keys whose CrdWatcher can be
      asked, exactly those whose watcher does not say that it is running are stopped once and
      deleted. */
  lemma CleanUpIsRun(t: Tree) returns (ls: seq<Label>)
    requires Inv(t) && t.pc.Select? && forall n :: n in t.ns.watchers ==> Reachable(t.ns, n)
    ensures Run(t, [CleanUpTick] + ls + [CleanUpEnd]).Some?
    ensures var u := Run(t, [CleanUpTick] + ls + [CleanUpEnd]).value;
            && u.pc == Head
            && Without(t.ns, u.ns, set n | n in t.ns.watchers && !Alive(t.ns, n))
  {
    MapIsInjective(t);
    StopNoEntries(t.ns);
    ls := CleanUpSomeRuns(t.ns, {}, t.ns.watchers.Keys);
    assert ([CleanUpTick] + ls + [CleanUpEnd])[1..] == ls + [CleanUpEnd];
    StopEntriesMeans(t.ns, set n | n in t.ns.watchers && !Alive(t.ns, n));
  }

  lemma MapIsInjective(t: Tree)
    requires Inv(t)
    ensures Injective(t.ns)
  {
    forall n | n in t.ns.watchers ensures EntryLinked(t.ns, n) {}
  }
}
