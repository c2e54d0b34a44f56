/** One CrdWatcher running: its Start loop as a program-counter machine whose steps are the
    critical sections of CrdState, interleaved with the steps of its leaf goroutines and with calls
    of Stop.  Every run of labels is an interleaving.
 */
module CrdProtocol {
  import opened Common
  import opened Children
  import opened CrdState

  /** `Starting` is the gap between addWatcher and startWatcher; in `Tuning` modifyWatcher has made
      the first k of its four setter calls; `Cleaning`, `Restarting` and
      `Draining` are the loops over the map; `Failing` is the gap after a restart that could not open
      a new watch; `Joining` is the final wait; `Aborted` is the
      return after an event that handleEvent cannot recover from. */
  datatype Pc =
    | Unstarted | Opening | Head | Select | Starting(name: string) | Tuning(cfg: Configuration, k: nat)
    | Cleaning(todo: set<string>)
    | Restarting | Failing | Draining | Joining | Returned | Aborted

  datatype Machine = Machine(crd: Crd, pc: Pc)

  const FRESH := Machine(EMPTY, Unstarted)

  datatype Label =
    | StartCalled | StopCalled
    | Open(ok: bool) | CheckRunning
    | Added(cfg: Configuration, get: Option<Target>) | StartChild
    | Modified(cfg: Configuration, get: Option<Target>) | SetNext | Deleted(cfg: Configuration)
    | OtherEvent | ErrorEvent | ForeignObject
    | WatchClosed | Rewatched(ok: bool) | GiveUp | StopNext(name: string)
    | CleanUpTick | Reap(name: string) | Spare(name: string) | CleanUpEnd
    | ContextDone | ForceWake
    | AllStopped | Joined
    | Leaf(i: nat, move: Move)

  /** The mutex is held from the first to the last step of these loops. */
  predicate Locked(pc: Pc) { pc.Tuning? || pc.Cleaning? || pc.Restarting? }

  predicate Enabled(m: Machine, l: Label) {
    var s := m.crd;
    match l
    case StartCalled => m.pc.Unstarted?
    case StopCalled => !Locked(m.pc)
    case Open(_) => m.pc.Opening?
    case CheckRunning => m.pc.Head?
    case Added(_, _) => m.pc.Select?
    case StartChild => m.pc.Starting? && s.Owns(m.pc.name)
    case Modified(cfg, _) => m.pc.Select? && (cfg.deployment in s.watchers ==> s.Owns(cfg.deployment))
    case SetNext => m.pc.Tuning? && m.pc.k < 4 && s.Owns(m.pc.cfg.deployment)
    case Deleted(cfg) => m.pc.Select? && (cfg.deployment in s.watchers ==> s.Owns(cfg.deployment))
    case OtherEvent | ErrorEvent | ForeignObject | WatchClosed | CleanUpTick | ContextDone => m.pc.Select?
    case ForceWake => m.pc.Select? && s.Closed()
    case Rewatched(_) => m.pc.Restarting? && s.watchers == map[] && s.wg == 0
    case GiveUp => m.pc.Failing?
    case StopNext(name) => (m.pc.Restarting? || m.pc.Draining?) && s.Owns(name)
    case Reap(name) => Examining(m, name) && !s.pool[s.watchers[name].child].running
    case Spare(name) => Examining(m, name) && s.pool[s.watchers[name].child].running
    case CleanUpEnd => m.pc.Cleaning? && m.pc.todo == {}
    case AllStopped => m.pc.Draining? && s.watchers == map[]
    case Joined => m.pc.Joining? && s.wg == 0
    case Leaf(i, move) => i < |s.pool| && CanMove(s.pool[i], move)
  }

  predicate Examining(m: Machine, name: string) {
    m.pc.Cleaning? && name in m.pc.todo && m.crd.Owns(name)
  }

  function Step(m: Machine, l: Label): Machine
    requires Enabled(m, l)
  {
    var s := m.crd;
    match l
    case StartCalled => Machine(s.(starts := s.starts + 1), Opening)
    case StopCalled => Machine(StopCrd(s), m.pc)
    case Open(ok) => if ok then Machine(s.(running := true), Head) else Machine(s, Returned)
    case CheckRunning => Machine(s, if s.running then Select else Draining)
    case Added(cfg, get) =>
      if get.None? then Machine(s, Head)
      else
        var (s1, added) := AddWatcher(s, cfg, get.value);
        Machine(s1, if added then Starting(get.value.name) else Head)
    case StartChild => Machine(StartWatcher(s, m.pc.name).0, Head)
    case Modified(cfg, get) =>
      if SameMode(s, cfg) then Machine(s, Tuning(cfg, 0)) else Machine(ModifyWatcher(s, cfg, get).0, Head)
    case SetNext =>
      Machine(TuneEntry(s, m.pc.cfg.deployment, Reconfiguration(m.pc.cfg)[m.pc.k]),
              if m.pc.k == 3 then Head else Tuning(m.pc.cfg, m.pc.k + 1))
    case Deleted(cfg) => Machine(DeleteWatcher(s, cfg).0, Head)
    case OtherEvent => Machine(s, Head)
    case ErrorEvent => Machine(s.(running := false), Aborted)
    case ForeignObject => Machine(s, Aborted)
    case WatchClosed => Machine(s, Restarting)
    case Rewatched(ok) => Machine(s, if ok then Head else Failing)
    case StopNext(name) => Machine(StopEntry(s, name), m.pc)
    case CleanUpTick => Machine(s, Cleaning(s.watchers.Keys))
    case Reap(name) => Machine(ReapEntry(s, name), Cleaning(m.pc.todo - {name}))
    case Spare(name) => Machine(s, Cleaning(m.pc.todo - {name}))
    case CleanUpEnd => Machine(s, Head)
    case GiveUp | ContextDone | ForceWake => Machine(s.(running := false), Head)
    case AllStopped => Machine(s, Joining)
    case Joined => Machine(s, Returned)
    case Leaf(i, move) => Machine(MoveIn(s, i, move), m.pc)
  }

  ghost predicate Inv(m: Machine) {
    && Linked(m.crd)
    && Balanced(m.crd)
    && Placed(m)
    && (forall i :: 0 <= i < |m.crd.pool| ==> (m.crd.pool[i].phase.Created? ==> BeingStarted(m, i)))
  }

  /** What the program counter tells about the rest of the state. */
  ghost predicate Placed(m: Machine) {
    var s := m.crd;
    && (m.pc.Unstarted? <==> s.starts == 0)
    && s.starts <= 1
    && (m.pc.Unstarted? || m.pc.Opening? ==> s.pool == [] && s.watchers == map[] && !s.running)
    && (m.pc.Starting? ==> s.Owns(m.pc.name) && s.pool[s.watchers[m.pc.name].child].phase.Created?)
    && (m.pc.Tuning? ==>
          && m.pc.k < 4 && s.Owns(m.pc.cfg.deployment)
          && Halfway(s.pool[s.watchers[m.pc.cfg.deployment].child], m.pc.cfg, m.pc.k))
    && (m.pc.Cleaning? ==> m.pc.todo <= s.watchers.Keys)
    && (m.pc.Joining? || m.pc.Returned? ==> s.watchers == map[])
    && (m.pc.Returned? ==> s.wg == 0)
  }

  /** The first k of the four settings are those of the configuration. */
  predicate Halfway(c: Child, cfg: Configuration, k: nat) {
    && (k > 0 ==> c.settings.enabled == cfg.enabled)
    && (k > 1 && c.kind.Deployment? ==> c.settings.minReplicas == cfg.minReplicas)
    && (k > 2 && c.kind.Deployment? ==> c.settings.maxReplicas == cfg.maxReplicas)
  }

  ghost predicate BeingStarted(m: Machine, i: nat) {
    m.pc.Starting? && m.pc.name in m.crd.watchers && m.crd.watchers[m.pc.name].child == i
  }

  lemma LinkedReadsMapAndPool(s: Crd, t: Crd)
    requires Linked(s) && s.watchers == t.watchers && s.pool == t.pool
    ensures Linked(t)
  {
    forall n | n in t.watchers ensures EntryLinked(t, n) { assert EntryLinked(s, n); }
    forall i | 0 <= i < |t.pool| ensures ChildLinked(t, i) { assert ChildLinked(s, i); }
  }

  lemma InsertKeepsLinked(s: Crd, name: string, k: Kind, cfg: Configuration)
    requires Linked(s) && name !in s.watchers && KindOf(cfg.scalingMode) == Some(k)
    ensures Linked(Insert(s, name, k, cfg))
  {
    var t := Insert(s, name, k, cfg);
    forall n | n in t.watchers ensures EntryLinked(t, n) {
      if n != name { assert EntryLinked(s, n); }
    }
    forall i | 0 <= i < |t.pool| ensures ChildLinked(t, i) {
      if i < |s.pool| { assert ChildLinked(s, i); }
    }
  }

  /** A leaf that stays kept, with its kind and owner, stays linked. */
  lemma KeptChangeKeepsLinked(s: Crd, i: nat, c: Child)
    requires Linked(s) && i < |s.pool| && WellFormed(c)
    requires c.kind == s.pool[i].kind && c.owner == s.pool[i].owner && c.mark == s.pool[i].mark
    ensures Linked(WithChild(s, i, c))
  {
    var t := WithChild(s, i, c);
    forall n | n in t.watchers ensures EntryLinked(t, n) { assert EntryLinked(s, n); }
    forall j | 0 <= j < |t.pool| ensures ChildLinked(t, j) { assert ChildLinked(s, j); }
  }

  /** Taking a key out of the map and marking its leaf keeps everything linked. */
  lemma RemovalKeepsLinked(s: Crd, name: string, c: Child)
    requires Linked(s) && s.Owns(name) && WellFormed(c) && !c.mark.Kept?
    ensures Linked(WithChild(s, s.watchers[name].child, c).(watchers := s.watchers - {name}))
  {
    var t := WithChild(s, s.watchers[name].child, c).(watchers := s.watchers - {name});
    assert EntryLinked(s, name);
    forall n | n in t.watchers ensures EntryLinked(t, n) { assert EntryLinked(s, n); }
    forall j | 0 <= j < |t.pool| ensures ChildLinked(t, j) { assert ChildLinked(s, j); }
  }

  lemma StopEntryKeeps(s: Crd, name: string)
    requires Linked(s) && Balanced(s) && s.Owns(name)
    ensures Linked(StopEntry(s, name)) && Balanced(StopEntry(s, name))
  {
    var i := s.watchers[name].child;
    assert EntryLinked(s, name) && ChildLinked(s, i);
    RemovalKeepsLinked(s, name, StopChild(s.pool[i]));
    SteadyKeepsBalanced(s, i, StopChild(s.pool[i]));
  }

  lemma ReapEntryKeeps(s: Crd, name: string)
    requires Linked(s) && Balanced(s) && s.Owns(name) && !s.pool[s.watchers[name].child].running
    ensures Linked(ReapEntry(s, name)) && Balanced(ReapEntry(s, name))
  {
    var i := s.watchers[name].child;
    assert EntryLinked(s, name) && ChildLinked(s, i);
    RemovalKeepsLinked(s, name, ReapChild(s.pool[i]));
    SteadyKeepsBalanced(s, i, ReapChild(s.pool[i]));
  }

  lemma LaunchKeeps(s: Crd, name: string)
    requires Linked(s) && Balanced(s) && s.Owns(name)
    requires s.pool[s.watchers[name].child].phase.Created?
    ensures Linked(Launch(s, name)) && Balanced(Launch(s, name))
  {
    var i := s.watchers[name].child;
    assert EntryLinked(s, name) && ChildLinked(s, i);
    LaunchKeepsBalanced(s, name);
    var c := LaunchChild(s.pool[i]);
    KeptChangeKeepsLinked(s, i, c);
    LinkedReadsMapAndPool(WithChild(s, i, c), Launch(s, name));
  }

  /** The part of the invariant that does not depend on the program counter. */
  ghost predicate Sound(s: Crd) { Linked(s) && Balanced(s) }

  lemma SwitchKeepsSound(s: Crd, cfg: Configuration, k: Kind)
    requires Sound(s) && s.Owns(cfg.deployment) && KindOf(cfg.scalingMode) == Some(k)
    ensures Sound(Launch(Insert(StopEntry(s, cfg.deployment), cfg.deployment, k, cfg), cfg.deployment))
  {
    var name := cfg.deployment;
    StopEntryKeeps(s, name);
    var s1 := StopEntry(s, name);
    InsertKeepsLinked(s1, name, k, cfg);
    InsertKeepsBalanced(s1, name, k, cfg);
    LaunchKeeps(Insert(s1, name, k, cfg), name);
  }

  lemma TuningKeepsSound(s: Crd, cfg: Configuration)
    requires Sound(s) && s.Owns(cfg.deployment)
    ensures var i := s.watchers[cfg.deployment].child;
            Sound(WithChild(s, i, s.pool[i].(settings := Configured(s.pool[i].kind, s.pool[i].settings, cfg))))
  {
    var i := s.watchers[cfg.deployment].child;
    assert EntryLinked(s, cfg.deployment) && ChildLinked(s, i);
    var c := s.pool[i].(settings := Configured(s.pool[i].kind, s.pool[i].settings, cfg));
    KeptChangeKeepsLinked(s, i, c);
    SteadyKeepsBalanced(s, i, c);
  }

  lemma ModifyKeepsSound(s: Crd, cfg: Configuration, get: Option<Target>)
    requires Sound(s) && (cfg.deployment in s.watchers ==> s.Owns(cfg.deployment))
    ensures Sound(ModifyWatcher(s, cfg, get).0)
  {
    if cfg.deployment in s.watchers {
      if s.watchers[cfg.deployment].configuration.scalingMode == cfg.scalingMode {
        TuningKeepsSound(s, cfg);
      } else if get.Some? && KindOf(cfg.scalingMode).Some? {
        SwitchKeepsSound(s, cfg, KindOf(cfg.scalingMode).value);
      } else {
        StopEntryKeeps(s, cfg.deployment);
      }
    }
  }

  lemma ModifyLeavesNoneCreated(s: Crd, cfg: Configuration, get: Option<Target>)
    requires cfg.deployment in s.watchers ==> s.Owns(cfg.deployment)
    requires forall i :: 0 <= i < |s.pool| ==> !s.pool[i].phase.Created?
    ensures var t := ModifyWatcher(s, cfg, get).0;
            forall i :: 0 <= i < |t.pool| ==> !t.pool[i].phase.Created?
  {
  }

  lemma ModifyKeepsInv(m: Machine, cfg: Configuration, get: Option<Target>)
    requires Inv(m) && Enabled(m, Modified(cfg, get))
    ensures Inv(Step(m, Modified(cfg, get)))
  {
    if !SameMode(m.crd, cfg) {
      ModifyKeepsSound(m.crd, cfg, get);
      ModifyLeavesNoneCreated(m.crd, cfg, get);
      ModifyKeepsCounts(m.crd, cfg, get);
    }
  }

  lemma ModifyKeepsCounts(s: Crd, cfg: Configuration, get: Option<Target>)
    requires cfg.deployment in s.watchers ==> s.Owns(cfg.deployment)
    ensures ModifyWatcher(s, cfg, get).0.starts == s.starts
  {
  }

  lemma AddKeepsInv(m: Machine, cfg: Configuration, get: Option<Target>)
    requires Inv(m) && Enabled(m, Added(cfg, get))
    ensures Inv(Step(m, Added(cfg, get)))
  {
    var m' := Step(m, Added(cfg, get));
    if m'.pc.Starting? {
      InsertKeepsLinked(m.crd, get.value.name, KindOf(cfg.scalingMode).value, cfg);
      InsertKeepsBalanced(m.crd, get.value.name, KindOf(cfg.scalingMode).value, cfg);
      assert m'.crd.Owns(m'.pc.name);
    }
  }

  lemma LeafKeepsInv(m: Machine, i: nat, move: Move)
    requires Inv(m) && Enabled(m, Leaf(i, move))
    ensures Inv(Step(m, Leaf(i, move)))
  {
    MoveKeepsSound(m.crd, i, move);
    MoveKeepsPlaced(m, i, move);
  }

  lemma MoveKeepsSound(s: Crd, i: nat, move: Move)
    requires Sound(s) && i < |s.pool| && CanMove(s.pool[i], move)
    ensures Sound(MoveIn(s, i, move))
  {
    MoveKeepsBalanced(s, i, move);
    MoveKeepsLinked(s, i, move);
  }

  lemma MoveKeepsLinked(s: Crd, i: nat, move: Move)
    requires Linked(s) && i < |s.pool| && CanMove(s.pool[i], move)
    ensures Linked(MoveIn(s, i, move))
  {
    assert ChildLinked(s, i);
    var c := MoveChild(s.pool[i], move);
    KeptChangeKeepsLinked(s, i, c);
    LinkedReadsMapAndPool(WithChild(s, i, c), MoveIn(s, i, move));
  }

  lemma MoveKeepsPlaced(m: Machine, i: nat, move: Move)
    requires Placed(m) && i < |m.crd.pool| && CanMove(m.crd.pool[i], move)
    requires m.pc.Returned? ==> !move.Done?
    ensures Placed(Machine(MoveIn(m.crd, i, move), m.pc))
  {
  }

  lemma TuneKeepsSound(s: Crd, name: string, call: Call)
    requires Sound(s) && s.Owns(name) && !call.Stop?
    ensures Sound(TuneEntry(s, name, call))
  {
    var i := s.watchers[name].child;
    assert EntryLinked(s, name) && ChildLinked(s, i);
    KeptChangeKeepsLinked(s, i, CallChild(s.pool[i], call));
    SteadyKeepsBalanced(s, i, CallChild(s.pool[i], call));
  }

  lemma SetKeepsInv(m: Machine)
    requires Inv(m) && Enabled(m, SetNext)
    ensures Inv(Step(m, SetNext))
  {
    TuneKeepsSound(m.crd, m.pc.cfg.deployment, Reconfiguration(m.pc.cfg)[m.pc.k]);
  }

  lemma LaunchKeepsInv(m: Machine)
    requires Inv(m) && Enabled(m, StartChild)
    ensures Inv(Step(m, StartChild))
  {
    LaunchKeeps(m.crd, m.pc.name);
  }

  lemma DeleteKeepsInv(m: Machine, cfg: Configuration)
    requires Inv(m) && Enabled(m, Deleted(cfg))
    ensures Inv(Step(m, Deleted(cfg)))
  {
    if cfg.deployment in m.crd.watchers { StopEntryKeeps(m.crd, cfg.deployment); }
  }

  lemma StopNextKeepsInv(m: Machine, name: string)
    requires Inv(m) && Enabled(m, StopNext(name))
    ensures Inv(Step(m, StopNext(name)))
  {
    StopEntryKeeps(m.crd, name);
  }

  lemma ReapKeepsInv(m: Machine, name: string)
    requires Inv(m) && Enabled(m, Reap(name))
    ensures Inv(Step(m, Reap(name)))
  {
    ReapEntryKeeps(m.crd, name);
  }

  /** The steps that touch neither the map nor a leaf. */
  predicate Control(l: Label) {
    !l.Added? && !l.Modified? && !l.Deleted? && !l.StartChild? && !l.StopNext? && !l.Reap? && !l.Leaf?
    && !l.SetNext?
  }

  lemma ControlKeepsPlaced(m: Machine, l: Label)
    requires Placed(m) && Enabled(m, l) && Control(l) && Balanced(m.crd)
    ensures Placed(Step(m, l))
  {
  }

  lemma ControlTouchesNothing(m: Machine, l: Label)
    requires Enabled(m, l) && Control(l)
    ensures var s, t := m.crd, Step(m, l).crd;
            && t.watchers == s.watchers && t.pool == s.pool
            && t.spawned == s.spawned && t.active == s.active && t.wg == s.wg
    ensures m.pc.Starting? ==> Step(m, l).pc == m.pc
  {
  }

  lemma ControlKeepsInv(m: Machine, l: Label)
    requires Inv(m) && Enabled(m, l) && Control(l)
    ensures Inv(Step(m, l))
  {
    ControlTouchesNothing(m, l);
    LinkedReadsMapAndPool(m.crd, Step(m, l).crd);
    ControlKeepsPlaced(m, l);
  }

  lemma StepKeepsInv(m: Machine, l: Label)
    requires Inv(m) && Enabled(m, l)
    ensures Inv(Step(m, l))
  {
    match l
    case Added(cfg, get) => AddKeepsInv(m, cfg, get);
    case Modified(cfg, get) => ModifyKeepsInv(m, cfg, get);
    case SetNext => SetKeepsInv(m);
    case Deleted(cfg) => DeleteKeepsInv(m, cfg);
    case StartChild => LaunchKeepsInv(m);
    case StopNext(name) => StopNextKeepsInv(m, name);
    case Reap(name) => ReapKeepsInv(m, name);
    case Leaf(i, move) => LeafKeepsInv(m, i, move);
    case _ => ControlKeepsInv(m, l);
  }
}
