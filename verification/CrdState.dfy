/** The state of one CrdWatcher and the effect of each of its critical sections.

    A leaf object is identified by its index in `pool`, which lists every leaf ever created, so
    a new leaf is fresh by construction and a leaf that left the map stays observable.
 */
module CrdState {
  import opened Common
  import opened Children

  /** The Deployment that the API server answers with. */
  datatype Target = Target(name: string, labels: map<string, string>)

  datatype Entry = Entry(configuration: Configuration, child: nat)

  /** One number per kind of leaf: pw_*, dw_*, ah_*. */
  datatype Tally = Tally(pod: int, deployment: int, antiHpa: int)
  {
    function Of(k: Kind): int {
      match k case Pod => pod case Deployment => deployment case AntiHpa => antiHpa
    }

    function Add(k: Kind, n: int): Tally {
      match k
      case Pod => this.(pod := pod + n)
      case Deployment => this.(deployment := deployment + n)
      case AntiHpa => this.(antiHpa := antiHpa + n)
    }
  }

  /** `starts` and `stops` count the calls of Start and Stop; ForceStopChan is closed from the
      first Stop on, and a second Stop would close it again. */
  datatype Crd = Crd(
    watchers: map<string, Entry>, pool: seq<Child>, spawned: Tally, active: Tally, wg: int,
    running: bool, starts: nat, stops: nat)
  {
    predicate Closed() { stops > 0 }

    predicate Owns(name: string) { name in watchers && watchers[name].child < |pool| }
  }

  const EMPTY := Crd(map[], [], Tally(0, 0, 0), Tally(0, 0, 0), 0, false, 0, 0)

  function WithChild(s: Crd, i: nat, c: Child): Crd
    requires i < |s.pool|
  {
    s.(pool := s.pool[i := c])
  }

  /** Creates and configures a leaf and puts it into the map. */
  function Insert(s: Crd, name: string, k: Kind, cfg: Configuration): Crd {
    s.(watchers := s.watchers[name := Entry(cfg, |s.pool|)],
       pool := s.pool + [NewChild(k, name, cfg)],
       spawned := s.spawned.Add(k, 1))
  }

  /** Starts the goroutine of the leaf stored under `name`. */
  function Launch(s: Crd, name: string): Crd
    requires s.Owns(name)
  {
    var i := s.watchers[name].child;
    WithChild(s, i, LaunchChild(s.pool[i]))
    .(active := s.active.Add(s.pool[i].kind, 1), wg := s.wg + 1)
  }

  /** addWatcher.  The error of a killPod configuration without labels comes before the counter,
      and after the counter nothing can fail. */
  function AddWatcher(s: Crd, cfg: Configuration, dep: Target): (Crd, bool) {
    if dep.name in s.watchers then (s, false)
    else match KindOf(cfg.scalingMode)
      case None => (s, false)
      case Some(k) =>
        if k.Pod? && |dep.labels| == 0 then (s, false) else (Insert(s, dep.name, k, cfg), true)
  }

  function StartWatcher(s: Crd, name: string): (Crd, bool)
    requires name in s.watchers ==> s.Owns(name)
  {
    if name !in s.watchers then (s, false) else (Launch(s, name), true)
  }

  /** Calls Stop on the leaf stored under `name` and deletes the key. */
  function StopEntry(s: Crd, name: string): Crd
    requires s.Owns(name)
  {
    var i := s.watchers[name].child;
    WithChild(s, i, StopChild(s.pool[i])).(watchers := s.watchers - {name})
  }

  /** cleanUp's treatment of a key whose leaf is not running: deleted, but not stopped. */
  function ReapEntry(s: Crd, name: string): Crd
    requires s.Owns(name)
  {
    var i := s.watchers[name].child;
    WithChild(s, i, ReapChild(s.pool[i])).(watchers := s.watchers - {name})
  }

  /** The part of modifyWatcher that replaces the leaf. */
  function SwitchWatcher(s: Crd, cfg: Configuration, get: Option<Target>): (Crd, bool)
    requires s.Owns(cfg.deployment)
  {
    var s1 := StopEntry(s, cfg.deployment);
    if get.None? then (s1, false)
    else match KindOf(cfg.scalingMode)
      case None => (s1, false)
      case Some(k) => (Launch(Insert(s1, cfg.deployment, k, cfg), cfg.deployment), true)
  }

  /** modifyWatcher.  Mode changes are detected against the stored configuration, which the
      same-mode branch leaves as it was; the old leaf is stopped and forgotten before anything
      that can fail, and the labels are not checked here. */
  function ModifyWatcher(s: Crd, cfg: Configuration, get: Option<Target>): (Crd, bool)
    requires cfg.deployment in s.watchers ==> s.Owns(cfg.deployment)
  {
    var name := cfg.deployment;
    if name !in s.watchers then (s, false)
    else if SameMode(s, cfg) then (Retuned(s, cfg), true)
    else SwitchWatcher(s, cfg, get)
  }

  /** The configuration stored for the deployment names the same scaling mode. */
  predicate SameMode(s: Crd, cfg: Configuration) {
    cfg.deployment in s.watchers && s.watchers[cfg.deployment].configuration.scalingMode == cfg.scalingMode
  }

  /** One setter call on the leaf stored under `name`. */
  function TuneEntry(s: Crd, name: string, call: Call): Crd
    requires s.Owns(name)
  {
    var i := s.watchers[name].child;
    WithChild(s, i, CallChild(s.pool[i], call))
  }

  /** All four of them. */
  function Retuned(s: Crd, cfg: Configuration): Crd
    requires s.Owns(cfg.deployment)
  {
    var i := s.watchers[cfg.deployment].child;
    var c := s.pool[i];
    WithChild(s, i, c.(settings := Configured(c.kind, c.settings, cfg)))
  }

  function DeleteWatcher(s: Crd, cfg: Configuration): (Crd, bool)
    requires cfg.deployment in s.watchers ==> s.Owns(cfg.deployment)
  {
    if cfg.deployment in s.watchers then (StopEntry(s, cfg.deployment), true) else (s, false)
  }

  /** Some key of `names` points to leaf i. */
  ghost predicate Reaches(s: Crd, names: set<string>, i: nat) {
    exists n :: n in names && n in s.watchers && s.watchers[n].child == i
  }

  /** Stops the leaves of all keys in `names` and deletes the keys. */
  ghost function StopEntries(s: Crd, names: set<string>): Crd {
    s.(watchers := s.watchers - names,
       pool := seq(|s.pool|, i requires 0 <= i < |s.pool| =>
                 if Reaches(s, names, i) then StopChild(s.pool[i]) else s.pool[i]))
  }

  /** The keys whose leaf is not running. */
  ghost function Idle(s: Crd, names: set<string>): set<string> {
    set n | n in names && s.Owns(n) && !s.pool[s.watchers[n].child].running
  }

  /** Reaps the leaves of the keys in `names` that are not running. */
  ghost function ReapEntries(s: Crd, names: set<string>): Crd {
    var idle := Idle(s, names);
    s.(watchers := s.watchers - idle,
       pool := seq(|s.pool|, i requires 0 <= i < |s.pool| =>
                 if Reaches(s, idle, i) then ReapChild(s.pool[i]) else s.pool[i]))
  }

  lemma StopNoEntries(s: Crd)
    ensures StopEntries(s, {}) == s
  {
    assert StopEntries(s, {}).pool == s.pool;
    assert StopEntries(s, {}).watchers == s.watchers;
  }

  lemma ReapNoEntries(s: Crd)
    ensures ReapEntries(s, {}) == s
  {
    assert ReapEntries(s, {}).pool == s.pool;
    assert ReapEntries(s, {}).watchers == s.watchers;
  }

  /** Stopping key after key gives the effect on the whole set, in whatever order. */
  lemma StopEntriesAdd(s: Crd, done: set<string>, name: string)
    requires s.Owns(name) && name !in done
    ensures StopEntries(s, done).Owns(name)
    ensures StopEntry(StopEntries(s, done), name) == StopEntries(s, done + {name})
  {
    var a, b := StopEntry(StopEntries(s, done), name), StopEntries(s, done + {name});
    forall i | 0 <= i < |s.pool| ensures a.pool[i] == b.pool[i] {
      if s.watchers[name].child == i {
        assert Reaches(s, done + {name}, i);
      } else if Reaches(s, done + {name}, i) {
        var n :| n in done + {name} && n in s.watchers && s.watchers[n].child == i;
        assert n in done && Reaches(s, done, i);
      }
    }
    assert a.pool == b.pool;
    assert a.watchers == b.watchers;
  }

  lemma ReapEntriesAdd(s: Crd, done: set<string>, name: string)
    requires s.Owns(name) && name !in done
    ensures var t := ReapEntries(s, done);
            && t.Owns(name)
            && t.pool[t.watchers[name].child].running == s.pool[s.watchers[name].child].running
            && ReapEntries(s, done + {name}) ==
               if s.pool[s.watchers[name].child].running then t else ReapEntry(t, name)
  {
    var t := ReapEntries(s, done);
    var c := s.watchers[name].child;
    assert name in t.watchers && t.watchers[name] == s.watchers[name];
    var b := ReapEntries(s, done + {name});
    if s.pool[c].running {
      assert Idle(s, done + {name}) == Idle(s, done);
    } else {
      var idle := Idle(s, done);
      assert Idle(s, done + {name}) == idle + {name};
      var a := ReapEntry(t, name);
      forall i | 0 <= i < |s.pool| ensures a.pool[i] == b.pool[i] {
        if c == i {
          assert Reaches(s, idle + {name}, i);
        } else if Reaches(s, idle + {name}, i) {
          var n :| n in idle + {name} && n in s.watchers && s.watchers[n].child == i;
          assert n in idle && Reaches(s, idle, i);
        }
      }
      assert a.pool == b.pool;
      assert a.watchers == b.watchers;
    }
  }

  /** A watch event with the answer that Get would give for its deployment.  `Blank` is an empty
      or error event that carries a configuration, `Foreign` any event, of whatever type, whose object
      is not one: the object is looked at first. */
  datatype Event =
    | AddedEvent(cfg: Configuration, get: Option<Target>)
    | ModifiedEvent(cfg: Configuration, get: Option<Target>)
    | DeletedEvent(cfg: Configuration)
    | Unhandled | Blank | Foreign

  /** handleEvent: the new state, and whether the error is one that Start cannot recover from. */
  function HandleEvent(s: Crd, e: Event): (Crd, bool)
    requires forall n :: n in s.watchers ==> s.Owns(n)
  {
    match e
    case AddedEvent(cfg, None) => (s, false)
    case AddedEvent(cfg, Some(dep)) =>
      var (s1, added) := AddWatcher(s, cfg, dep);
      (if added then StartWatcher(s1, dep.name).0 else s, false)
    case ModifiedEvent(cfg, get) => (ModifyWatcher(s, cfg, get).0, false)
    case DeletedEvent(cfg) => (DeleteWatcher(s, cfg).0, false)
    case Unhandled => (s, false)
    case Blank => (s.(running := false), true)
    case Foreign => (s, true)
  }

  /** Stop, as the NamespaceWatcher calls it. */
  function StopCrd(s: Crd): Crd {
    s.(running := false, stops := s.stops + 1)
  }

  /** Every key points to its own leaf, which is still kept and has the kind that the stored,
      possibly outdated, configuration names; and every kept leaf is in the map. */
  ghost predicate Linked(s: Crd) {
    && (forall n {:trigger EntryLinked(s, n)} :: n in s.watchers ==> EntryLinked(s, n))
    && (forall i {:trigger ChildLinked(s, i)} :: 0 <= i < |s.pool| ==> ChildLinked(s, i))
  }

  ghost predicate EntryLinked(s: Crd, n: string)
    requires n in s.watchers
  {
    var e := s.watchers[n];
    && e.child < |s.pool|
    && s.pool[e.child].owner == n
    && s.pool[e.child].mark.Kept?
    && KindOf(e.configuration.scalingMode) == Some(s.pool[e.child].kind)
  }

  ghost predicate ChildLinked(s: Crd, i: nat)
    requires i < |s.pool|
  {
    && WellFormed(s.pool[i])
    && (s.pool[i].mark.Kept? ==>
          && s.pool[i].owner in s.watchers
          && s.watchers[s.pool[i].owner].child == i)
  }

  /** Questions whose answers the counters must agree with. */
  datatype Census = Born(k: Kind) | Unlaunched(k: Kind) | Live(k: Kind) | Gone(k: Kind) | Pending

  predicate Counts(c: Child, q: Census) {
    match q
    case Born(k) => c.kind == k
    case Live(k) => c.kind == k && c.Gauged()
    case Unlaunched(k) => c.kind == k && c.phase.Created?
    case Gone(k) => c.kind == k && (c.phase.Decremented? || c.phase.Finished?)
    case Pending => c.Unfinished()
  }

  function Count(pool: seq<Child>, q: Census): nat {
    if pool == [] then 0
    else Count(pool[..|pool| - 1], q) + (if Counts(pool[|pool| - 1], q) then 1 else 0)
  }

  lemma {:induction false} CountUpdate(pool: seq<Child>, i: nat, c: Child, q: Census)
    requires i < |pool|
    ensures Count(pool[i := c], q) ==
            Count(pool, q) - (if Counts(pool[i], q) then 1 else 0) + (if Counts(c, q) then 1 else 0)
  {
    var n := |pool| - 1;
    if i == n {
      assert pool[i := c][..n] == pool[..n];
    } else {
      assert pool[i := c][..n] == pool[..n][i := c];
      CountUpdate(pool[..n], i, c, q);
    }
  }

  lemma CountAppend(pool: seq<Child>, c: Child, q: Census)
    ensures Count(pool + [c], q) == Count(pool, q) + (if Counts(c, q) then 1 else 0)
  {
    assert (pool + [c])[..|pool|] == pool;
  }

  lemma {:induction false} CountPositive(pool: seq<Child>, i: nat, q: Census)
    requires i < |pool| && Counts(pool[i], q)
    ensures Count(pool, q) > 0
  {
    if i < |pool| - 1 {
      CountPositive(pool[..|pool| - 1], i, q);
    }
  }

  /** Every leaf created is waiting for its launch, counted in the gauge, or past its Dec. */
  lemma {:induction false} BornSplits(pool: seq<Child>, k: Kind)
    ensures Count(pool, Born(k)) == Count(pool, Unlaunched(k)) + Count(pool, Live(k)) + Count(pool, Gone(k))
  {
    if pool != [] { BornSplits(pool[..|pool| - 1], k); }
  }

  /** Conservation: per kind, `spawned` is the number of leaves created and `active` the number
      whose goroutine was started and has not run its Dec; the wait group holds the goroutines
      that have not run Done. */
  ghost predicate Balanced(s: Crd) {
    && (forall k: Kind :: s.spawned.Of(k) == Count(s.pool, Born(k)))
    && (forall k: Kind :: s.active.Of(k) == Count(s.pool, Live(k)))
    && s.wg == Count(s.pool, Pending)
  }

  /** A change of one leaf that does not touch its phase or kind keeps every count. */
  lemma SteadyKeepsBalanced(s: Crd, i: nat, c: Child)
    requires Balanced(s) && i < |s.pool|
    requires c.kind == s.pool[i].kind && c.phase == s.pool[i].phase
    ensures Balanced(WithChild(s, i, c))
  {
    forall q: Census ensures Count(s.pool[i := c], q) == Count(s.pool, q) {
      CountUpdate(s.pool, i, c, q);
    }
  }

  lemma InsertKeepsBalanced(s: Crd, name: string, k: Kind, cfg: Configuration)
    requires Balanced(s)
    ensures Balanced(Insert(s, name, k, cfg))
  {
    forall q: Census
      ensures Count(Insert(s, name, k, cfg).pool, q) ==
              Count(s.pool, q) + (if Counts(NewChild(k, name, cfg), q) then 1 else 0)
    {
      CountAppend(s.pool, NewChild(k, name, cfg), q);
    }
  }

  lemma LaunchKeepsBalanced(s: Crd, name: string)
    requires Balanced(s) && s.Owns(name) && s.pool[s.watchers[name].child].phase.Created?
    ensures Balanced(Launch(s, name))
  {
    var i := s.watchers[name].child;
    var c := LaunchChild(s.pool[i]);
    forall q: Census
      ensures Count(s.pool[i := c], q) ==
              Count(s.pool, q) - (if Counts(s.pool[i], q) then 1 else 0) + (if Counts(c, q) then 1 else 0)
    {
      CountUpdate(s.pool, i, c, q);
    }
  }

  /** The counters after one own move of leaf i: Decrement lowers its gauge, Done the wait group. */
  function MoveIn(s: Crd, i: nat, m: Move): Crd
    requires i < |s.pool| && CanMove(s.pool[i], m)
  {
    var c := s.pool[i];
    var s1 := WithChild(s, i, MoveChild(c, m));
    match m
    case Decrement => s1.(active := s.active.Add(c.kind, -1))
    case Done => s1.(wg := s.wg - 1)
    case _ => s1
  }

  /** Only Decrement and Done change what a leaf counts for. */
  lemma MoveCounts(c: Child, m: Move, q: Census)
    requires CanMove(c, m) && m != Decrement && m != Done
    ensures Counts(MoveChild(c, m), q) == Counts(c, q)
  {
  }

  lemma SteadyMoveKeepsBalanced(s: Crd, i: nat, m: Move)
    requires Balanced(s) && i < |s.pool| && CanMove(s.pool[i], m) && m != Decrement && m != Done
    ensures Balanced(MoveIn(s, i, m))
  {
    forall q: Census ensures Count(MoveIn(s, i, m).pool, q) == Count(s.pool, q) {
      MoveCounts(s.pool[i], m, q);
      CountUpdate(s.pool, i, MoveChild(s.pool[i], m), q);
    }
  }

  lemma MoveKeepsBalanced(s: Crd, i: nat, m: Move)
    requires Balanced(s) && i < |s.pool| && CanMove(s.pool[i], m)
    ensures Balanced(MoveIn(s, i, m))
  {
    if m == Decrement || m == Done {
      EndKeepsBalanced(s, i, m);
    } else {
      SteadyMoveKeepsBalanced(s, i, m);
    }
  }

  lemma EndKeepsBalanced(s: Crd, i: nat, m: Move)
    requires Balanced(s) && i < |s.pool| && CanMove(s.pool[i], m) && (m == Decrement || m == Done)
    ensures Balanced(MoveIn(s, i, m))
  {
    var c := MoveChild(s.pool[i], m);
    forall q: Census
      ensures Count(s.pool[i := c], q) ==
              Count(s.pool, q) - (if Counts(s.pool[i], q) then 1 else 0) + (if Counts(c, q) then 1 else 0)
    {
      CountUpdate(s.pool, i, c, q);
    }
  }
}
