/** The state of the NamespaceWatcher and the effect of each of its critical sections.  Its
    children are whole CrdWatcher machines, so a state holds the complete tree of watchers.
 */
module NamespaceState {
  import opened Common
  import CrdState
  import CrdProtocol

  const ALLOW_ALL := "ALLOWALL"
  const DENY_ALL := "DENYALL"

  /** One CrdWatcher object, the namespace it was created for, and whether the goroutine that
      called its Start has signalled the wait group. */
  datatype Cell = Cell(owner: string, machine: CrdProtocol.Machine, finished: bool)
  {
    function Starts(): nat { machine.crd.starts }

    function Stops(): nat { machine.crd.stops }

    predicate Launched() { Starts() > 0 && !finished }
  }

  datatype Ns = Ns(
    behavior: string, watchers: map<string, nat>, pool: seq<Cell>, wg: int,
    cmcActive: int, cmcSpawned: int, running: bool)
  {
    predicate Owns(ns: string) { ns in watchers && watchers[ns] < |pool| }
  }

  function Initial(behavior: string): Ns {
    Ns(behavior, map[], [], 0, 0, 0, false)
  }

  /** `tag` is the value of the label cm.massix.github.io/namespace, if the namespace has it. */
  predicate IsNamespaceAllowed(behavior: string, tag: Option<string>) {
    if behavior == ALLOW_ALL && tag.None? then true
    else if behavior == DENY_ALL && tag.None? then false
    else if behavior == DENY_ALL then tag.value == "true"
    else if behavior == ALLOW_ALL then tag.value != "false"
    else false
  }

  function WithCell(s: Ns, i: nat, c: Cell): Ns
    requires i < |s.pool|
  {
    s.(pool := s.pool[i := c])
  }

  function StopCell(c: Cell): Cell {
    c.(machine := CrdProtocol.Machine(CrdState.StopCrd(c.machine.crd), c.machine.pc))
  }

  /** The goroutine calls Start; a second call is counted but is not given a loop of its own. */
  function StartCell(c: Cell): Cell {
    var crd := c.machine.crd.(starts := c.machine.crd.starts + 1);
    c.(machine := CrdProtocol.Machine(crd, if c.machine.pc.Unstarted? then CrdProtocol.Opening else c.machine.pc))
  }

  function AddWatcher(s: Ns, ns: string): (Ns, bool) {
    if ns in s.watchers then (s, false)
    else (s.(watchers := s.watchers[ns := |s.pool|], pool := s.pool + [Cell(ns, CrdProtocol.FRESH, false)]), true)
  }

  /** startCrdWatcher.  Without a watcher the goroutine ends at once, so the wait group is back
      where it was; the two metrics move all the same. */
  function StartCrdWatcher(s: Ns, ns: string): Ns
    requires ns in s.watchers ==> s.Owns(ns)
  {
    var s1 := s.(cmcActive := s.cmcActive + 1, cmcSpawned := s.cmcSpawned + 1);
    if ns !in s.watchers then s1
    else WithCell(s1, s.watchers[ns], StartCell(s.pool[s.watchers[ns]])).(wg := s.wg + 1)
  }

  /** Calls Stop on the CrdWatcher of `ns` and deletes the key. */
  function StopEntry(s: Ns, ns: string): Ns
    requires s.Owns(ns)
  {
    WithCell(s, s.watchers[ns], StopCell(s.pool[s.watchers[ns]])).(watchers := s.watchers - {ns})
  }

  /** removeWatcher is the only deletion that lowers the gauge. */
  function RemoveWatcher(s: Ns, ns: string): (Ns, bool)
    requires ns in s.watchers ==> s.Owns(ns)
  {
    if ns in s.watchers then (StopEntry(s, ns).(cmcActive := s.cmcActive - 1), true) else (s, false)
  }

  /** Some key of `names` points to watcher i. */
  ghost predicate Reaches(s: Ns, names: set<string>, i: nat) {
    exists n :: n in names && n in s.watchers && s.watchers[n] == i
  }

  /** Stops the watchers of all keys in `names` once each and deletes the keys. */
  ghost function StopEntries(s: Ns, names: set<string>): Ns {
    s.(watchers := s.watchers - names,
       pool := seq(|s.pool|, i requires 0 <= i < |s.pool| =>
                 if Reaches(s, names, i) then StopCell(s.pool[i]) else s.pool[i]))
  }

  /** The keys whose watcher is not running. */
  ghost function Idle(s: Ns): set<string> {
    set n | n in s.watchers && s.Owns(n) && !s.pool[s.watchers[n]].machine.crd.running
  }

  /** No two keys point to the same watcher. */
  ghost predicate Injective(s: Ns) {
    forall n, n' :: n in s.watchers && n' in s.watchers && s.watchers[n] == s.watchers[n'] ==> n == n'
  }

  lemma StopNoEntries(s: Ns)
    ensures StopEntries(s, {}) == s
  {
    assert StopEntries(s, {}).pool == s.pool;
    assert StopEntries(s, {}).watchers == s.watchers;
  }

  /** Stopping key after key gives the effect on the whole set, in whatever order. */
  lemma StopEntriesAdd(s: Ns, done: set<string>, name: string)
    requires Injective(s) && s.Owns(name) && name !in done
    ensures StopEntries(s, done).Owns(name)
    ensures StopEntry(StopEntries(s, done), name) == StopEntries(s, done + {name})
  {
    var a, b := StopEntry(StopEntries(s, done), name), StopEntries(s, done + {name});
    forall i | 0 <= i < |s.pool| ensures a.pool[i] == b.pool[i] {
      if s.watchers[name] == i {
        assert Reaches(s, done + {name}, i);
      } else if Reaches(s, done + {name}, i) {
        var n :| n in done + {name} && n in s.watchers && s.watchers[n] == i;
        assert n in done && Reaches(s, done, i);
      }
    }
    assert a.pool == b.pool;
    assert a.watchers == b.watchers;
  }

  /** Whether a key is idle does not depend on the keys stopped before it. */
  lemma OthersUntouched(s: Ns, done: set<string>, name: string)
    requires Injective(s) && s.Owns(name) && name !in done
    ensures StopEntries(s, done).Owns(name)
    ensures StopEntries(s, done).pool[s.watchers[name]] == s.pool[s.watchers[name]]
  {
    assert !Reaches(s, done, s.watchers[name]);
  }

  function Count(pool: seq<Cell>): nat {
    if pool == [] then 0
    else Count(pool[..|pool| - 1]) + (if pool[|pool| - 1].Launched() then 1 else 0)
  }

  lemma {:induction false} CountUpdate(pool: seq<Cell>, i: nat, c: Cell)
    requires i < |pool|
    ensures Count(pool[i := c]) ==
            Count(pool) - (if pool[i].Launched() then 1 else 0) + (if c.Launched() then 1 else 0)
  {
    var n := |pool| - 1;
    if i == n {
      assert pool[i := c][..n] == pool[..n];
    } else {
      assert pool[i := c][..n] == pool[..n][i := c];
      CountUpdate(pool[..n], i, c);
    }
  }

  lemma CountAppend(pool: seq<Cell>, c: Cell)
    ensures Count(pool + [c]) == Count(pool) + (if c.Launched() then 1 else 0)
  {
    assert (pool + [c])[..|pool|] == pool;
  }

  lemma {:induction false} CountPositive(pool: seq<Cell>, i: nat)
    requires i < |pool| && pool[i].Launched()
    ensures Count(pool) > 0
  {
    if i < |pool| - 1 {
      CountPositive(pool[..|pool| - 1], i);
    }
  }

  /** The documented policy: opt out with "false" when everything is allowed, opt in with "true"
      when everything is denied; any other behaviour string allows nothing. */
  lemma AllowedIffPolicy(behavior: string, tag: Option<string>)
    ensures IsNamespaceAllowed(behavior, tag) <==>
            || (behavior == ALLOW_ALL && tag != Some("false"))
            || (behavior == DENY_ALL && tag == Some("true"))
  {
    assert ALLOW_ALL[0] != DENY_ALL[0];
  }

  /** The CrdWatcher stored under n says that it is running. */
  predicate Alive(s: Ns, n: string) { s.Owns(n) && s.pool[s.watchers[n]].machine.crd.running }

  /** The same CrdWatcher after one more Stop. */
  predicate StoppedOnceMore(c: Cell, d: Cell) {
    && !d.machine.crd.running && d.Stops() == c.Stops() + 1
    && d.owner == c.owner && d.finished == c.finished && d.machine.pc == c.machine.pc
    && d.Starts() == c.Starts()
    && d.machine.crd.watchers == c.machine.crd.watchers && d.machine.crd.pool == c.machine.crd.pool
  }

  /** t is s with the watchers of the keys in `gone` stopped once more and their keys deleted, and
      nothing else changed. */
  ghost predicate Without(s: Ns, t: Ns, gone: set<string>) {
    && t.watchers.Keys == s.watchers.Keys - gone
    && (forall n :: n in t.watchers ==> t.watchers[n] == s.watchers[n])
    && |t.pool| == |s.pool|
    && (forall n :: n in s.watchers && s.Owns(n) ==>
          var i := s.watchers[n];
          if n in gone then StoppedOnceMore(s.pool[i], t.pool[i]) else t.pool[i] == s.pool[i])
    && (forall i :: 0 <= i < |s.pool| && !Reaches(s, gone, i) ==> t.pool[i] == s.pool[i])
    && t.behavior == s.behavior && t.wg == s.wg && t.running == s.running
    && t.cmcActive == s.cmcActive && t.cmcSpawned == s.cmcSpawned
  }

  lemma StopEntriesMeans(s: Ns, gone: set<string>)
    requires Injective(s) && gone <= s.watchers.Keys
    ensures Without(s, StopEntries(s, gone), gone)
  {
    var t := StopEntries(s, gone);
    forall n | n in s.watchers && s.Owns(n)
      ensures var i := s.watchers[n];
              if n in gone then StoppedOnceMore(s.pool[i], t.pool[i]) else t.pool[i] == s.pool[i]
    {
      assert Reaches(s, gone, s.watchers[n]) <==> n in gone;
    }
  }

  /** Idle is exactly what does not say that it is running. */
  lemma IdleMeans(s: Ns, n: string)
    requires s.Owns(n)
    ensures n in Idle(s) <==> !Alive(s, n)
  {
  }

  /** addWatcher refuses a namespace that is watched, and otherwise creates one CrdWatcher for it. */
  lemma AddMeans(s: Ns, ns: string)
    ensures var (t, ok) := AddWatcher(s, ns);
            && (ok <==> ns !in s.watchers)
            && (!ok ==> t == s)
            && (ok ==>
                  && t.watchers == s.watchers[ns := |s.pool|] && t.pool == s.pool + [Cell(ns, CrdProtocol.FRESH, false)]
                  && t.wg == s.wg && t.cmcActive == s.cmcActive && t.cmcSpawned == s.cmcSpawned
                  && t.running == s.running && t.behavior == s.behavior)
  {
  }

  /** startCrdWatcher raises both metrics in any case; with a CrdWatcher it starts it, once more, and
      raises the wait group. */
  lemma StartMeans(s: Ns, ns: string)
    requires ns in s.watchers ==> s.Owns(ns)
    ensures var t := StartCrdWatcher(s, ns);
            && t.cmcActive == s.cmcActive + 1 && t.cmcSpawned == s.cmcSpawned + 1
            && t.watchers == s.watchers && t.running == s.running && t.behavior == s.behavior
            && |t.pool| == |s.pool|
            && (ns !in s.watchers ==> t.pool == s.pool && t.wg == s.wg)
            && (ns in s.watchers ==>
                  && t.wg == s.wg + 1
                  && t.pool[s.watchers[ns]].Starts() == s.pool[s.watchers[ns]].Starts() + 1
                  && t.pool[s.watchers[ns]].Stops() == s.pool[s.watchers[ns]].Stops()
                  && forall i :: 0 <= i < |s.pool| && i != s.watchers[ns] ==> t.pool[i] == s.pool[i])
  {
  }

  /** removeWatcher refuses a namespace that is not watched, and otherwise stops its CrdWatcher once
      more, deletes the key and lowers the gauge. */
  lemma RemoveMeans(s: Ns, ns: string)
    requires ns in s.watchers ==> s.Owns(ns)
    ensures var (t, ok) := RemoveWatcher(s, ns);
            && (ok <==> ns in s.watchers)
            && (!ok ==> t == s)
            && (ok ==>
                  && t.watchers == s.watchers - {ns} && |t.pool| == |s.pool|
                  && StoppedOnceMore(s.pool[s.watchers[ns]], t.pool[s.watchers[ns]])
                  && (forall i :: 0 <= i < |s.pool| && i != s.watchers[ns] ==> t.pool[i] == s.pool[i])
                  && t.cmcActive == s.cmcActive - 1 && t.cmcSpawned == s.cmcSpawned
                  && t.wg == s.wg && t.running == s.running && t.behavior == s.behavior)
  {
  }
}
