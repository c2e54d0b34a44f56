/** The NamespaceWatcher object: its fields, the Watcher objects its map points to, and its
    locked methods, each proved to have exactly the effect that NamespaceState specifies.
 */
module NamespaceObjects {
  import opened Common
  import CrdProtocol
  import opened NamespaceState

  /** A CrdWatcher as the NamespaceWatcher uses it, through Start, Stop and IsRunning.  The ghost
      field is the whole machine behind that interface. */
  class Watcher {
    ghost const id: nat
    ghost const owner: string
    ghost var cell: Cell
    var running: bool

    ghost predicate Valid()
      reads this
    {
      running == cell.machine.crd.running && cell.owner == owner
    }

    constructor (ghost id: nat, ghost owner: string)
      ensures Valid() && this.id == id && this.owner == owner && cell == Cell(owner, CrdProtocol.FRESH, false)
    {
      this.id, this.owner := id, owner;
      cell := Cell(owner, CrdProtocol.FRESH, false);
      running := false;
    }

    method IsRunning() returns (r: bool)
      requires Valid()
      ensures r == cell.machine.crd.running
    {
      r := running;
    }

    method Stop()
      requires Valid()
      modifies this
      ensures Valid() && cell == StopCell(old(cell))
    {
      running := false;
      cell := StopCell(cell);
    }

    method Start()
      requires Valid()
      modifies this
      ensures Valid() && cell == StartCell(old(cell))
    {
      cell := StartCell(cell);
    }
  }

  /** One more Stop since, and nothing else. */
  twostate predicate StoppedNow(w: Watcher)
    reads w
  {
    StoppedOnceMore(old(w.cell), w.cell) && !w.running
  }

  twostate predicate Untouched(w: Watcher)
    reads w
  {
    w.cell == old(w.cell) && w.running == old(w.running)
  }

  class NamespaceWatcher {
    const behavior: string
    var crdWatchers: map<string, Watcher>
    var wg: int
    var cmcActive: int
    var cmcSpawned: int
    var running: bool
    ghost var pool: seq<Watcher>

    /** The watcher of key n was created for n. */
    ghost predicate Held(n: string)
      requires n in crdWatchers
      reads this
    {
      crdWatchers[n].id < |pool| && pool[crdWatchers[n].id] == crdWatchers[n] && crdWatchers[n].owner == n
    }

    ghost predicate Valid()
      reads this, pool
    {
      && (forall i :: 0 <= i < |pool| ==> pool[i].id == i)
      && (forall w :: w in pool ==> w.Valid())
      && (forall n :: n in crdWatchers ==> Held(n))
    }

    ghost function Abs(): Ns
      reads this, pool
    {
      Ns(behavior, map n | n in crdWatchers :: crdWatchers[n].id,
         seq(|pool|, i requires 0 <= i < |pool| reads this, pool => pool[i].cell),
         wg, cmcActive, cmcSpawned, running)
    }

    constructor (behavior: string)
      ensures Valid() && Abs() == Initial(behavior) && pool == []
    {
      this.behavior := behavior;
      crdWatchers, wg, cmcActive, cmcSpawned, running, pool := map[], 0, 0, 0, false, [];
    }

    /** Abs after exactly one watcher of the pool has changed. */
    twostate lemma OneCellChanged(w: Watcher)
      requires old(Valid()) && Valid() && unchanged(this)
      requires w.id < |pool| && pool[w.id] == w
      requires forall x :: x in pool && x != w ==> unchanged(x)
      ensures Abs() == WithCell(old(Abs()), w.id, w.cell)
    {
      forall i | 0 <= i < |pool| ensures Abs().pool[i] == old(Abs()).pool[w.id := w.cell][i] {
        if i != w.id { assert pool[i] in pool && pool[i] != w; }
      }
      assert Abs().pool == old(Abs()).pool[w.id := w.cell];
    }

    /** Keys name the owner of their watcher, so no watcher has two keys. */
    lemma OneKeyEach()
      requires Valid()
      ensures Injective(Abs())
    {
      forall n | n in crdWatchers ensures Held(n) {}
    }

    /** Opt out with "false" when everything is allowed, opt in with "true" when everything is
        denied, and nothing under any other behaviour. */
    method AllowsNamespace(tag: Option<string>) returns (r: bool)
      ensures r <==> || (behavior == ALLOW_ALL && tag != Some("false"))
                     || (behavior == DENY_ALL && tag == Some("true"))
      ensures r <==> IsNamespaceAllowed(behavior, tag)
    {
      AllowedIffPolicy(behavior, tag);
      if behavior == ALLOW_ALL && tag.None? {
        return true;
      }
      if behavior == DENY_ALL && tag.None? {
        return false;
      }
      if behavior == DENY_ALL {
        return tag.value == "true";
      }
      if behavior == ALLOW_ALL {
        return tag.value != "false";
      }
      r := false;
    }

    method SetRunning(v: bool)
      requires Valid()
      modifies this
      ensures Valid() && pool == old(pool) && Abs() == old(Abs()).(running := v)
    {
      running := v;
    }

    method AddWatcher(ns: string) returns (ok: bool)
      requires Valid()
      modifies this
      ensures Valid() && fresh(set x | x in pool && x !in old(pool))
      ensures (Abs(), ok) == NamespaceState.AddWatcher(old(Abs()), ns)
    {
      if ns in crdWatchers {
        return false;
      }
      ghost var before := Abs();
      var w := new Watcher(|pool|, ns);
      pool := pool + [w];
      crdWatchers := crdWatchers[ns := w];
      ok := true;
      assert Abs().pool == before.pool + [Cell(ns, CrdProtocol.FRESH, false)];
      assert Abs().watchers == before.watchers[ns := |before.pool|];
    }

    method StartCrdWatcher(ns: string)
      requires Valid()
      modifies this, pool
      ensures Valid() && pool == old(pool)
      ensures Abs() == NamespaceState.StartCrdWatcher(old(Abs()), ns)
    {
      wg := wg + 1;
      cmcActive := cmcActive + 1;
      cmcSpawned := cmcSpawned + 1;
      if ns in crdWatchers {
        Go(ns);
      } else {
        wg := wg - 1;
      }
    }

    /** The goroutine calls Start on the watcher. */
    method Go(ns: string)
      requires Valid() && ns in crdWatchers
      modifies pool
      ensures Valid() && Abs() == WithCell(old(Abs()), crdWatchers[ns].id, StartCell(old(crdWatchers[ns].cell)))
    {
      var w := crdWatchers[ns];
      w.Start();
      OneCellChanged(w);
    }

    /** w.Stop() followed by delete(n.CrdWatchers, ns). */
    method StopAndForget(ns: string)
      requires Valid() && ns in crdWatchers
      modifies this, pool
      ensures Valid() && pool == old(pool)
      ensures crdWatchers == old(crdWatchers) - {ns}
      ensures Abs() == StopEntry(old(Abs()), ns)
    {
      var w := crdWatchers[ns];
      w.Stop();
      OneCellChanged(w);
      ghost var stopped := Abs();
      crdWatchers := crdWatchers - {ns};
      assert Abs().watchers == stopped.watchers - {ns};
      assert Abs().pool == stopped.pool;
    }

    method RemoveWatcher(ns: string) returns (ok: bool)
      requires Valid()
      modifies this, pool
      ensures Valid() && pool == old(pool)
      ensures (Abs(), ok) == NamespaceState.RemoveWatcher(old(Abs()), ns)
    {
      ok := ns in crdWatchers;
      if ok {
        StopAndForget(ns);
        ghost var stopped := Abs();
        cmcActive := cmcActive - 1;
        assert Abs().pool == stopped.pool;
      }
    }

    /** One round of the stop loops and of cleanUp. */
    method StopNext(ns: string, ghost start: Ns, ghost done: set<string>)
      requires Valid() && ns in crdWatchers
      requires Abs() == StopEntries(start, done) && Injective(start) && ns !in done
      modifies this, pool
      ensures Valid() && pool == old(pool)
      ensures crdWatchers == old(crdWatchers) - {ns}
      ensures Abs() == StopEntries(start, done + {ns})
    {
      assert ns in Abs().watchers && start.Owns(ns);
      StopEntriesAdd(start, done, ns);
      StopAndForget(ns);
    }

    /** The loop over the map that both restartWatch and the end of Start run before they wait. */
    method StopAll()
      requires Valid()
      modifies this, pool
      ensures Valid() && pool == old(pool)
      ensures Abs() == StopEntries(old(Abs()), old(crdWatchers).Keys)
      ensures crdWatchers == map[]
    {
      ghost var start := Abs();
      ghost var done: set<string> := {};
      StopNoEntries(start);
      OneKeyEach();
      while crdWatchers != map[]
        invariant Valid() && pool == old(pool)
        invariant done !! crdWatchers.Keys && done + crdWatchers.Keys == old(crdWatchers).Keys
        invariant Abs() == StopEntries(start, done)
        decreases crdWatchers.Keys
      {
        var ns :| ns in crdWatchers;
        StopNext(ns, start, done);
        done := done + {ns};
      }
      assert done == old(crdWatchers).Keys;
    }

    /** One round of cleanUp: the keys in `done` were idle and are stopped. */
    method CleanUpNext(ns: string, ghost start: Ns, ghost done: set<string>) returns (ghost done': set<string>)
      requires Valid() && ns in crdWatchers && Injective(start)
      requires Abs() == StopEntries(start, done) && ns !in done
      modifies this, pool
      ensures Valid() && pool == old(pool)
      ensures old(crdWatchers).Keys - {ns} <= crdWatchers.Keys
      ensures done' == if ns in Idle(start) then done + {ns} else done
      ensures Abs() == StopEntries(start, done')
    {
      assert ns in Abs().watchers && start.Owns(ns);
      OthersUntouched(start, done, ns);
      done' := done;
      var alive := crdWatchers[ns].IsRunning();
      if !alive {
        StopNext(ns, start, done);
        done' := done + {ns};
      }
    }

    /** cleanUp: exactly the keys whose watcher is not running are stopped and deleted, in any
        order; the gauge is not touched. */
    method CleanUp()
      requires Valid()
      modifies this, pool
      ensures Valid() && pool == old(pool)
      ensures Abs() == StopEntries(old(Abs()), Idle(old(Abs())))
      ensures forall n :: n in crdWatchers ==> n in old(crdWatchers) && crdWatchers[n] == old(crdWatchers)[n]
      ensures forall n :: n in old(crdWatchers) ==>
                && (n in crdWatchers <==> old(crdWatchers[n].running))
                && (if old(crdWatchers[n].running) then Untouched(old(crdWatchers)[n])
                    else StoppedNow(old(crdWatchers)[n]))
      ensures cmcActive == old(cmcActive)
    {
      ghost var start := Abs();
      ghost var done: set<string> := {};
      StopNoEntries(start);
      OneKeyEach();
      var todo := crdWatchers.Keys;
      while todo != {}
        invariant Valid() && pool == old(pool)
        invariant done <= Idle(start) <= done + todo
        invariant done !! todo && todo <= crdWatchers.Keys
        invariant Abs() == StopEntries(start, done)
        decreases todo
      {
        var ns :| ns in todo;
        done := CleanUpNext(ns, start, done);
        todo := todo - {ns};
      }
      assert done == Idle(start);
      CleanedUp(start);
    }

    /** The effect on the objects. */
    twostate lemma CleanedUp(start: Ns)
      requires old(Valid()) && Valid() && pool == old(pool)
      requires start == old(Abs()) && Abs() == StopEntries(start, Idle(start))
      ensures forall n :: n in crdWatchers ==> n in old(crdWatchers) && crdWatchers[n] == old(crdWatchers)[n]
      ensures forall n :: n in old(crdWatchers) ==>
                && (n in crdWatchers <==> old(crdWatchers[n].running))
                && (if old(crdWatchers[n].running) then Untouched(old(crdWatchers)[n])
                    else StoppedNow(old(crdWatchers)[n]))
    {
      IdleIsInMap(start);
      assert Injective(start) by { forall n | n in old(crdWatchers) ensures old(Held(n)) {} }
      StopEntriesMeans(start, Idle(start));
      forall n | n in crdWatchers ensures n in old(crdWatchers) && crdWatchers[n] == old(crdWatchers)[n] {
        assert n in Abs().watchers && Held(n);
        assert old(Held(n));
      }
      forall n | n in old(crdWatchers)
        ensures n in crdWatchers <==> old(crdWatchers[n].running)
        ensures if old(crdWatchers[n].running) then Untouched(old(crdWatchers)[n])
                else StoppedNow(old(crdWatchers)[n])
      {
        var w := old(crdWatchers)[n];
        assert old(Held(n)) && w in pool && pool[w.id] == w;
        assert start.Owns(n) && start.watchers[n] == w.id;
        assert start.pool[w.id] == old(w.cell) && Abs().pool[w.id] == w.cell;
        IdleMeans(start, n);
        assert n in crdWatchers <==> n in Abs().watchers;
      }
    }

    lemma IdleIsInMap(s: Ns)
      ensures Idle(s) <= s.watchers.Keys
    {
    }
  }
}
