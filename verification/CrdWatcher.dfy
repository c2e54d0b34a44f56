/** The CrdWatcher object: its fields, the leaf objects its map points to, and its locked
    methods, each proved to have exactly the effect that CrdState specifies.
 */
module CrdObjects {
  import opened Common
  import opened Children
  import opened CrdState

  /** A ConfigurableWatcher object as its CrdWatcher uses it.  The ghost fields say where its
      goroutine is. */
  class LeafWatcher {
    const kind: Kind
    ghost const id: nat
    ghost const owner: string
    var enabled: bool
    var minReplicas: int
    var maxReplicas: int
    var timeout: int
    var running: bool
    ghost var stage: Stage
    ghost var ready: bool
    ghost var phase: Phase
    ghost var mark: Mark
    ghost var late: nat

    ghost function Value(): Child
      reads this
    {
      Child(kind, owner, Settings(enabled, minReplicas, maxReplicas, timeout),
            running, stage, ready, phase, mark, late)
    }

    constructor (kind: Kind, ghost id: nat, ghost owner: string)
      ensures this.kind == kind && this.id == id
      ensures Value() == Child(kind, owner, Defaults(kind), false, AtHead, false, Created, Kept, 0)
    {
      this.kind, this.id, this.owner := kind, id, owner;
      var d := Defaults(kind);
      enabled, minReplicas, maxReplicas, timeout := d.enabled, d.minReplicas, d.maxReplicas, d.timeout;
      running, stage, ready, phase, mark, late := false, AtHead, false, Created, Kept, 0;
    }

    method SetEnabled(v: bool)
      modifies this`enabled
      ensures enabled == v
    {
      enabled := v;
    }

    method SetMinReplicas(v: int)
      modifies this`minReplicas
      ensures minReplicas == if kind.Deployment? then v else old(minReplicas)
    {
      if kind.Deployment? { minReplicas := v; }
    }

    method SetMaxReplicas(v: int)
      modifies this`maxReplicas
      ensures maxReplicas == if kind.Deployment? then v else old(maxReplicas)
    {
      if kind.Deployment? { maxReplicas := v; }
    }

    method SetTimeout(v: int)
      modifies this`timeout
      ensures timeout == v
    {
      timeout := v;
    }

    /** The four setters in the order in which addWatcher and modifyWatcher call them. */
    method Configure(cfg: Configuration)
      modifies this
      ensures Value() == old(Value()).(settings := Configured(kind, old(Value()).settings, cfg))
    {
      SetEnabled(cfg.enabled);
      SetMinReplicas(cfg.minReplicas);
      SetMaxReplicas(cfg.maxReplicas);
      SetTimeout(cfg.timeout);
    }

    method Stop()
      modifies this
      ensures Value() == StopChild(old(Value()))
    {
      mark := StopChild(Value()).mark;
      running := false;
    }

    method IsRunning() returns (r: bool)
      ensures r == Value().running
    {
      r := running;
    }
  }

  datatype WatcherConfiguration = WatcherConfiguration(configuration: Configuration, watcher: LeafWatcher)

  class CrdWatcher {
    var deploymentWatchers: map<string, WatcherConfiguration>
    var spawned: Tally
    var active: Tally
    var wg: int
    var running: bool
    ghost var pool: seq<LeafWatcher>
    ghost var starts: nat
    ghost var stops: nat

    ghost predicate Valid()
      reads this
    {
      && (forall i :: 0 <= i < |pool| ==> pool[i].id == i)
      && (forall n :: n in deploymentWatchers ==>
            var w := deploymentWatchers[n].watcher; w.id < |pool| && pool[w.id] == w)
    }

    ghost function Abs(): Crd
      reads this, pool
    {
      Crd(map n | n in deploymentWatchers ::
            Entry(deploymentWatchers[n].configuration, deploymentWatchers[n].watcher.id),
          seq(|pool|, i requires 0 <= i < |pool| reads this, pool => pool[i].Value()),
          spawned, active, wg, running, starts, stops)
    }

    constructor ()
      ensures Valid() && Abs() == EMPTY && pool == []
    {
      deploymentWatchers, spawned, active, wg := map[], Tally(0, 0, 0), Tally(0, 0, 0), 0;
      running, pool, starts, stops := false, [], 0, 0;
    }

    /** Abs after exactly one leaf of the pool has changed. */
    twostate lemma OneLeafChanged(w: LeafWatcher)
      requires old(Valid()) && Valid() && unchanged(this)
      requires w.id < |pool| && pool[w.id] == w
      requires forall x :: x in pool && x != w ==> unchanged(x)
      ensures Abs() == WithChild(old(Abs()), w.id, w.Value())
    {
      forall i | 0 <= i < |pool| ensures Abs().pool[i] == old(Abs()).pool[w.id := w.Value()][i] {
        if i != w.id { assert pool[i] in pool && pool[i] != w; }
      }
      assert Abs().pool == old(Abs()).pool[w.id := w.Value()];
    }

    method IsRunning() returns (r: bool)
      ensures r == running
    {
      r := running;
    }

    method SetRunning(v: bool)
      requires Valid()
      modifies this
      ensures Valid() && pool == old(pool) && Abs() == old(Abs()).(running := v)
    {
      running := v;
    }

    method Stop()
      requires Valid()
      modifies this
      ensures Valid() && pool == old(pool) && Abs() == StopCrd(old(Abs()))
    {
      running := false;
      stops := stops + 1;
    }

    /** A factory call followed by the setters. */
    method Build(kind: Kind, ghost id: nat, ghost owner: string, cfg: Configuration) returns (w: LeafWatcher)
      ensures fresh(w) && w.id == id && w.Value() == NewChild(kind, owner, cfg)
    {
      w := new LeafWatcher(kind, id, owner);
      w.Configure(cfg);
    }

    /** The factory calls of addWatcher and modifyWatcher with their spawned counters, the
        configuration of the new leaf, and its insertion into the map. */
    method Create(name: string, kind: Kind, cfg: Configuration)
      requires Valid()
      modifies this
      ensures Valid() && fresh(set x | x in pool && x !in old(pool))
      ensures Abs() == Insert(old(Abs()), name, kind, cfg)
      ensures old(pool) <= pool && name in deploymentWatchers
    {
      var w := Build(kind, |pool|, name, cfg);
      Register(name, cfg, w);
      spawned := spawned.Add(kind, 1);
    }

    /** Puts a new leaf into the map. */
    method Register(name: string, cfg: Configuration, w: LeafWatcher)
      requires Valid() && w.id == |pool| && w !in pool
      modifies this
      ensures Valid() && pool == old(pool) + [w] && name in deploymentWatchers
      ensures Abs() == old(Abs()).(watchers := old(Abs()).watchers[name := Entry(cfg, |old(pool)|)],
                                   pool := old(Abs()).pool + [w.Value()])
    {
      ghost var before := Abs();
      pool := pool + [w];
      deploymentWatchers := deploymentWatchers[name := WatcherConfiguration(cfg, w)];
      assert Abs().pool == before.pool + [w.Value()];
      assert Abs().watchers == before.watchers[name := Entry(cfg, |before.pool|)];
    }

    method AddWatcher(cfg: Configuration, dep: Target) returns (ok: bool)
      requires Valid()
      modifies this
      ensures Valid() && fresh(set x | x in pool && x !in old(pool))
      ensures (Abs(), ok) == CrdState.AddWatcher(old(Abs()), cfg, dep)
    {
      if dep.name in deploymentWatchers {
        return false;
      }
      match KindOf(cfg.scalingMode)
      case None => ok := false;
      case Some(kind) =>
        if kind.Pod? && |dep.labels| == 0 {
          return false;
        }
        Create(dep.name, kind, cfg);
        ok := true;
    }

    /** Increments the gauge and the wait group and starts the goroutine. */
    method Go(name: string)
      requires Valid() && name in deploymentWatchers
      modifies this, pool
      ensures Valid() && pool == old(pool)
      ensures Abs() == Launch(old(Abs()), name)
    {
      var w := deploymentWatchers[name].watcher;
      active := active.Add(w.kind, 1);
      wg := wg + 1;
      label launched:
      w.phase := Spawned;
      OneLeafChanged@launched(w);
    }

    method StartWatcher(name: string) returns (ok: bool)
      requires Valid()
      modifies this, pool
      ensures Valid() && pool == old(pool)
      ensures (Abs(), ok) == CrdState.StartWatcher(old(Abs()), name)
    {
      if name !in deploymentWatchers {
        return false;
      }
      Go(name);
      ok := true;
    }

    /** wc.Watcher.Stop() followed by delete(c.DeploymentWatchers, name). */
    method StopAndForget(name: string)
      requires Valid() && name in deploymentWatchers
      modifies this, pool
      ensures Valid() && pool == old(pool)
      ensures deploymentWatchers == old(deploymentWatchers) - {name}
      ensures Abs() == StopEntry(old(Abs()), name)
    {
      var w := deploymentWatchers[name].watcher;
      w.Stop();
      OneLeafChanged(w);
      ghost var stopped := Abs();
      deploymentWatchers := deploymentWatchers - {name};
      assert Abs().watchers == stopped.watchers - {name};
      assert Abs().pool == stopped.pool;
    }

    method ModifyWatcher(cfg: Configuration, get: Option<Target>) returns (ok: bool)
      requires Valid()
      modifies this, pool
      ensures Valid() && fresh(set x | x in pool && x !in old(pool))
      ensures (Abs(), ok) == CrdState.ModifyWatcher(old(Abs()), cfg, get)
    {
      var name := cfg.deployment;
      if name !in deploymentWatchers {
        return false;
      }
      var wc := deploymentWatchers[name];
      if wc.configuration.scalingMode != cfg.scalingMode {
        ok := Switch(cfg, get);
      } else {
        Retune(cfg);
        ok := true;
      }
    }

    /** The leaf is stopped and forgotten before anything that can fail, and then replaced. */
    method Switch(cfg: Configuration, get: Option<Target>) returns (ok: bool)
      requires Valid() && cfg.deployment in deploymentWatchers
      modifies this, pool
      ensures Valid() && fresh(set x | x in pool && x !in old(pool))
      ensures (Abs(), ok) == SwitchWatcher(old(Abs()), cfg, get)
    {
      StopAndForget(cfg.deployment);
      if get.None? {
        return false;
      }
      match KindOf(cfg.scalingMode)
      case None => ok := false;
      case Some(kind) =>
        CreateAndGo(cfg.deployment, kind, cfg);
        ok := true;
    }

    /** A new leaf in the map, its goroutine started at once. */
    method CreateAndGo(name: string, kind: Kind, cfg: Configuration)
      requires Valid()
      modifies this, pool
      ensures Valid() && fresh(set x | x in pool && x !in old(pool))
      ensures Abs() == Launch(Insert(old(Abs()), name, kind, cfg), name)
    {
      Create(name, kind, cfg);
      Go(name);
    }

    /** The four setters on the leaf of the deployment; the stored configuration stays. */
    method Retune(cfg: Configuration)
      requires Valid() && cfg.deployment in deploymentWatchers
      modifies pool
      ensures Valid()
      ensures Abs() == Retuned(old(Abs()), cfg)
    {
      var w := deploymentWatchers[cfg.deployment].watcher;
      w.Configure(cfg);
      OneLeafChanged(w);
    }

    method DeleteWatcher(cfg: Configuration) returns (ok: bool)
      requires Valid()
      modifies this, pool
      ensures Valid() && pool == old(pool)
      ensures (Abs(), ok) == CrdState.DeleteWatcher(old(Abs()), cfg)
    {
      ok := cfg.deployment in deploymentWatchers;
      if ok {
        StopAndForget(cfg.deployment);
      }
    }

    /** handleEvent: only an unusable event makes Start return, and only an empty or error
        event clears Running first. */
    method HandleEvent(e: Event) returns (fatal: bool)
      requires Valid()
      modifies this, pool
      ensures Valid() && fresh(set x | x in pool && x !in old(pool))
      ensures (Abs(), fatal) == CrdState.HandleEvent(old(Abs()), e)
    {
      match e
      case AddedEvent(cfg, get) =>
        if get.Some? {
          var added := AddWatcher(cfg, get.value);
          if added {
            var _ := StartWatcher(get.value.name);
          }
        }
        fatal := false;
      case ModifiedEvent(cfg, get) =>
        var _ := ModifyWatcher(cfg, get);
        fatal := false;
      case DeletedEvent(cfg) =>
        var _ := DeleteWatcher(cfg);
        fatal := false;
      case Unhandled => fatal := false;
      case Blank =>
        SetRunning(false);
        fatal := true;
      case Foreign => fatal := true;
    }

    /** One round of StopAll: the keys in `done` have been dealt with since `start`. */
    method StopNext(name: string, ghost start: Crd, ghost done: set<string>)
      requires Valid() && name in deploymentWatchers
      requires Abs() == StopEntries(start, done) && done !! deploymentWatchers.Keys
      modifies this, pool
      ensures Valid() && pool == old(pool)
      ensures deploymentWatchers == old(deploymentWatchers) - {name}
      ensures Abs() == StopEntries(start, done + {name})
    {
      assert name in Abs().watchers && start.Owns(name);
      StopEntriesAdd(start, done, name);
      StopAndForget(name);
    }

    /** The loop over the map that both restartWatch and the end of Start run before they wait:
        every leaf of the map is stopped, and the map ends up empty. */
    method StopAll()
      requires Valid()
      modifies this, pool
      ensures Valid() && pool == old(pool)
      ensures Abs() == StopEntries(old(Abs()), old(deploymentWatchers).Keys)
      ensures deploymentWatchers == map[]
    {
      ghost var start := Abs();
      ghost var done: set<string> := {};
      StopNoEntries(start);
      while deploymentWatchers != map[]
        invariant Valid() && pool == old(pool)
        invariant done !! deploymentWatchers.Keys && done + deploymentWatchers.Keys == old(deploymentWatchers).Keys
        invariant Abs() == StopEntries(start, done)
        decreases deploymentWatchers.Keys
      {
        var name :| name in deploymentWatchers;
        StopNext(name, start, done);
        done := done + {name};
      }
      assert done == old(deploymentWatchers).Keys;
    }

    /** delete(c.DeploymentWatchers, name) for a leaf that is not running and is not stopped. */
    method Forget(name: string)
      requires Valid() && name in deploymentWatchers
      modifies this, pool
      ensures Valid() && pool == old(pool)
      ensures deploymentWatchers == old(deploymentWatchers) - {name}
      ensures Abs() == ReapEntry(old(Abs()), name)
    {
      ghost var w := deploymentWatchers[name].watcher;
      w.mark := ReapChild(w.Value()).mark;
      OneLeafChanged(w);
      ghost var reaped := Abs();
      deploymentWatchers := deploymentWatchers - {name};
      assert Abs().watchers == reaped.watchers - {name};
      assert Abs().pool == reaped.pool;
    }

    /** One round of cleanUp. */
    method CleanUpNext(name: string, ghost start: Crd, ghost done: set<string>)
      requires Valid() && name in deploymentWatchers
      requires Abs() == ReapEntries(start, done) && name !in done
      modifies this, pool
      ensures Valid() && pool == old(pool)
      ensures old(deploymentWatchers).Keys - {name} <= deploymentWatchers.Keys
      ensures Abs() == ReapEntries(start, done + {name})
    {
      assert name in Abs().watchers && start.Owns(name);
      ReapEntriesAdd(start, done, name);
      var alive := deploymentWatchers[name].watcher.IsRunning();
      if !alive {
        Forget(name);
      }
    }

    /** cleanUp: the keys whose leaf is not running are deleted, in any order. */
    method CleanUp()
      requires Valid()
      modifies this, pool
      ensures Valid() && pool == old(pool)
      ensures Abs() == ReapEntries(old(Abs()), old(deploymentWatchers).Keys)
    {
      ghost var start := Abs();
      ghost var done: set<string> := {};
      ReapNoEntries(start);
      var todo := deploymentWatchers.Keys;
      while todo != {}
        invariant Valid() && pool == old(pool)
        invariant done !! todo && done + todo == old(deploymentWatchers).Keys
        invariant todo <= deploymentWatchers.Keys
        invariant Abs() == ReapEntries(start, done)
        decreases todo
      {
        var name :| name in todo;
        CleanUpNext(name, start, done);
        done := done + {name};
        todo := todo - {name};
      }
      assert done == old(deploymentWatchers).Keys;
    }
  }
}
