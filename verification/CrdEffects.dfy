/** What the critical sections of a CrdWatcher do, said in full: which calls are accepted, what the
    leaf involved is afterwards, and that nothing else changes.
 */
module CrdEffects {
  import opened Common
  import opened Children
  import opened CrdState

  /** A leaf that has just been created and configured. */
  predicate NewLeaf(c: Child, name: string, cfg: Configuration) {
    && Names(cfg.scalingMode, c.kind) && HasSettings(c.kind, c.settings, cfg)
    && c.owner == name && c.mark.Kept? && c.late == 0
    && !c.running && c.stage.AtHead? && !c.ready
  }

  predicate Rises(a: Tally, b: Tally, k: Kind) {
    forall j: Kind :: b.Of(j) == a.Of(j) + (if j == k then 1 else 0)
  }

  /** t has the fields of s besides the map, the pool and the counters of leaves. */
  predicate SameLoop(s: Crd, t: Crd) {
    t.running == s.running && t.starts == s.starts && t.stops == s.stops
  }

  /** addWatcher refuses a name that is taken, a mode it does not know, and a killPod configuration
      for a deployment without labels; otherwise it creates one leaf, of the kind that the mode
      names, under the name of the deployment. */
  lemma AddMeans(s: Crd, cfg: Configuration, dep: Target)
    ensures var (t, ok) := AddWatcher(s, cfg, dep);
            && (ok <==> && dep.name !in s.watchers
                        && (|| cfg.scalingMode == RANDOM_SCALE
                            || cfg.scalingMode == ANTI_PRESSURE
                            || (cfg.scalingMode == KILL_POD && dep.labels != map[])))
            && (if ok then Added(s, t, cfg, dep.name) else t == s)
  {
    assert |dep.labels| == 0 <==> dep.labels == map[];
    KindOfNames(cfg.scalingMode);
    if AddWatcher(s, cfg, dep).1 { InsertMeans(s, dep.name, KindOf(cfg.scalingMode).value, cfg); }
  }

  /** One more leaf under `name`. */
  predicate Added(s: Crd, t: Crd, cfg: Configuration, name: string) {
    && t.watchers == s.watchers[name := Entry(cfg, |s.pool|)]
    && |t.pool| == |s.pool| + 1 && t.pool[..|s.pool|] == s.pool
    && NewLeaf(t.pool[|s.pool|], name, cfg) && t.pool[|s.pool|].phase.Created?
    && Rises(s.spawned, t.spawned, t.pool[|s.pool|].kind)
    && t.active == s.active && t.wg == s.wg && SameLoop(s, t)
  }

  lemma InsertMeans(s: Crd, name: string, k: Kind, cfg: Configuration)
    requires KindOf(cfg.scalingMode) == Some(k)
    ensures Added(s, Insert(s, name, k, cfg), cfg, name)
  {
  }

  /** startWatcher launches the leaf of the name: its goroutine, its gauge, the wait group. */
  predicate Launched(s: Crd, t: Crd, i: nat) {
    && i < |s.pool| && t.pool == s.pool[i := s.pool[i].(phase := Spawned)]
    && Rises(s.active, t.active, s.pool[i].kind) && t.wg == s.wg + 1
    && t.watchers == s.watchers && t.spawned == s.spawned && SameLoop(s, t)
  }

  lemma StartMeans(s: Crd, name: string)
    requires name in s.watchers ==> s.Owns(name)
    ensures var (t, ok) := StartWatcher(s, name);
            && (ok <==> name in s.watchers)
            && (if ok then Launched(s, t, s.watchers[name].child) else t == s)
  {
  }

  /** A leaf that has been stopped. */
  predicate Stopped(c: Child, d: Child) {
    && !d.running && !d.mark.Kept?
    && d.kind == c.kind && d.owner == c.owner && d.settings == c.settings
    && d.phase == c.phase && d.stage == c.stage && d.ready == c.ready && d.late == c.late
  }

  /** The key `name` is gone and its leaf stopped. */
  predicate Deleted(s: Crd, t: Crd, name: string) {
    && s.Owns(name) && t.watchers == s.watchers - {name}
    && |t.pool| == |s.pool|
    && Stopped(s.pool[s.watchers[name].child], t.pool[s.watchers[name].child])
    && (forall i :: 0 <= i < |s.pool| && i != s.watchers[name].child ==> t.pool[i] == s.pool[i])
    && t.spawned == s.spawned && t.active == s.active && t.wg == s.wg && SameLoop(s, t)
  }

  /** deleteWatcher refuses an unknown name and stops and forgets the leaf of any other. */
  lemma DeleteMeans(s: Crd, cfg: Configuration)
    requires cfg.deployment in s.watchers ==> s.Owns(cfg.deployment)
    ensures var (t, ok) := DeleteWatcher(s, cfg);
            && (ok <==> cfg.deployment in s.watchers)
            && (if ok then Deleted(s, t, cfg.deployment) else t == s)
  {
  }

  /** The leaf of the name has the settings of the configuration, and nothing else has changed, not
      even the configuration stored beside it. */
  predicate Reconfigured(s: Crd, t: Crd, cfg: Configuration) {
    && s.Owns(cfg.deployment) && t.watchers == s.watchers && |t.pool| == |s.pool|
    && var i := s.watchers[cfg.deployment].child;
    && HasSettings(s.pool[i].kind, t.pool[i].settings, cfg)
    && t.pool[i] == s.pool[i].(settings := t.pool[i].settings)
    && (forall j :: 0 <= j < |s.pool| && j != i ==> t.pool[j] == s.pool[j])
    && t.spawned == s.spawned && t.active == s.active && t.wg == s.wg && SameLoop(s, t)
  }

  /** The old leaf is stopped and forgotten, and a new one of the kind that the mode names stands in
      its place, launched. */
  predicate Replaced(s: Crd, t: Crd, cfg: Configuration) {
    && s.Owns(cfg.deployment)
    && t.watchers == s.watchers[cfg.deployment := Entry(cfg, |s.pool|)]
    && |t.pool| == |s.pool| + 1
    && Stopped(s.pool[s.watchers[cfg.deployment].child], t.pool[s.watchers[cfg.deployment].child])
    && (forall i :: 0 <= i < |s.pool| && i != s.watchers[cfg.deployment].child ==> t.pool[i] == s.pool[i])
    && NewLeaf(t.pool[|s.pool|], cfg.deployment, cfg) && t.pool[|s.pool|].phase.Spawned?
    && Rises(s.spawned, t.spawned, t.pool[|s.pool|].kind)
    && Rises(s.active, t.active, t.pool[|s.pool|].kind)
    && t.wg == s.wg + 1 && SameLoop(s, t)
  }

  /** modifyWatcher refuses an unknown name.  With the mode of the stored configuration it
      reconfigures the leaf; with another mode it replaces the leaf if the deployment can be read
      and the mode is one of the three, and otherwise the old leaf is stopped and forgotten all the
      same. */
  lemma ModifyMeans(s: Crd, cfg: Configuration, get: Option<Target>)
    requires cfg.deployment in s.watchers ==> s.Owns(cfg.deployment)
    ensures var (t, ok) := ModifyWatcher(s, cfg, get);
            if cfg.deployment !in s.watchers then !ok && t == s
            else if s.watchers[cfg.deployment].configuration.scalingMode == cfg.scalingMode then
              ok && Reconfigured(s, t, cfg)
            else if get.Some? && Known(cfg.scalingMode) then ok && Replaced(s, t, cfg)
            else !ok && Deleted(s, t, cfg.deployment)
  {
    KindOfNames(cfg.scalingMode);
    if cfg.deployment in s.watchers && SameMode(s, cfg) { RetunedMeans(s, cfg); }
    if cfg.deployment in s.watchers && !SameMode(s, cfg) && get.Some? && Known(cfg.scalingMode) {
      SwitchMeans(s, cfg, get);
    }
  }

  lemma RetunedMeans(s: Crd, cfg: Configuration)
    requires s.Owns(cfg.deployment)
    ensures Reconfigured(s, Retuned(s, cfg), cfg)
  {
    var c := s.pool[s.watchers[cfg.deployment].child];
    ConfiguredHasSettings(c.kind, c.settings, cfg);
  }

  lemma SwitchMeans(s: Crd, cfg: Configuration, get: Option<Target>)
    requires s.Owns(cfg.deployment) && get.Some? && Known(cfg.scalingMode)
    ensures SwitchWatcher(s, cfg, get).1 && Replaced(s, SwitchWatcher(s, cfg, get).0, cfg)
  {
    KindOfNames(cfg.scalingMode);
    var s1 := StopEntry(s, cfg.deployment);
    var s2 := Insert(s1, cfg.deployment, KindOf(cfg.scalingMode).value, cfg);
    InsertMeans(s1, cfg.deployment, KindOf(cfg.scalingMode).value, cfg);
    assert s2.watchers == s.watchers[cfg.deployment := Entry(cfg, |s.pool|)];
    assert s2.pool[..|s1.pool|] == s1.pool;
    assert forall i :: 0 <= i < |s.pool| ==> s2.pool[i] == s1.pool[i];
  }

  /** handleEvent is fatal exactly for an empty or error event with a configuration and for an
      unknown object; of these only the first clears Running, and neither touches a leaf. */
  lemma HandleEventMeans(s: Crd, e: Event)
    requires forall n :: n in s.watchers ==> s.Owns(n)
    ensures var (t, fatal) := HandleEvent(s, e);
            && (fatal <==> e.Blank? || e.Foreign?)
            && (e.AddedEvent? ==>
                  if e.get.Some? && AddWatcher(s, e.cfg, e.get.value).1
                  then AddedAndLaunched(s, t, e.cfg, e.get.value.name) else t == s)
            && (e.ModifiedEvent? ==> t == ModifyWatcher(s, e.cfg, e.get).0)
            && (e.DeletedEvent? ==> t == DeleteWatcher(s, e.cfg).0)
            && (e.Blank? ==> t == s.(running := false))
            && (e.Unhandled? || e.Foreign? ==> t == s)
  {
    match e
    case AddedEvent(cfg, Some(dep)) =>
      AddMeans(s, cfg, dep);
      var s1 := AddWatcher(s, cfg, dep).0;
      if AddWatcher(s, cfg, dep).1 { assert s1.Owns(dep.name); StartMeans(s1, dep.name); }
    case _ =>
  }

  /** One more leaf under `name`, launched at once. */
  predicate AddedAndLaunched(s: Crd, t: Crd, cfg: Configuration, name: string) {
    && t.watchers == s.watchers[name := Entry(cfg, |s.pool|)]
    && |t.pool| == |s.pool| + 1 && t.pool[..|s.pool|] == s.pool
    && NewLeaf(t.pool[|s.pool|], name, cfg) && t.pool[|s.pool|].phase.Spawned?
    && Rises(s.spawned, t.spawned, t.pool[|s.pool|].kind)
    && Rises(s.active, t.active, t.pool[|s.pool|].kind)
    && t.wg == s.wg + 1 && SameLoop(s, t)
  }
}
