/** Where the Start loop of a CrdWatcher goes: that it restarts when its watch is closed, ends when it
    is told to and only then, asks every leaf when it cleans up, and can always come to its return.
 */
module CrdProgress {
  import opened Common
  import opened Children
  import opened CrdState
  import opened CrdProtocol
  import opened CrdRuns
  import opened CrdLeftovers

  // ---- A closed watch ----

  /** From restartWatch there is no way back to a head check but through a new watch. */
  lemma {:induction false} RestartComesFirst(m: Machine, ls: seq<Label>, k: nat) returns (j: nat)
    requires m.pc.Restarting? && Run(m, ls).Some? && k < |ls| && ls[k] == CheckRunning
    ensures j < k && ls[j].Rewatched?
    decreases |ls|
  {
    if ls[0].Rewatched? {
      j := 0;
    } else {
      j := RestartComesFirst(Step(m, ls[0]), ls[1..], k - 1);
      j := j + 1;
    }
  }

  /** When the watch is closed, the next head check comes only after a restart has gone through, and
      then the map is empty and every leaf created before is over. */
  lemma ClosedWatchRestarts(before: seq<Label>, after: seq<Label>, k: nat) returns (j: nat)
    requires Run(FRESH, before + [WatchClosed] + after).Some?
    requires k < |after| && after[k] == CheckRunning
    ensures j < k && after[j].Rewatched?
    ensures Run(FRESH, before).Some? && Run(FRESH, before + [WatchClosed] + after[..j]).Some?
    ensures var m := Run(FRESH, before + [WatchClosed] + after[..j]).value;
            && m.crd.watchers == map[] && AllFinished(m.crd)
            && |m.crd.pool| >= |Run(FRESH, before).value.crd.pool|
  {
    var m := AfterClosing(before, after);
    j := RestartComesFirst(m, after, k);
    RestartAt(before + [WatchClosed], after, j);
    assert before + ([WatchClosed] + after[..j]) == before + [WatchClosed] + after[..j];
    PoolOnlyGrows(before, [WatchClosed] + after[..j]);
  }

  lemma AfterClosing(before: seq<Label>, after: seq<Label>) returns (m: Machine)
    requires Run(FRESH, before + [WatchClosed] + after).Some?
    ensures Run(FRESH, before).Some?
    ensures Run(FRESH, before + [WatchClosed]) == Some(m) && m.pc.Restarting? && Run(m, after).Some?
  {
    RunConcat(FRESH, before + [WatchClosed], after);
    RunConcat(FRESH, before, [WatchClosed]);
    var m0 := Run(FRESH, before).value;
    RunSingle(m0, WatchClosed, []);
    assert [WatchClosed] + [] == [WatchClosed];
    m := Step(m0, WatchClosed);
  }

  lemma PoolOnlyGrows(before: seq<Label>, ls: seq<Label>)
    requires Run(FRESH, before + ls).Some?
    ensures Run(FRESH, before).Some?
    ensures |Run(FRESH, before + ls).value.crd.pool| >= |Run(FRESH, before).value.crd.pool|
  {
    RunConcat(FRESH, before, ls);
    RunKeepsPoolSize(Run(FRESH, before).value, ls);
  }

  lemma RestartAt(upTo: seq<Label>, after: seq<Label>, j: nat)
    requires Run(FRESH, upTo + after).Some? && j < |after| && after[j].Rewatched?
    ensures Run(FRESH, upTo + after[..j]).Some?
    ensures var m := Run(FRESH, upTo + after[..j]).value; m.crd.watchers == map[] && AllFinished(m.crd)
  {
    assert upTo + after == (upTo + after[..j]) + [Rewatched(after[j].ok)] + after[j + 1..];
    RestartIsBarrier(upTo + after[..j], after[j].ok, after[j + 1..]);
  }

  lemma {:induction false} RunKeepsPoolSize(m: Machine, ls: seq<Label>)
    requires Run(m, ls).Some?
    ensures |Run(m, ls).value.crd.pool| >= |m.crd.pool|
    decreases |ls|
  {
    if ls != [] {
      StepKeepsPoolSize(m, ls[0]);
      RunKeepsPoolSize(Step(m, ls[0]), ls[1..]);
    }
  }

  lemma StepKeepsPoolSize(m: Machine, l: Label)
    requires Enabled(m, l)
    ensures |Step(m, l).crd.pool| >= |m.crd.pool|
  {
    if l.Modified? { ModifySparesFinished(m.crd, l.cfg, l.get); }
  }

  // ---- The end of the loop ----

  /** What clears Running once the loop has been entered. */
  predicate Ender(l: Label) {
    l.StopCalled? || l.ContextDone? || l.ForceWake? || l.ErrorEvent? || l.GiveUp?
  }

  predicate SomeEnder(ls: seq<Label>) { exists k :: 0 <= k < |ls| && Ender(ls[k]) }

  lemma {:induction false} RunningUntilEnder(m: Machine, ls: seq<Label>)
    requires InLoop(m.pc) && Run(m, ls).Some?
    ensures InLoop(Run(m, ls).value.pc)
    ensures Run(m, ls).value.crd.running <==> m.crd.running && !SomeEnder(ls)
    decreases |ls|
  {
    if ls != [] {
      EnderStep(m, ls[0]);
      RunningUntilEnder(Step(m, ls[0]), ls[1..]);
      assert forall k :: 0 < k < |ls| ==> ls[k] == ls[1..][k - 1];
      if SomeEnder(ls[1..]) {
        var k :| 0 <= k < |ls[1..]| && Ender(ls[1..][k]);
        assert Ender(ls[k + 1]);
      }
    }
  }

  lemma EnderStep(m: Machine, l: Label)
    requires InLoop(m.pc) && Enabled(m, l)
    ensures InLoop(Step(m, l).pc)
    ensures Step(m, l).crd.running <==> m.crd.running && !Ender(l)
  {
    if l.Modified? { ModifyKeepsRunning(m.crd, l.cfg, l.get); }
  }

  lemma ModifyKeepsRunning(s: Crd, cfg: Configuration, get: Option<Target>)
    requires cfg.deployment in s.watchers ==> s.Owns(cfg.deployment)
    ensures ModifyWatcher(s, cfg, get).0.running == s.running
  {
  }

  /** Over every run, once the first watch has been opened, Running holds if and only if nobody has
      called Stop, the context has not ended, the closed channel has not been received from, and
      neither an error event nor a restart without a new watch has come. */
  lemma RunningIffNothingEnded(before: seq<Label>, after: seq<Label>)
    requires Run(FRESH, before + [Open(true)] + after).Some?
    ensures Run(FRESH, before + [Open(true)] + after).value.crd.running <==> !SomeEnder(after)
  {
    RunConcat(FRESH, before + [Open(true)], after);
    RunConcat(FRESH, before, [Open(true)]);
    var m := Run(FRESH, before).value;
    RunSingle(m, Open(true), []);
    assert [Open(true)] + [] == [Open(true)];
    RunningUntilEnder(Step(m, Open(true)), after);
  }

  /** The branches of the select statement and what handleEvent makes of an event. */
  predicate Selects(l: Label) {
    || l.Added? || l.Modified? || l.Deleted? || l.OtherEvent? || l.ErrorEvent? || l.ForeignObject?
    || l.WatchClosed? || l.CleanUpTick? || l.ContextDone? || l.ForceWake?
  }

  predicate NeverSelects(ls: seq<Label>) { forall k :: 0 <= k < |ls| ==> !Selects(ls[k]) }

  /** On the way out. */
  predicate Leaving(m: Machine) {
    m.pc.Draining? || m.pc.Joining? || m.pc.Returned? || (m.pc.Head? && !m.crd.running)
  }

  lemma {:induction false} LeavingSelectsNothing(m: Machine, ls: seq<Label>)
    requires Leaving(m) && Run(m, ls).Some?
    ensures NeverSelects(ls) && Leaving(Run(m, ls).value)
    decreases |ls|
  {
    if ls != [] {
      LeavingSelectsNothing(Step(m, ls[0]), ls[1..]);
      assert forall k :: 0 < k < |ls| ==> ls[k] == ls[1..][k - 1];
    }
  }

  /** The end of the context, the wake-up by the closed channel and a restart without a new watch
      all end the loop: after them nothing is selected any more.  So does a head check that finds
      Running false. */
  lemma EnderEndsLoop(before: seq<Label>, l: Label, after: seq<Label>)
    requires Run(FRESH, before + [l] + after).Some?
    requires l.ContextDone? || l.ForceWake? || l.GiveUp?
          || (l.CheckRunning? && Run(FRESH, before).Some? && !Run(FRESH, before).value.crd.running)
    ensures NeverSelects(after)
  {
    RunConcat(FRESH, before + [l], after);
    RunConcat(FRESH, before, [l]);
    var m := Run(FRESH, before).value;
    RunSingle(m, l, []);
    assert [l] + [] == [l];
    LeavingSelectsNothing(Step(m, l), after);
  }

  /** A head check that finds Running true goes to the select statement, and every branch is open. */
  lemma RunningHeadSelects(m: Machine)
    requires m.pc.Head? && m.crd.running
    ensures Enabled(m, CheckRunning)
    ensures var t := Step(m, CheckRunning);
            && t.crd == m.crd
            && Enabled(t, WatchClosed) && Enabled(t, CleanUpTick) && Enabled(t, ContextDone)
            && Enabled(t, ErrorEvent) && Enabled(t, ForeignObject) && Enabled(t, OtherEvent)
            && (Enabled(t, ForceWake) <==> m.crd.Closed())
  {
  }

  /** A restart that could not open a new watch is followed by GiveUp, before any head check. */
  lemma {:induction false} FailedRestartGivesUp(m: Machine, ls: seq<Label>, k: nat) returns (j: nat)
    requires m.pc.Failing? && Run(m, ls).Some? && k < |ls| && ls[k] == CheckRunning
    ensures j < k && ls[j].GiveUp?
    decreases |ls|
  {
    if ls[0].GiveUp? {
      j := 0;
    } else {
      j := FailedRestartGivesUp(Step(m, ls[0]), ls[1..], k - 1);
      j := j + 1;
    }
  }

  /** A first watch that cannot be opened makes Start return at once, with nothing ever started. */
  lemma FailedOpenReturns(m: Machine)
    requires Inv(m) && m.pc.Opening?
    ensures Enabled(m, Open(false))
    ensures var t := Step(m, Open(false)); t.pc.Returned? && t.crd == m.crd && t.crd.pool == []
  {
  }

  // ---- cleanUp ----

  predicate Dealt(ls: seq<Label>, n: string) {
    exists k :: 0 <= k < |ls| && (ls[k] == Reap(n) || ls[k] == Spare(n))
  }

  lemma {:induction false} NobodyIsForgotten(m: Machine, ls: seq<Label>, n: string)
    requires m.pc.Cleaning? && n in m.pc.todo && Run(m, ls).Some?
    requires !Run(m, ls).value.pc.Cleaning? || n !in Run(m, ls).value.pc.todo
    ensures Dealt(ls, n)
    decreases |ls|
  {
    if ls[0] == Reap(n) || ls[0] == Spare(n) {
      assert Dealt(ls, n);
    } else {
      NobodyIsForgotten(Step(m, ls[0]), ls[1..], n);
      var k :| 0 <= k < |ls[1..]| && (ls[1..][k] == Reap(n) || ls[1..][k] == Spare(n));
      assert ls[k + 1] == ls[1..][k];
    }
  }

  /** A cleanUp comes to its end only after every key of the map has been asked. */
  lemma CleanUpAsksEveryKey(m: Machine, ls: seq<Label>, n: string)
    requires Run(m, [CleanUpTick] + ls + [CleanUpEnd]).Some? && n in m.crd.watchers
    ensures Dealt(ls, n)
  {
    assert [CleanUpTick] + ls + [CleanUpEnd] == [CleanUpTick] + (ls + [CleanUpEnd]);
    RunSingle(m, CleanUpTick, ls + [CleanUpEnd]);
    var t := Step(m, CleanUpTick);
    RunConcat(t, ls, [CleanUpEnd]);
    NobodyIsForgotten(t, ls, n);
  }

  /** The step with which cleanUp deals with a key. */
  function Dealing(s: Crd, n: string): Label
    requires s.Owns(n)
  {
    if s.pool[s.watchers[n].child].running then Spare(n) else Reap(n)
  }

  lemma DealingRuns(s: Crd, done: set<string>, todo: set<string>, n: string, rest: seq<Label>)
    requires s.Owns(n) && n in todo && n !in done
    ensures Run(Machine(ReapEntries(s, done), Cleaning(todo)), [Dealing(s, n)] + rest)
            == Run(Machine(ReapEntries(s, done + {n}), Cleaning(todo - {n})), rest)
  {
    ReapEntriesAdd(s, done, n);
    RunSingle(Machine(ReapEntries(s, done), Cleaning(todo)), Dealing(s, n), rest);
  }

  lemma {:induction false} CleanUpSomeRuns(s: Crd, done: set<string>, todo: set<string>) returns (ls: seq<Label>)
    requires done !! todo && done + todo == s.watchers.Keys
    requires forall n :: n in s.watchers ==> s.Owns(n)
    ensures Run(Machine(ReapEntries(s, done), Cleaning(todo)), ls + [CleanUpEnd])
            == Some(Machine(ReapEntries(s, s.watchers.Keys), Head))
    decreases todo
  {
    if todo == {} {
      assert done == s.watchers.Keys;
      assert ([] + [CleanUpEnd])[1..] == [];
      return [];
    }
    var n :| n in todo;
    var rest := CleanUpSomeRuns(s, done + {n}, todo - {n});
    DealingRuns(s, done, todo, n, rest + [CleanUpEnd]);
    ls := [Dealing(s, n)] + rest;
    assert ls + [CleanUpEnd] == [Dealing(s, n)] + (rest + [CleanUpEnd]);
  }

  /** cleanUp is a run of the machine, from its tick to its end: it deletes exactly the keys whose leaf
      is not running, and stops none. */
  lemma CleanUpIsRun(m: Machine) returns (ls: seq<Label>)
    requires Linked(m.crd) && m.pc.Select?
    ensures Run(m, [CleanUpTick] + ls + [CleanUpEnd]).Some?
    ensures var t := Run(m, [CleanUpTick] + ls + [CleanUpEnd]).value;
            && t.pc == Head
            && (forall n :: n in m.crd.watchers ==>
                  m.crd.Owns(n) && (n in t.crd.watchers <==> m.crd.pool[m.crd.watchers[n].child].running))
            && (forall n :: n in t.crd.watchers ==> n in m.crd.watchers && t.crd.watchers[n] == m.crd.watchers[n])
            && |t.crd.pool| == |m.crd.pool|
            && (forall i :: 0 <= i < |m.crd.pool| ==> t.crd.pool[i].running == m.crd.pool[i].running)
  {
    forall n | n in m.crd.watchers ensures m.crd.Owns(n) { assert EntryLinked(m.crd, n); }
    ReapNoEntries(m.crd);
    ls := CleanUpSomeRuns(m.crd, {}, m.crd.watchers.Keys);
    assert ([CleanUpTick] + ls + [CleanUpEnd])[1..] == ls + [CleanUpEnd];
  }
}
