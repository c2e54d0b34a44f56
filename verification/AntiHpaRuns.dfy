/** What holds over every interleaving of an AntiHPAWatcher with its setters and Stop. */
module AntiHpaRuns {
  import opened Common
  import opened Children
  import opened LeafCalls
  import opened LeafReports
  import opened AntiHpaTree
  import opened AntiHpaLoop

  /** Leaf c has the settings of s. */
  predicate SetLike(c: Child, s: Fields) {
    c.kind.AntiHpa? && c.settings.enabled == s.enabled && c.settings.timeout == s.timeout
  }

  predicate Like(c: Child, s: Fields) { SetLike(c, s) && c.running == s.running && c.ready == s.armed }

  lemma {:induction false} CallsMatch(c: Child, s: Fields, calls: seq<Call>)
    requires SetLike(c, s)
    ensures SetLike(CallAll(c, calls), ApplyAll(s, calls))
    ensures c.running == s.running ==> CallAll(c, calls).running == ApplyAll(s, calls).running
    decreases |calls|
  {
    if calls != [] { CallsMatch(c, s, calls[..|calls| - 1]); }
  }

  /** Calls neither look at the timer nor touch it, and never set Running. */
  lemma {:induction false} CallsSpareTimer(s: Fields, calls: seq<Call>, b: bool)
    ensures ApplyAll(s, calls).armed == s.armed
    ensures ApplyAll(s.(armed := b), calls) == ApplyAll(s, calls).(armed := b)
    ensures ApplyAll(s, calls).running ==> s.running
    decreases |calls|
  {
    if calls != [] { CallsSpareTimer(s, calls[..|calls| - 1], b); }
  }

  /** A leaf whose replay has come to a leaf like s, and to a stage of its loop. */
  ghost predicate Reaches(c: Child, trace: seq<Atom>, s: Fields, stage: Stage) {
    && Replay(c, trace).Some?
    && var d := Replay(c, trace).value;
       d.phase.Looping? && d.stage == stage && Like(d, s)
  }

  lemma CallsReach(c: Child, trace: seq<Atom>, s: Fields, stage: Stage, calls: seq<Call>)
    requires Reaches(c, trace, s, stage)
    ensures Reaches(c, trace + Seen(calls), ApplyAll(s, calls), stage)
  {
    var d := Replay(c, trace).value;
    ReplayCalls(c, trace, calls);
    CallsMatch(d, s, calls);
    CallsReplay(d, calls);
    CallsSpareTimer(s, calls, true);
  }

  lemma MoveReaches(c: Child, trace: seq<Atom>, s: Fields, stage: Stage, m: Move, s': Fields, stage': Stage)
    requires Reaches(c, trace, s, stage) && CanMove(Replay(c, trace).value, m)
    requires var d := MoveChild(Replay(c, trace).value, m); d.phase.Looping? && d.stage == stage' && Like(d, s')
    ensures Reaches(c, trace + [Own(m)], s', stage')
  {
    ReplayOwn(c, trace, m);
  }

  /** A tick that comes, from the select statement. */
  lemma TickReaches(c: Child, s: Fields, wake: Wake)
    requires wake.Tick? && s.armed && Reaches(c, [], s, Waiting)
    ensures Reaches(c, Body(s, wake).trace, Body(s, wake).fields, AtHead)
  {
    var s1 := ApplyAll(s, wake.g1);
    var s2 := ApplyAll(s1, wake.g2);
    var t1 := Seen(wake.g1);
    CallsReach(c, [], s, Waiting, wake.g1);
    CallsSpareTimer(s, wake.g1, true);
    CallsSpareTimer(s1, wake.g2, false);
    assert [] + t1 == t1;
    if !s1.enabled {
      MoveReaches(c, t1, s1, Waiting, Skip, s1.(armed := false), AtHead);
    } else {
      MoveReaches(c, t1, s1, Waiting, Aim, s1, Cleared);
      CallsReach(c, t1 + [Own(Aim)], s1, Cleared, wake.g2);
      var t2 := t1 + [Own(Aim)] + Seen(wake.g2);
      MoveReaches(c, t2, s2, Cleared, Miss, s2, AtHead);
      MoveReaches(c, t2, s2, Cleared, Load, s2, Firing);
      MoveReaches(c, t2 + [Own(Load)], s2, Firing, Act, s2, AtHead);
    }
  }

  lemma BodyReaches(c: Child, s: Fields, wake: Wake)
    requires Reaches(c, [], s, Waiting)
    ensures var r := Body(s, wake);
            Reaches(c, r.trace, r.fields, if r.outcome.Blocked? then Waiting else AtHead)
  {
    if wake.ContextDone? {
      MoveReaches(c, [], s, Waiting, Rest, s, AtHead);
      assert [] + [Own(Rest)] == [Own(Rest)];
      MoveReaches(c, [Own(Rest)], s, AtHead, Halt, s.(running := false, armed := true), AtHead);
      assert [Own(Rest)] + [Own(Halt)] == [Own(Rest), Own(Halt)];
    } else if s.armed {
      TickReaches(c, s, wake);
    }
  }

  /** Where the leaf is when the loop has come to an outcome. */
  ghost predicate EndsAs(d: Child, s: Fields, outcome: Outcome) {
    && Like(d, s)
    && match outcome
       case Ongoing => d.phase.Looping? && d.stage.AtHead?
       case Blocked => d.phase.Looping? && d.stage.Waiting?
       case Returned => d.phase.Exited?
  }

  lemma TurnReplays(c: Child, s: Fields, round: Round)
    requires c.phase.Looping? && c.stage.AtHead? && Like(c, s)
    ensures var r := Turn(s, round);
            Replay(c, r.trace).Some? && EndsAs(Replay(c, r.trace).value, r.fields, r.outcome)
  {
    var s0 := ApplyAll(s, round.before);
    var t0 := Seen(round.before);
    assert Replay(c, []) == Some(c);
    CallsReach(c, [], s, AtHead, round.before);
    assert [] + t0 == t0;
    if !s0.running {
      ReplayOwn(c, t0, Leave);
    } else {
      MoveReaches(c, t0, s0, AtHead, Check, s0, Waiting);
      var d := Replay(c, t0 + [Own(Check)]).value;
      assert Replay(d, []) == Some(d);
      BodyReaches(d, s0, round.wake);
      ReplayConcat(c, t0 + [Own(Check)], Body(s0, round.wake).trace);
    }
  }

  lemma {:induction false} LoopReplays(c: Child, s: Fields, rounds: seq<Round>)
    requires c.phase.Looping? && c.stage.AtHead? && Like(c, s)
    ensures var r := Loop(s, rounds);
            Replay(c, r.trace).Some? && EndsAs(Replay(c, r.trace).value, r.fields, r.outcome)
    decreases |rounds|
  {
    if rounds != [] {
      TurnReplays(c, s, rounds[0]);
      var r := Turn(s, rounds[0]);
      if r.outcome.Ongoing? {
        LoopReplays(Replay(c, r.trace).value, r.fields, rounds[1..]);
        ReplayConcat(c, r.trace, Loop(r.fields, rounds[1..]).trace);
      }
    }
  }

  /** Every run of Start, with everything that other goroutines do meanwhile, is a behaviour of
      the leaf automaton with the same settings; it ends with the same settings, flag and timer, at a
      head check if the loop goes on, in the select statement if no tick can come, and past Leave
      if and only if Start has returned. */
  lemma RunRefinesLeaf(c: Child, s: Fields, prelude: seq<Call>, rounds: seq<Round>)
    requires c.phase.Spawned? && SetLike(c, s)
    ensures var r := Run(s, prelude, rounds);
            Replay(c, r.trace).Some? && EndsAs(Replay(c, r.trace).value, r.fields, r.outcome)
  {
    var head := Seen(prelude) + [Own(Begin)];
    CallsReplay(c, prelude);
    CallsMatch(c, s, prelude);
    ReplayOwn(c, Seen(prelude), Begin);
    var s1 := ApplyAll(s, prelude).(running := true, armed := true);
    LoopReplays(Replay(c, head).value, s1, rounds);
    ReplayConcat(c, head, Loop(s1, rounds).trace);
  }

  predicate IsKill(e: Event) { e.Killed? }

  function Kills(log: seq<Event>): nat { CountIf(log, IsKill) }

  lemma BodyActs(s: Fields, wake: Wake)
    ensures Acts(Body(s, wake).trace) == Kills(Body(s, wake).log)
  {
    var r := Body(s, wake);
    if r.log != [] {
      assert r.log == [r.log[0]];
      CountIfSingle(r.log[0], IsKill);
    }
    if wake.Tick? { TickActs(s, wake); }
  }

  lemma TickActs(s: Fields, wake: Wake)
    requires wake.Tick?
    ensures var r := Body(s, wake);
            && |r.log| <= 1
            && Acts(r.trace) == if |r.log| == 1 && IsKill(r.log[0]) then 1 else 0
  {
    var t1 := Seen(wake.g1) + [Own(Aim)];
    var t2 := t1 + Seen(wake.g2);
    assert [] + Seen(wake.g1) + [Own(Skip)] == Seen(wake.g1) + [Own(Skip)];
    assert [] + Seen(wake.g1) + [Own(Aim)] == t1;
    ActsOfStretch([], wake.g1, Skip);
    ActsOfStretch([], wake.g1, Aim);
    ActsOfStretch(t1, wake.g2, Miss);
    ActsOfStretch(t1, wake.g2, Load);
    ActsConcat(t2 + [Own(Load)], [Own(Act)]);
  }

  lemma TurnActs(s: Fields, round: Round)
    ensures Acts(Turn(s, round).trace) == Kills(Turn(s, round).log)
  {
    var s0 := ApplyAll(s, round.before);
    var b := Body(s0, round.wake);
    BodyActs(s0, round.wake);
    HeadActs(round.before, b.trace);
    assert [] + b.log == b.log;
  }

  lemma {:induction false} LoopActs(s: Fields, rounds: seq<Round>)
    ensures Acts(Loop(s, rounds).trace) == Kills(Loop(s, rounds).log)
    decreases |rounds|
  {
    if rounds != [] {
      TurnActs(s, rounds[0]);
      var r := Turn(s, rounds[0]);
      if r.outcome.Ongoing? {
        LoopActs(r.fields, rounds[1..]);
        ActsConcat(r.trace, Loop(r.fields, rounds[1..]).trace);
        CountIfConcat(r.log, Loop(r.fields, rounds[1..]).log, IsKill);
      }
    }
  }

  lemma RunActs(s: Fields, prelude: seq<Call>, rounds: seq<Round>)
    ensures Acts(Run(s, prelude, rounds).trace) == Kills(Run(s, prelude, rounds).log)
  {
    var s1 := ApplyAll(s, prelude).(running := true, armed := true);
    LoopActs(s1, rounds);
    CallsNeverAct(prelude);
    ActsConcat(Seen(prelude), [Own(Begin)]);
    ActsConcat(Seen(prelude) + [Own(Begin)], Loop(s1, rounds).trace);
    assert [] + Loop(s1, rounds).log == Loop(s1, rounds).log;
  }

  /** A leaf with the settings of s. */
  function LeafOf(s: Fields): Child {
    NewChild(AntiHpa, "", Configuration(s.enabled, 0, 0, "", "", s.timeout)).(phase := Spawned)
  }

  lemma KillsSplit(s: Fields, prelude: seq<Call>, rounds: seq<Round>, before: seq<Atom>, a: Atom, after: seq<Atom>)
    requires Run(s, prelude, rounds).trace == before + [a] + after && a != Own(Act)
    ensures Kills(Run(s, prelude, rounds).log) == Acts(before) + Acts(after)
    ensures Replay(LeafOf(s), before + [a] + after).Some?
    ensures Replay(LeafOf(s), before + [a] + after).value.running == Run(s, prelude, rounds).fields.running
  {
    RunRefinesLeaf(LeafOf(s), s, prelude, rounds);
    RunActs(s, prelude, rounds);
    ActsConcat(before + [a], after);
    ActsConcat(before, [a]);
  }

  /** A run stopped after its setRunning(true) sends at most one more delete request. */
  lemma AtMostOneKillAfterStop(s: Fields, prelude: seq<Call>, rounds: seq<Round>,
                               before: seq<Atom>, after: seq<Atom>)
    requires Run(s, prelude, rounds).trace == before + [STOPPED] + after && Own(Begin) in before
    ensures Kills(Run(s, prelude, rounds).log) == Acts(before) + Acts(after)
    ensures Acts(after) <= 1
    ensures !Run(s, prelude, rounds).fields.running
  {
    KillsSplit(s, prelude, rounds, before, STOPPED, after);
    AtMostOneActAfterStop(LeafOf(s), before, after);
  }

  /** The same for a run that has been disabled, at any time, and is not enabled again. */
  lemma AtMostOneKillAfterDisable(s: Fields, prelude: seq<Call>, rounds: seq<Round>,
                                  before: seq<Atom>, after: seq<Atom>)
    requires Run(s, prelude, rounds).trace == before + [Called(SetEnabled(false))] + after
    requires Called(SetEnabled(true)) !in after
    ensures Kills(Run(s, prelude, rounds).log) == Acts(before) + Acts(after)
    ensures Acts(after) <= 1
  {
    KillsSplit(s, prelude, rounds, before, Called(SetEnabled(false)), after);
    AtMostOneActAfterDisable(LeafOf(s), before, after);
  }

  // ---- Runs without calls ----

  /** A round in which nobody calls the watcher. */
  predicate AloneRound(round: Round) {
    && round.before == []
    && (round.wake.Tick? ==>
          round.wake.g1 == [] && round.wake.g2 == [])
  }

  predicate Alone(rounds: seq<Round>) {
    forall k :: 0 <= k < |rounds| ==> AloneRound(rounds[k])
  }

  const TICK := Round([], Tick([], Some([]), [], true))

  function Ticks(n: nat): seq<Round> { if n == 0 then [] else [TICK] + Ticks(n - 1) }

  lemma OneTick(s: Fields)
    requires s.running && s.enabled && s.armed
    ensures var r := Turn(s, TICK);
            && r.fields == s && r.outcome.Ongoing? && r.log == [r.log[0]] && r.log[0].Killed?
            && r.trace == [Own(Check)] + ([Own(Aim)] + ([Own(Load)] + [Own(Act)]))
  {
    var none: seq<Call> := [];
    assert Seen(none) == [];
    var b := Body(s, TICK.wake);
    assert b.trace == [Own(Aim)] + ([Own(Load)] + [Own(Act)]);
    assert [] + b.log == b.log;
  }

  lemma LoopCons(s: Fields, round: Round, rounds: seq<Round>)
    requires Turn(s, round).outcome.Ongoing?
    ensures var r := Turn(s, round);
            var rest := Loop(r.fields, rounds);
            && Loop(s, [round] + rounds) == rest.After(r.log, r.trace)
            && Kills(rest.After(r.log, r.trace).log) == Kills(r.log) + Kills(rest.log)
  {
    assert ([round] + rounds)[1..] == rounds;
    CountIfConcat(Turn(s, round).log, Loop(Turn(s, round).fields, rounds).log, IsKill);
  }

  /** One volley in front of n. */
  lemma AfterVolley(rest: LoopReport, r: LoopReport, n: nat)
    requires Kills(rest.log) == n && rest.trace == Volleys(n)
    requires |r.log| == 1 && r.log[0].Killed? && r.trace == [Own(Check)] + ([Own(Aim)] + ([Own(Load)] + [Own(Act)]))
    ensures Kills(rest.After(r.log, r.trace).log) == n + 1 && rest.After(r.log, r.trace).trace == Volleys(n + 1)
  {
    AfterOne(rest, r.log[0], r.trace, IsKill);
    assert r.log == [r.log[0]];
    VolleysGrow(n);
  }

  /** The automaton's volleys are rounds of this loop: n ticks, n requests. */
  lemma {:induction false} TicksAreVolleys(s: Fields, n: nat)
    requires s.running && s.enabled && s.armed
    ensures Alone(Ticks(n))
    ensures var r := Loop(s, Ticks(n));
            r.fields == s && r.outcome.Ongoing? && Kills(r.log) == n && r.trace == Volleys(n)
  {
    if n > 0 {
      TicksAreVolleys(s, n - 1);
      OneTick(s);
      LoopCons(s, TICK, Ticks(n - 1));
      AfterVolley(Loop(s, Ticks(n - 1)), Turn(s, TICK), n - 1);
    }
  }

  /** An early Stop is lost in this loop as in the automaton: for every n there is a run, without any
      further call, that is stopped before its setRunning(true) and sends n requests. */
  lemma EarlyStopIsLostHere(s: Fields, n: nat)
    requires s.enabled
    ensures Alone(Ticks(n))
    ensures var r := Run(s, [Stop], Ticks(n));
            && r.fields.running && Kills(r.log) == n
            && r.trace == [STOPPED] + ([Own(Begin)] + Rampage(AntiHpa, false, n))
  {
    assert [Stop][..0] == [];
    assert ApplyAll(s, [Stop]) == Apply(ApplyAll(s, []), Stop);
    var s1 := ApplyAll(s, [Stop]).(running := true, armed := true);
    TicksAreVolleys(s1, n);
    assert Seen([Stop]) == [STOPPED];
    assert [] + Loop(s1, Ticks(n)).log == Loop(s1, Ticks(n)).log;
    assert [STOPPED] + [Own(Begin)] + Volleys(n) == [STOPPED] + ([Own(Begin)] + Rampage(AntiHpa, false, n));
  }

  /** Left alone at its head check, the loop sends another request in some continuation if and only
      if it is running, enabled, and its timer is armed. */
  lemma AloneKillsIff(s: Fields)
    ensures (exists rounds :: Alone(rounds) && Kills(Loop(s, rounds).log) > 0)
            <==> s.running && s.enabled && s.armed
  {
    if s.running && s.enabled && s.armed {
      TicksAreVolleys(s, 1);
    } else {
      forall rounds | Alone(rounds) ensures Kills(Loop(s, rounds).log) == 0 { UnwillingIsSilent(s, rounds); }
    }
  }

  predicate Idle(s: Fields) { !s.running || (!s.enabled || !s.armed) }

  lemma AloneTurnIsSilent(s: Fields, round: Round)
    requires AloneRound(round) && Idle(s)
    ensures Kills(Turn(s, round).log) == 0 && Idle(Turn(s, round).fields)
  {
    var log := Body(s, round.wake).log;
    assert [] + log == log;
    CountIfSingle(Disabled, IsKill);
    CountIfSingle(Woken, IsKill);
  }

  lemma {:induction false} UnwillingIsSilent(s: Fields, rounds: seq<Round>)
    requires Alone(rounds) && Idle(s)
    ensures Kills(Loop(s, rounds).log) == 0
    decreases |rounds|
  {
    if rounds != [] {
      assert AloneRound(rounds[0]) && Alone(rounds[1..]);
      AloneTurnIsSilent(s, rounds[0]);
      var r := Turn(s, rounds[0]);
      if r.outcome.Ongoing? {
        UnwillingIsSilent(r.fields, rounds[1..]);
        CountIfConcat(r.log, Loop(r.fields, rounds[1..]).log, IsKill);
      }
    }
  }

  // ---- The disabled tick ----

  /** A tick that finds the watcher disabled is its last: whatever is enabled afterwards, no
      further request is sent, and the loop cannot move on unless the context ends or the next
      head check finds it stopped. */
  lemma {:induction false} DisabledTickIsFinal(s: Fields, rounds: seq<Round>)
    requires !s.armed
    ensures Kills(Loop(s, rounds).log) == 0
    ensures Loop(s, rounds).log == [] || Loop(s, rounds).log == [Woken]
    decreases |rounds|
  {
    CountIfSingle(Woken, IsKill);
    if rounds != [] {
      UnarmedTurn(s, rounds[0]);
      var r := Turn(s, rounds[0]);
      if r.outcome.Ongoing? {
        StoppedLoopIsSilent(r.fields, rounds[1..]);
        assert [Woken] + Loop(r.fields, rounds[1..]).log == [Woken];
      }
    }
  }

  lemma UnarmedTurn(s: Fields, round: Round)
    requires !s.armed
    ensures var r := Turn(s, round);
            if r.outcome.Ongoing? then r.log == [Woken] && !r.fields.running else r.log == []
  {
    CallsSpareTimer(s, round.before, true);
    assert [] + [Woken] == [Woken];
  }

  lemma StoppedLoopIsSilent(s: Fields, rounds: seq<Round>)
    requires !s.running
    ensures Loop(s, rounds).log == []
    ensures !Loop(s, rounds).fields.running
  {
    if rounds != [] { CallsSpareTimer(s, rounds[0].before, true); }
  }

  /** A round that enables the watcher just in time and gets an empty listing. */
  const REQUEST := Round([], Tick([SetEnabled(true)], Some([]), [], true))

  lemma RequestIsSent(s: Fields)
    requires s.armed && s.running
    ensures Kills(Loop(s, [REQUEST]).log) == 1
  {
    var calls := [SetEnabled(true)];
    assert ApplyAll(s, calls) == Apply(ApplyAll(s, []), calls[0]) by { assert calls[..0] == []; }
    var r := Turn(s, REQUEST);
    assert r.outcome.Ongoing? && r.log == [] + [Killed(Victim([]), true)];
    assert [REQUEST][1..] == [];
    assert Loop(s, [REQUEST]).log == r.log + [] == [Killed(Victim([]), true)];
    CountIfSingle(Killed(Victim([]), true), IsKill);
  }

  ghost predicate CanStillKill(s: Fields) {
    exists more :: Kills(Loop(s, more).log) > 0
  }

  /** From the head of the loop a request is still possible, in some continuation, if and only if
      the timer is armed and the watcher is running. */
  lemma RequestPossibleIffArmed(s: Fields)
    ensures CanStillKill(s) <==> s.armed && s.running
  {
    if !s.armed {
      forall more ensures Kills(Loop(s, more).log) == 0 { DisabledTickIsFinal(s, more); }
    } else if !s.running {
      forall more ensures Kills(Loop(s, more).log) == 0 { StoppedLoopIsSilent(s, more); }
    } else {
      RequestIsSent(s);
    }
  }

  /** A tick disarms the timer for good if and only if it finds the watcher disabled, and then
      it says so in the log. */
  lemma DisabledTickDisarms(s: Fields, wake: Wake)
    requires wake.Tick? && s.armed
    ensures Body(s, wake).fields.armed <==> ApplyAll(s, wake.g1).enabled
    ensures Body(s, wake).fields.armed <==> Disabled !in Body(s, wake).log
    ensures Body(s, wake).outcome.Ongoing?
  {
    CallsSpareTimer(ApplyAll(s, wake.g1).(armed := false), wake.g2, true);
  }

  lemma TurnArms(s: Fields, round: Round)
    requires Turn(s, round).fields.running
    ensures Turn(s, round).fields.armed <==> s.armed && Disabled !in Turn(s, round).log
    ensures !s.armed ==> !Turn(s, round).outcome.Ongoing? && Turn(s, round).log == []
  {
    CallsSpareTimer(s, round.before, true);
    var s0 := ApplyAll(s, round.before);
    if round.wake.Tick? && s0.armed { DisabledTickDisarms(s0, round.wake); }
    assert [] + Body(s0, round.wake).log == Body(s0, round.wake).log;
  }

  lemma {:induction false} LoopArms(s: Fields, rounds: seq<Round>)
    requires Loop(s, rounds).fields.running
    ensures Loop(s, rounds).fields.armed <==> s.armed && Disabled !in Loop(s, rounds).log
    decreases |rounds|
  {
    if rounds != [] {
      var r := Turn(s, rounds[0]);
      if r.outcome.Ongoing? {
        if !r.fields.running { StoppedLoopIsSilent(r.fields, rounds[1..]); }
        TurnArms(s, rounds[0]);
        LoopArms(r.fields, rounds[1..]);
      } else {
        TurnArms(s, rounds[0]);
      }
    }
  }

  /** Over every run of Start that is still running: the timer is armed if and only if no tick has
      found the watcher disabled, and this decides whether any request can still follow. */
  lemma RunArms(s: Fields, prelude: seq<Call>, rounds: seq<Round>)
    requires Run(s, prelude, rounds).fields.running
    ensures var r := Run(s, prelude, rounds);
            && (r.fields.armed <==> Disabled !in r.log)
            && (CanStillKill(r.fields) <==> Disabled !in r.log)
  {
    var s1 := ApplyAll(s, prelude).(running := true, armed := true);
    LoopArms(s1, rounds);
    assert [] + Loop(s1, rounds).log == Loop(s1, rounds).log;
    RequestPossibleIffArmed(Run(s, prelude, rounds).fields);
  }

  /** One SetEnabled(false) before the first tick is enough: the run goes on running, and no script
      that follows, with any setters in it, makes it send a request. */
  lemma DisabledOnceIsDisabledForGood(s: Fields, listing: Option<seq<PodMetrics>>, more: seq<Round>)
    ensures var r := Run(s, [SetEnabled(false)], [Round([], Tick([], listing, [], true))]);
            && r.outcome.Ongoing? && r.fields.running && Disabled in r.log
            && Kills(Loop(r.fields, more).log) == 0
  {
    var calls := [SetEnabled(false)];
    assert ApplyAll(s, calls) == Apply(ApplyAll(s, []), calls[0]) by { assert calls[..0] == []; }
    var s1 := ApplyAll(s, calls).(running := true, armed := true);
    var round := Round([], Tick([], listing, [], true));
    SingleDisabledRound(s1, round);
    assert [] + Loop(s1, [round]).log == [Disabled] && [Disabled][0] == Disabled;
    DisabledTickIsFinal(Loop(s1, [round]).fields, more);
  }

  lemma SingleDisabledRound(s: Fields, round: Round)
    requires s.running && s.armed && !s.enabled
    requires round.before == [] && round.wake.Tick? && round.wake.g1 == []
    ensures var r := Loop(s, [round]);
            r.outcome.Ongoing? && r.fields == s.(armed := false) && r.log == [Disabled]
  {
    assert Body(s, round.wake).fields == s.(armed := false);
    var t := Turn(s, round);
    assert t.log == [] + [Disabled] && t.fields == s.(armed := false) && t.outcome.Ongoing?;
    assert [round][1..] == [];
    assert Loop(t.fields, []).After(t.log, t.trace).log == t.log + [] == [Disabled];
  }

  // ---- What a round answers to its wake-up ----

  /** A tick that comes sends a delete request if and only if it finds the watcher enabled and the
      listing comes; the request names the pod of the last container with maximal CPU, or no pod
      at all when no container of the listing converts. */
  lemma RequestNamesBusiestPod(s: Fields, wake: Wake)
    requires wake.Tick? && s.armed
    ensures var log := Body(s, wake).log;
            && (Kills(log) == 1 <==> ApplyAll(s, wake.g1).enabled && wake.listing.Some?)
            && (Kills(log) == 0 <==> !ApplyAll(s, wake.g1).enabled || wake.listing.None?)
            && forall e :: e in log && e.Killed? ==> e.ok == wake.ok && VictimOf(wake.listing.value, e.pod)
  {
    BodyAnswers(s, wake);
    var log := Body(s, wake).log;
    assert log == [log[0]];
    CountIfSingle(log[0], IsKill);
  }

  /** The fields with which round k waits for its wake-up. */
  function Waits(s: Fields, rounds: seq<Round>, k: nat): Fields
    requires k < |rounds|
  {
    ApplyAll(Loop(s, rounds[..k]).fields, rounds[k].before)
  }

  /** What a later round waits with does not depend on how the first was reached. */
  lemma WaitsShift(s: Fields, rounds: seq<Round>, k: nat)
    requires 0 < k < |rounds| && Turn(s, rounds[0]).outcome.Ongoing?
    ensures Waits(s, rounds, k) == Waits(Turn(s, rounds[0]).fields, rounds[1..], k - 1)
  {
    assert rounds[..k] == [rounds[0]] + rounds[1..][..k - 1];
    LoopCons(s, rounds[0], rounds[1..][..k - 1]);
  }

  /** Over every run of the loop the k-th entry of the log answers the k-th wake-up of the script. */
  lemma {:induction false} LogAnswersScript(s: Fields, rounds: seq<Round>, k: nat)
    requires k < |Loop(s, rounds).log|
    ensures k < |rounds| && Answers(Waits(s, rounds, k), rounds[k].wake, [Loop(s, rounds).log[k]])
    decreases |rounds|
  {
    var r := Turn(s, rounds[0]);
    var s0 := ApplyAll(s, rounds[0].before);
    BodyAnswers(s0, rounds[0].wake);
    assert [] + Body(s0, rounds[0].wake).log == Body(s0, rounds[0].wake).log;
    TurnLogsOnce(s, rounds[0]);
    assert rounds == [rounds[0]] + rounds[1..];
    if r.outcome.Ongoing? { LoopCons(s, rounds[0], rounds[1..]); }
    if k == 0 {
      assert rounds[..0] == [];
      assert [r.log[0]] == r.log;
    } else {
      LogAnswersScript(r.fields, rounds[1..], k - 1);
      WaitsShift(s, rounds, k);
    }
  }

  lemma TurnLogsOnce(s: Fields, round: Round)
    ensures var r := Turn(s, round); |r.log| == if r.outcome.Ongoing? then 1 else 0
  {
    assert [] + Body(ApplyAll(s, round.before), round.wake).log == Body(ApplyAll(s, round.before), round.wake).log;
  }

  lemma OneRoundMore(s: Fields, rounds: seq<Round>)
    requires rounds != [] && Turn(s, rounds[0]).outcome.Ongoing?
    ensures var rest := Loop(Turn(s, rounds[0]).fields, rounds[1..]);
            && |Loop(s, rounds).log| == 1 + |rest.log|
            && Loop(s, rounds).outcome == rest.outcome && Loop(s, rounds).fields == rest.fields
  {
    TurnLogsOnce(s, rounds[0]);
    assert rounds == [rounds[0]] + rounds[1..];
    LoopCons(s, rounds[0], rounds[1..]);
  }

  /** As long as the loop goes on it answers every round, and it ends with the head check that finds
      Running false. */
  lemma {:induction false} EveryRoundIsAnswered(s: Fields, rounds: seq<Round>)
    ensures var r := Loop(s, rounds);
            && |r.log| <= |rounds|
            && (r.outcome.Ongoing? <==> |r.log| == |rounds|)
            && (r.outcome.Returned? ==> !Waits(s, rounds, |r.log|).running)
    decreases |rounds|
  {
    if rounds != [] {
      var r := Turn(s, rounds[0]);
      TurnLogsOnce(s, rounds[0]);
      if r.outcome.Ongoing? {
        EveryRoundIsAnswered(r.fields, rounds[1..]);
        OneRoundMore(s, rounds);
        var n := |Loop(r.fields, rounds[1..]).log|;
        if n < |rounds[1..]| {
          WaitsShift(s, rounds, n + 1);
        }
      } else {
        assert rounds[..0] == [];
      }
    }
  }

  /** How a round leaves the flag: the end of the context clears it, and nothing else but a call
      of Stop does. */
  lemma OnlyContextEndsLoop(s: Fields, round: Round)
    requires ApplyAll(s, round.before).running && Turn(s, round).outcome.Ongoing?
    ensures round.wake.ContextDone? ==> !Turn(s, round).fields.running
    ensures round.wake.Tick? ==>
              (Turn(s, round).fields.running <==> STOPPED !in Turn(s, round).trace[|round.before|..])
  {
    if round.wake.Tick? { TickRunsOn(ApplyAll(s, round.before), round.wake); }
    var t := Body(ApplyAll(s, round.before), round.wake).trace;
    assert Turn(s, round).trace[|round.before|..] == [Own(Check)] + t;
  }

  lemma TickRunsOn(s: Fields, wake: Wake)
    requires wake.Tick? && s.running && s.armed
    ensures Body(s, wake).fields.running <==> STOPPED !in Body(s, wake).trace
  {
    CallsStop(s, wake.g1);
    CallsStop(ApplyAll(s, wake.g1).(armed := false), wake.g2);
    CallsSpareTimer(ApplyAll(s, wake.g1), wake.g2, false);
  }

  /** Calls clear the flag if and only if a Stop is among them. */
  lemma {:induction false} CallsStop(s: Fields, calls: seq<Call>)
    ensures ApplyAll(s, calls).running <==> s.running && STOPPED !in Seen(calls)
    decreases |calls|
  {
    if calls != [] {
      var n := |calls| - 1;
      CallsStop(s, calls[..n]);
      assert Seen(calls) == Seen(calls[..n]) + [Called(calls[n])];
    }
  }

  /** A loop whose flag is down says nothing more and returns at its next head check. */
  lemma DownReturns(s: Fields, rounds: seq<Round>)
    requires !s.running && rounds != []
    ensures Loop(s, rounds).outcome.Returned? && Loop(s, rounds).log == []
  {
    CallsSpareTimer(s, rounds[0].before, true);
  }
}
