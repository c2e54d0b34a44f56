/** What holds over every interleaving of a PodWatcher with its setters and Stop. */
module PodRuns {
  import opened Common
  import opened Children
  import opened LeafCalls
  import opened LeafReports
  import opened PodLoop

  // ---- The loop refines the leaf automaton ----

  /** Leaf c has the settings of s, and a pod to choose if and only if s has. */
  predicate SetLike(c: Child, s: Fields) {
    && c.kind == Kind.Pod
    && c.settings.enabled == s.enabled && c.settings.timeout == s.timeout
    && c.ready == (s.podList != [])
  }

  predicate Like(c: Child, s: Fields) { SetLike(c, s) && c.running == s.running }

  lemma {:induction false} CallsMatch(c: Child, s: Fields, calls: seq<Call>)
    requires SetLike(c, s)
    ensures SetLike(CallAll(c, calls), ApplyAll(s, calls))
    ensures c.running == s.running ==> CallAll(c, calls).running == ApplyAll(s, calls).running
    decreases |calls|
  {
    if calls != [] { CallsMatch(c, s, calls[..|calls| - 1]); }
  }

  lemma {:induction false} CallsKeepList(s: Fields, calls: seq<Call>)
    ensures ApplyAll(s, calls).podList == s.podList && ApplyAll(s, calls).podsActive == s.podsActive
    decreases |calls|
  {
    if calls != [] { CallsKeepList(s, calls[..|calls| - 1]); }
  }

  /** A leaf whose replay has come to a leaf like s, and to a stage of its loop. */
  ghost predicate Reaches(c: Child, trace: seq<Atom>, s: Fields, stage: Stage) {
    && Replay(c, trace).Some?
    && var d := Replay(c, trace).value;
       d.phase.Looping? && d.stage == stage && Like(d, s)
  }

  lemma CallsReach(c: Child, trace: seq<Atom>, s: Fields, stage: Stage, calls: seq<Call>)
    requires Reaches(c, trace, s, stage)
    ensures Reaches(c, trace + Seen(calls), ApplyAll(s, calls), stage)
  {
    var d := Replay(c, trace).value;
    ReplayCalls(c, trace, calls);
    CallsMatch(d, s, calls);
    CallsReplay(d, calls);
  }

  lemma MoveReaches(c: Child, trace: seq<Atom>, s: Fields, stage: Stage, m: Move, s': Fields, stage': Stage)
    requires Reaches(c, trace, s, stage) && CanMove(Replay(c, trace).value, m)
    requires var d := MoveChild(Replay(c, trace).value, m); d.phase.Looping? && d.stage == stage' && Like(d, s')
    ensures Reaches(c, trace + [Own(m)], s', stage')
  {
    ReplayOwn(c, trace, m);
  }

  /** A tick, from the select statement. */
  lemma TickReaches(c: Child, s: Fields, wake: Wake)
    requires wake.Tick? && Reaches(c, [], s, Waiting)
    ensures Reaches(c, Body(s, wake).trace, Body(s, wake).fields, AtHead)
  {
    var s1 := ApplyAll(s, wake.g1);
    var s2 := ApplyAll(s1, wake.g2);
    var t1 := Seen(wake.g1);
    CallsReach(c, [], s, Waiting, wake.g1);
    assert [] + t1 == t1;
    if !s1.enabled {
      MoveReaches(c, t1, s1, Waiting, Skip, s1, AtHead);
    } else {
      MoveReaches(c, t1, s1, Waiting, Aim, s1, Stage.Cleared);
      CallsReach(c, t1 + [Own(Aim)], s1, Stage.Cleared, wake.g2);
      var t2 := t1 + [Own(Aim)] + Seen(wake.g2);
      if s2.podList == [] {
        MoveReaches(c, t2, s2, Stage.Cleared, Miss, s2, AtHead);
      } else {
        MoveReaches(c, t2, s2, Stage.Cleared, Load, s2, Firing);
        MoveReaches(c, t2 + [Own(Load)], s2, Firing, Act, s2, AtHead);
      }
    }
  }

  /** A round of one move. */
  lemma OneMoveReaches(c: Child, s: Fields, m: Move, s': Fields)
    requires Reaches(c, [], s, Waiting) && s'.running == s.running && s'.enabled == s.enabled
    requires s'.timeout == s.timeout && (m == Stock(s'.podList != []) || (m == Rest && s'.podList == s.podList))
    ensures Reaches(c, [Own(m)], s', AtHead)
  {
    MoveReaches(c, [], s, Waiting, m, s', AtHead);
    assert [] + [Own(m)] == [Own(m)];
  }

  /** And then a Halt. */
  lemma HaltReaches(c: Child, m: Move, s: Fields, s': Fields)
    requires Reaches(c, [Own(m)], s, AtHead) && s' == s.(running := false, failed := s'.failed)
    ensures Reaches(c, [Own(m), Own(Halt)], s', AtHead)
  {
    MoveReaches(c, [Own(m)], s, AtHead, Halt, s', AtHead);
    assert [Own(m)] + [Own(Halt)] == [Own(m), Own(Halt)];
  }

  /** Any other wake-up. */
  lemma WakeReaches(c: Child, s: Fields, wake: Wake)
    requires !wake.Tick? && Reaches(c, [], s, Waiting)
    ensures Reaches(c, Body(s, wake).trace, Body(s, wake).fields, AtHead)
  {
    match wake
    case Added(pod) => OneMoveReaches(c, s, Stock(true), Add(s, pod));
    case Deleted(pod) => OneMoveReaches(c, s, Stock(Remove(s, pod).podList != []), Remove(s, pod));
    case WatchClosed(reopened) =>
      var s1 := s.(podList := [], failed := !reopened);
      OneMoveReaches(c, s, Stock(false), s1);
      HaltReaches(c, Stock(false), s1, s1.(running := false));
    case _ =>
      OneMoveReaches(c, s, Rest, s);
      HaltReaches(c, Rest, s, s.(running := false));
      HaltReaches(c, Rest, s, s.(running := false, failed := true));
  }

  /** Where the leaf is when the loop has come to an outcome. */
  ghost predicate EndsAs(d: Child, s: Fields, outcome: Outcome) {
    && Like(d, s)
    && (outcome.Ongoing? ==> d.phase.Looping? && d.stage.AtHead?)
    && (outcome.Returned? ==> d.phase.Exited?)
  }

  lemma TurnReplays(c: Child, s: Fields, round: Round)
    requires c.phase.Looping? && c.stage.AtHead? && Like(c, s)
    ensures var r := Turn(s, round);
            Replay(c, r.trace).Some? && EndsAs(Replay(c, r.trace).value, r.fields, r.outcome)
  {
    var s0 := ApplyAll(s, round.before);
    var t0 := Seen(round.before);
    assert Replay(c, []) == Some(c);
    CallsReach(c, [], s, AtHead, round.before);
    assert [] + t0 == t0;
    if !s0.running {
      ReplayOwn(c, t0, Leave);
    } else {
      MoveReaches(c, t0, s0, AtHead, Check, s0, Waiting);
      var d := Replay(c, t0 + [Own(Check)]).value;
      assert Replay(d, []) == Some(d);
      if round.wake.Tick? { TickReaches(d, s0, round.wake); } else { WakeReaches(d, s0, round.wake); }
      ReplayConcat(c, t0 + [Own(Check)], Body(s0, round.wake).trace);
    }
  }

  lemma {:induction false} LoopReplays(c: Child, s: Fields, rounds: seq<Round>)
    requires c.phase.Looping? && c.stage.AtHead? && Like(c, s)
    ensures var r := Loop(s, rounds);
            Replay(c, r.trace).Some? && EndsAs(Replay(c, r.trace).value, r.fields, r.outcome)
    decreases |rounds|
  {
    if rounds != [] {
      TurnReplays(c, s, rounds[0]);
      var r := Turn(s, rounds[0]);
      if r.outcome.Ongoing? {
        LoopReplays(Replay(c, r.trace).value, r.fields, rounds[1..]);
        ReplayConcat(c, r.trace, Loop(r.fields, rounds[1..]).trace);
      }
    }
  }

  /** Every run of Start, with everything that other goroutines do meanwhile, is a behaviour of
      the leaf automaton with the same settings; it ends with the same settings, flag and stock, at
      a head check if the loop goes on, and past Leave if and only if Start has returned. */
  lemma RunRefinesLeaf(c: Child, s: Fields, prelude: seq<Call>, watching: bool, rounds: seq<Round>)
    requires c.phase.Spawned? && Like(c, s)
    ensures var r := Run(s, prelude, watching, rounds);
            Replay(c, r.trace).Some? && EndsAs(Replay(c, r.trace).value, r.fields, r.outcome)
  {
    CallsReplay(c, prelude);
    CallsMatch(c, s, prelude);
    if !watching {
      ReplayOwn(c, Seen(prelude), FailOpen);
    } else {
      var head := Seen(prelude) + [Own(Begin)];
      ReplayOwn(c, Seen(prelude), Begin);
      var s1 := ApplyAll(s, prelude).(running := true);
      LoopReplays(Replay(c, head).value, s1, rounds);
      ReplayConcat(c, head, Loop(s1, rounds).trace);
    }
  }

  predicate IsKill(e: Event) { e.Killed? }

  function Kills(log: seq<Event>): nat { CountIf(log, IsKill) }

  lemma BodyActs(s: Fields, wake: Wake)
    ensures Acts(Body(s, wake).trace) == Kills(Body(s, wake).log)
  {
    var r := Body(s, wake);
    assert r.log == [r.log[0]];
    CountIfSingle(r.log[0], IsKill);
    if wake.Tick? { TickActs(s, wake); }
  }

  lemma TickActs(s: Fields, wake: Wake)
    requires wake.Tick?
    ensures |Body(s, wake).log| == 1
    ensures Acts(Body(s, wake).trace) == if IsKill(Body(s, wake).log[0]) then 1 else 0
  {
    var t1 := Seen(wake.g1) + [Own(Aim)];
    var t2 := t1 + Seen(wake.g2);
    assert [] + Seen(wake.g1) + [Own(Skip)] == Seen(wake.g1) + [Own(Skip)];
    assert [] + Seen(wake.g1) + [Own(Aim)] == t1;
    ActsOfStretch([], wake.g1, Skip);
    ActsOfStretch([], wake.g1, Aim);
    ActsOfStretch(t1, wake.g2, Miss);
    ActsOfStretch(t1, wake.g2, Load);
    ActsConcat(t2 + [Own(Load)], [Own(Act)]);
  }

  lemma TurnActs(s: Fields, round: Round)
    ensures Acts(Turn(s, round).trace) == Kills(Turn(s, round).log)
  {
    var s0 := ApplyAll(s, round.before);
    var b := Body(s0, round.wake);
    BodyActs(s0, round.wake);
    HeadActs(round.before, b.trace);
    assert [] + b.log == b.log;
  }

  lemma {:induction false} LoopActs(s: Fields, rounds: seq<Round>)
    ensures Acts(Loop(s, rounds).trace) == Kills(Loop(s, rounds).log)
    decreases |rounds|
  {
    if rounds != [] {
      TurnActs(s, rounds[0]);
      var r := Turn(s, rounds[0]);
      if r.outcome.Ongoing? {
        LoopActs(r.fields, rounds[1..]);
        ActsConcat(r.trace, Loop(r.fields, rounds[1..]).trace);
        CountIfConcat(r.log, Loop(r.fields, rounds[1..]).log, IsKill);
      }
    }
  }

  lemma RunActs(s: Fields, prelude: seq<Call>, watching: bool, rounds: seq<Round>)
    ensures Acts(Run(s, prelude, watching, rounds).trace) == Kills(Run(s, prelude, watching, rounds).log)
  {
    var loop := Loop(ApplyAll(s, prelude).(running := true), rounds);
    LoopActs(ApplyAll(s, prelude).(running := true), rounds);
    CallsNeverAct(prelude);
    ActsConcat(Seen(prelude), [Own(Begin)]);
    ActsConcat(Seen(prelude), [Own(FailOpen)]);
    ActsConcat(Seen(prelude) + [Own(Begin)], loop.trace);
    assert [] + loop.log == loop.log;
  }

  /** A leaf like s. */
  function LeafOf(s: Fields): Child {
    NewChild(Kind.Pod, "", Configuration(s.enabled, 0, 0, "", "", s.timeout))
    .(phase := Spawned, ready := s.podList != [], running := s.running)
  }

  lemma KillsSplit(s: Fields, prelude: seq<Call>, watching: bool, rounds: seq<Round>,
                   before: seq<Atom>, a: Atom, after: seq<Atom>)
    requires Run(s, prelude, watching, rounds).trace == before + [a] + after && a != Own(Act)
    ensures Kills(Run(s, prelude, watching, rounds).log) == Acts(before) + Acts(after)
    ensures Replay(LeafOf(s), before + [a] + after).Some?
    ensures Replay(LeafOf(s), before + [a] + after).value.running
            == Run(s, prelude, watching, rounds).fields.running
  {
    RunRefinesLeaf(LeafOf(s), s, prelude, watching, rounds);
    RunActs(s, prelude, watching, rounds);
    ActsConcat(before + [a], after);
    ActsConcat(before, [a]);
  }

  /** A run stopped after its setRunning(true) sends at most one more delete request. */
  lemma AtMostOneKillAfterStop(s: Fields, prelude: seq<Call>, watching: bool, rounds: seq<Round>,
                               before: seq<Atom>, after: seq<Atom>)
    requires Own(Begin) in before
    requires Run(s, prelude, watching, rounds).trace == before + [STOPPED] + after
    ensures Kills(Run(s, prelude, watching, rounds).log) == Acts(before) + Acts(after)
    ensures Acts(after) <= 1
    ensures !Run(s, prelude, watching, rounds).fields.running
  {
    KillsSplit(s, prelude, watching, rounds, before, STOPPED, after);
    AtMostOneActAfterStop(LeafOf(s), before, after);
  }

  /** The same for a run that has been disabled, at any time, and is not enabled again. */
  lemma AtMostOneKillAfterDisable(s: Fields, prelude: seq<Call>, watching: bool, rounds: seq<Round>,
                                  before: seq<Atom>, after: seq<Atom>)
    requires Run(s, prelude, watching, rounds).trace == before + [Called(SetEnabled(false))] + after
    requires Called(SetEnabled(true)) !in after
    ensures Kills(Run(s, prelude, watching, rounds).log) == Acts(before) + Acts(after)
    ensures Acts(after) <= 1
  {
    KillsSplit(s, prelude, watching, rounds, before, Called(SetEnabled(false)), after);
    AtMostOneActAfterDisable(LeafOf(s), before, after);
  }

  // ---- Runs without calls ----

  /** A round in which nobody calls the watcher. */
  predicate AloneRound(round: Round) {
    && round.before == []
    && (round.wake.Tick? ==>
          round.wake.g1 == [] && round.wake.g2 == [])
  }

  predicate Alone(rounds: seq<Round>) {
    forall k :: 0 <= k < |rounds| ==> AloneRound(rounds[k])
  }

  const TICK := Round([], Tick([], [], 0, true))

  function Ticks(n: nat): seq<Round> { if n == 0 then [] else [TICK] + Ticks(n - 1) }

  lemma OneTick(s: Fields)
    requires s.running && s.enabled && s.podList != []
    ensures var r := Turn(s, TICK);
            && r.fields == s && r.outcome.Ongoing? && r.log == [r.log[0]] && r.log[0].Killed?
            && r.trace == [Own(Check)] + ([Own(Aim)] + ([Own(Load)] + [Own(Act)]))
  {
    var none: seq<Call> := [];
    assert Seen(none) == [];
    var b := Body(s, TICK.wake);
    assert b.trace == [Own(Aim)] + ([Own(Load)] + [Own(Act)]);
    assert [] + b.log == b.log;
  }

  lemma LoopCons(s: Fields, round: Round, rounds: seq<Round>)
    requires Turn(s, round).outcome.Ongoing?
    ensures var r := Turn(s, round);
            var rest := Loop(r.fields, rounds);
            && Loop(s, [round] + rounds) == rest.After(r.log, r.trace)
            && Kills(rest.After(r.log, r.trace).log) == Kills(r.log) + Kills(rest.log)
  {
    assert ([round] + rounds)[1..] == rounds;
    CountIfConcat(Turn(s, round).log, Loop(Turn(s, round).fields, rounds).log, IsKill);
  }

  /** One volley in front of n. */
  lemma AfterVolley(rest: LoopReport, r: LoopReport, n: nat)
    requires Kills(rest.log) == n && rest.trace == Volleys(n)
    requires |r.log| == 1 && r.log[0].Killed? && r.trace == [Own(Check)] + ([Own(Aim)] + ([Own(Load)] + [Own(Act)]))
    ensures Kills(rest.After(r.log, r.trace).log) == n + 1 && rest.After(r.log, r.trace).trace == Volleys(n + 1)
  {
    AfterOne(rest, r.log[0], r.trace, IsKill);
    assert r.log == [r.log[0]];
    VolleysGrow(n);
  }

  /** The automaton's volleys are rounds of this loop: n ticks, n requests. */
  lemma {:induction false} TicksAreVolleys(s: Fields, n: nat)
    requires s.running && s.enabled && s.podList != []
    ensures Alone(Ticks(n))
    ensures var r := Loop(s, Ticks(n));
            r.fields == s && r.outcome.Ongoing? && Kills(r.log) == n && r.trace == Volleys(n)
  {
    if n > 0 {
      TicksAreVolleys(s, n - 1);
      OneTick(s);
      LoopCons(s, TICK, Ticks(n - 1));
      AfterVolley(Loop(s, Ticks(n - 1)), Turn(s, TICK), n - 1);
    }
  }

  lemma OneArrival(s: Fields, pod: Pod)
    requires s.running
    ensures var r := Turn(s, Round([], Added(pod)));
            && r.fields == Add(s, pod) && r.outcome.Ongoing? && r.log == [Listed(pod)]
            && r.trace == [Own(Check)] + [Own(Stock(true))]
  {
    var none: seq<Call> := [];
    assert Seen(none) == [];
    assert [] + [Listed(pod)] == [Listed(pod)];
  }

  /** From an empty list: one pod arrives, then n ticks. */
  function Siege(pod: Pod, n: nat): seq<Round> { [Round([], Added(pod))] + Ticks(n) }

  lemma SiegeIsRampage(s: Fields, pod: Pod, n: nat)
    requires s.running && s.enabled
    ensures Alone(Siege(pod, n))
    ensures var r := Loop(s, Siege(pod, n));
            r.fields.running && Kills(r.log) == n && r.trace == Rampage(Kind.Pod, false, n)
  {
    var s1 := Add(s, pod);
    TicksAreVolleys(s1, n);
    OneArrival(s, pod);
    LoopCons(s, Round([], Added(pod)), Ticks(n));
    AfterArrival(Loop(s1, Ticks(n)), pod, n);
  }

  lemma AfterArrival(rest: LoopReport, pod: Pod, n: nat)
    requires Kills(rest.log) == n && rest.trace == Volleys(n)
    ensures var r := rest.After([Listed(pod)], [Own(Check)] + [Own(Stock(true))]);
            Kills(r.log) == n && r.trace == Rampage(Kind.Pod, false, n)
  {
    AfterOne(rest, Listed(pod), [Own(Check)] + [Own(Stock(true))], IsKill);
    assert [Own(Check)] + [Own(Stock(true))] + Volleys(n) == [Own(Check)] + ([Own(Stock(true))] + Volleys(n));
  }

  /** An early Stop is lost in this loop as in the automaton: for every n there is a run, without any
      further call, that is stopped before its setRunning(true) and sends n requests. */
  lemma EarlyStopIsLostHere(s: Fields, pod: Pod, n: nat)
    requires s.enabled
    ensures Alone(Siege(pod, n))
    ensures var r := Run(s, [Stop], true, Siege(pod, n));
            && r.fields.running && Kills(r.log) == n
            && r.trace == [STOPPED] + ([Own(Begin)] + Rampage(Kind.Pod, false, n))
  {
    assert [Stop][..0] == [];
    assert ApplyAll(s, [Stop]) == Apply(ApplyAll(s, []), Stop);
    var s1 := ApplyAll(s, [Stop]).(running := true);
    SiegeIsRampage(s1, pod, n);
    assert Seen([Stop]) == [STOPPED];
    assert [] + Loop(s1, Siege(pod, n)).log == Loop(s1, Siege(pod, n)).log;
  }

  /** Left alone at its head check, the loop sends another request in some continuation if and only
      if it is running and enabled: a pod may always arrive. */
  lemma AloneKillsIff(s: Fields)
    ensures (exists rounds :: Alone(rounds) && Kills(Loop(s, rounds).log) > 0) <==> s.running && s.enabled
  {
    if s.running && s.enabled {
      SiegeIsRampage(s, PodLoop.Pod.Pod("", ""), 1);
    } else {
      forall rounds | Alone(rounds) ensures Kills(Loop(s, rounds).log) == 0 { UnwillingIsSilent(s, rounds); }
    }
  }

  lemma AloneBodyIsSilent(s: Fields, wake: Wake)
    requires s.running && !s.enabled && (wake.Tick? ==> wake.g1 == [] && wake.g2 == [])
    ensures |Body(s, wake).log| == 1 && !IsKill(Body(s, wake).log[0]) && !Body(s, wake).fields.enabled
  {
  }

  lemma AloneTurnIsSilent(s: Fields, round: Round)
    requires AloneRound(round) && !(s.running && s.enabled)
    ensures Kills(Turn(s, round).log) == 0
    ensures !(Turn(s, round).fields.running && Turn(s, round).fields.enabled)
  {
    if s.running {
      AloneBodyIsSilent(s, round.wake);
      var log := Body(s, round.wake).log;
      assert [] + log == log == [log[0]];
      CountIfSingle(log[0], IsKill);
    }
  }

  lemma {:induction false} UnwillingIsSilent(s: Fields, rounds: seq<Round>)
    requires Alone(rounds) && !(s.running && s.enabled)
    ensures Kills(Loop(s, rounds).log) == 0
    decreases |rounds|
  {
    if rounds != [] {
      assert AloneRound(rounds[0]) && Alone(rounds[1..]);
      AloneTurnIsSilent(s, rounds[0]);
      var r := Turn(s, rounds[0]);
      if r.outcome.Ongoing? {
        UnwillingIsSilent(r.fields, rounds[1..]);
        CountIfConcat(r.log, Loop(r.fields, rounds[1..]).log, IsKill);
      }
    }
  }

  // ---- The pod list ----

  /** Event i lists a pod, and no later event clears the list or drops that pod's name. */
  predicate Survives(log: seq<Event>, i: nat) {
    && i < |log| && log[i].Listed?
    && forall j :: i < j < |log| ==> !log[j].Cleared? && log[j] != Dropped(log[i].pod.name)
  }

  /** The pods listed by the surviving events among the first n, in order and with duplicates. */
  function Survivors(log: seq<Event>, n: nat): seq<Pod>
    requires n <= |log|
  {
    if n == 0 then []
    else if Survives(log, n - 1) then Survivors(log, n - 1) + [log[n - 1].pod]
    else Survivors(log, n - 1)
  }

  /** One more event on the list: the effect that the loop has. */
  function Effect(pods: seq<Pod>, e: Event): seq<Pod> {
    match e
    case Listed(pod) => pods + [pod]
    case Dropped(name) => Without(pods, name)
    case Cleared => []
    case _ => pods
  }

  /** The event leaves this pod in the list. */
  predicate Spares(e: Event, pod: Pod) { !e.Cleared? && e != Dropped(pod.name) }

  /** An event before the last one survives it if and only if the last one spares its pod. */
  lemma SurvivesStep(log: seq<Event>, e: Event, i: nat)
    requires i < |log|
    ensures (log + [e])[i] == log[i]
    ensures Survives(log + [e], i) <==> Survives(log, i) && Spares(e, log[i].pod)
  {
    var more := log + [e];
    assert more[|log|] == e;
    assert forall j :: 0 <= j < |log| ==> more[j] == log[j];
  }

  /** The survivors among the first n after one more event. */
  function Remaining(pods: seq<Pod>, e: Event): seq<Pod> {
    if e.Dropped? then Without(pods, e.name) else if e.Cleared? then [] else pods
  }

  lemma RemainingLast(pods: seq<Pod>, pod: Pod, e: Event)
    ensures Remaining(pods + [pod], e) ==
            if Spares(e, pod) then Remaining(pods, e) + [pod] else Remaining(pods, e)
  {
    assert (pods + [pod])[..|pods|] == pods;
  }

  /** What one more entry adds to the survivors among n. */
  lemma SurvivorsNext(pods: seq<Pod>, more: seq<Pod>, keep: bool, kept: bool, pod: Pod, e: Event)
    requires more == Remaining(pods, e) && (kept <==> keep && Spares(e, pod))
    ensures (if kept then more + [pod] else more) == Remaining(if keep then pods + [pod] else pods, e)
  {
    if keep { RemainingLast(pods, pod, e); }
  }

  lemma {:induction false} SurvivorsStep(log: seq<Event>, e: Event, n: nat)
    requires n <= |log|
    ensures Survivors(log + [e], n) == Remaining(Survivors(log, n), e)
  {
    if n == 0 {
      assert Remaining([], e) == [];
    } else {
      SurvivorsStep(log, e, n - 1);
      SurvivesStep(log, e, n - 1);
      if log[n - 1].Listed? {
        SurvivorsNext(Survivors(log, n - 1), Survivors(log + [e], n - 1),
                      Survives(log, n - 1), Survives(log + [e], n - 1), log[n - 1].pod, e);
      }
    }
  }

  lemma SurvivorsGrow(log: seq<Event>, e: Event)
    ensures Survivors(log + [e], |log| + 1) == Effect(Survivors(log, |log|), e)
  {
    SurvivorsStep(log, e, |log|);
    assert Survives(log + [e], |log|) <==> e.Listed?;
  }

  /** The length of the list just after its last addition or removal. */
  function LastCount(log: seq<Event>): nat {
    if log == [] then 0
    else if log[|log| - 1].Listed? || log[|log| - 1].Dropped? then |Survivors(log, |log|)|
    else LastCount(log[..|log| - 1])
  }

  /** After the events `log` the list holds the survivors, and the gauge what it last counted. */
  ghost predicate Matches(s: Fields, log: seq<Event>) {
    s.podList == Survivors(log, |log|) && s.podsActive == LastCount(log)
  }

  /** A victim was in the list when it was chosen. */
  ghost predicate VictimsListed(log: seq<Event>) {
    forall i :: 0 <= i < |log| && log[i].Killed? ==> log[i].victim in Survivors(log[..i], i)
  }

  lemma EffectMatches(s: Fields, log: seq<Event>, t: Fields, e: Event)
    requires Matches(s, log)
    requires t.podList == Effect(s.podList, e)
    requires t.podsActive == if e.Listed? || e.Dropped? then |t.podList| else s.podsActive
    ensures Matches(t, log + [e])
  {
    SurvivorsGrow(log, e);
    assert (log + [e])[..|log|] == log;
  }

  lemma TickMatches(s: Fields, wake: Wake)
    requires wake.Tick?
    ensures var r := Body(s, wake);
            && |r.log| == 1 && (r.log[0].Killed? || r.log[0].Idle?)
            && r.fields.podList == s.podList && r.fields.podsActive == s.podsActive
            && (r.log[0].Killed? ==> r.log[0].victim in s.podList)
  {
    CallsKeepList(s, wake.g1);
    CallsKeepList(ApplyAll(s, wake.g1), wake.g2);
  }

  /** One select, as an effect on the list and the gauge. */
  lemma BodyEffect(s: Fields, wake: Wake)
    ensures var r := Body(s, wake);
            && |r.log| == 1
            && r.fields.podList == Effect(s.podList, r.log[0])
            && r.fields.podsActive ==
               (if r.log[0].Listed? || r.log[0].Dropped? then |r.fields.podList| else s.podsActive)
            && (r.log[0].Killed? ==> r.log[0].victim in s.podList)
  {
    if wake.Tick? { TickMatches(s, wake); }
  }

  lemma BodyMatches(s: Fields, wake: Wake, log: seq<Event>)
    requires Matches(s, log)
    ensures var r := Body(s, wake);
            && |r.log| == 1
            && Matches(r.fields, log + r.log)
            && (r.log[0].Killed? ==> r.log[0].victim in Survivors(log, |log|))
  {
    BodyEffect(s, wake);
    var r := Body(s, wake);
    EffectMatches(s, log, r.fields, r.log[0]);
    assert r.log == [r.log[0]];
  }

  /** The log explains the list and the gauge, and every victim. */
  ghost predicate Explains(log: seq<Event>, s: Fields) { Matches(s, log) && VictimsListed(log) }

  lemma TurnMatches(s: Fields, round: Round, log: seq<Event>)
    requires Explains(log, s)
    ensures Explains(log + Turn(s, round).log, Turn(s, round).fields)
  {
    var s0, r := ApplyAll(s, round.before), Turn(s, round);
    CallsKeepList(s, round.before);
    if !s0.running {
      assert log + [] == log;
    } else {
      BodyMatches(s0, round.wake, log);
      assert r.log == Body(s0, round.wake).log;
      VictimsStayListed(log, r.log);
    }
  }

  lemma VictimsStayListed(log: seq<Event>, more: seq<Event>)
    requires VictimsListed(log) && |more| == 1
    requires more[0].Killed? ==> more[0].victim in Survivors(log, |log|)
    ensures VictimsListed(log + more)
  {
    var all := log + more;
    forall i | 0 <= i < |all| && all[i].Killed? ensures all[i].victim in Survivors(all[..i], i) {
      if i < |log| { assert all[..i] == log[..i]; } else { assert all[..i] == log; }
    }
  }

  lemma {:induction false} LoopMatches(s: Fields, rounds: seq<Round>, log: seq<Event>)
    requires Explains(log, s)
    ensures Explains(log + Loop(s, rounds).log, Loop(s, rounds).fields)
    decreases |rounds|
  {
    if rounds == [] {
      assert log + [] == log;
    } else {
      TurnMatches(s, rounds[0], log);
      var r := Turn(s, rounds[0]);
      if r.outcome.Ongoing? {
        LoopMatches(r.fields, rounds[1..], log + r.log);
        LoopUnfolds(s, rounds, log);
      }
    }
  }

  lemma LoopUnfolds(s: Fields, rounds: seq<Round>, log: seq<Event>)
    requires rounds != [] && Turn(s, rounds[0]).outcome.Ongoing?
    ensures var r := Turn(s, rounds[0]);
            var rest := Loop(r.fields, rounds[1..]);
            && Loop(s, rounds).fields == rest.fields
            && log + Loop(s, rounds).log == (log + r.log) + rest.log
  {
    var r := Turn(s, rounds[0]);
    var rest := Loop(r.fields, rounds[1..]);
    assert Loop(s, rounds) == rest.After(r.log, r.trace);
    AfterExtends(rest, r.log, r.trace, log);
  }

  /** Over every run the list is the pods added since the last restart of the watch with no later
      deletion of the same name, every victim was in it, and podsActive is its length just after
      the last addition or removal. */
  lemma PodListIsSurvivors(s: Fields, prelude: seq<Call>, watching: bool, rounds: seq<Round>)
    requires s.podList == [] && s.podsActive == 0
    ensures var r := Run(s, prelude, watching, rounds);
            && r.fields.podList == Survivors(r.log, |r.log|)
            && VictimsListed(r.log)
            && r.fields.podsActive == LastCount(r.log)
  {
    CallsKeepList(s, prelude);
    if watching {
      var s1 := ApplyAll(s, prelude).(running := true);
      LoopMatches(s1, rounds, []);
      assert [] + Loop(s1, rounds).log == Loop(s1, rounds).log;
    }
  }

  /** No restart of the watch since the last addition or removal. */
  predicate Refreshed(log: seq<Event>) {
    log == [] || log[|log| - 1].Listed? || log[|log| - 1].Dropped?
      || (!log[|log| - 1].Cleared? && Refreshed(log[..|log| - 1]))
  }

  /** So the gauge is right if and only if no restart came after the last addition or removal,
      or nothing was left to clear. */
  lemma {:induction false} GaugeRightIffRefreshed(log: seq<Event>)
    ensures LastCount(log) == |Survivors(log, |log|)| <==> Refreshed(log) || LastCount(log) == 0
    ensures !Refreshed(log) ==> Survivors(log, |log|) == []
    decreases |log|
  {
    if log != [] {
      var before, e := log[..|log| - 1], log[|log| - 1];
      assert log == before + [e];
      SurvivorsGrow(before, e);
      GaugeRightIffRefreshed(before);
    }
  }

  /** Over every run: podsActive is the length of the list if and only if no restart of the watch came
      after the last addition or removal, or that had left the list empty. */
  lemma ActiveGaugeRightIff(s: Fields, prelude: seq<Call>, watching: bool, rounds: seq<Round>)
    requires s.podList == [] && s.podsActive == 0
    ensures var r := Run(s, prelude, watching, rounds);
            r.fields.podsActive == |r.fields.podList| <==> Refreshed(r.log) || r.fields.podsActive == 0
  {
    PodListIsSurvivors(s, prelude, watching, rounds);
    GaugeRightIffRefreshed(Run(s, prelude, watching, rounds).log);
  }

  // ---- What a round answers to its wake-up ----

  /** What the loop, waiting with the fields s, logs for a wake-up: an arrival lists the pod, a
      departure drops its name, a closed watch clears the list, and a tick sends a delete request if
      and only if it finds the watcher enabled and a pod in the list, with the answer of that tick. */
  predicate AnswersWake(s: Fields, wake: Wake, log: seq<Event>) {
    match wake
    case Added(pod) => log == [Listed(pod)]
    case Deleted(pod) => log == [Dropped(pod.name)]
    case WatchClosed(_) => log == [Event.Cleared]
    case Tick(g1, g2, pick, ok) =>
      if ApplyAll(s, g1).enabled && s.podList != [] then
        |log| == 1 && log[0].Killed? && log[0].ok == ok && log[0].victim in s.podList
      else log == [Idle]
    case _ => log == [Idle]
  }

  lemma BodyAnswersWake(s: Fields, wake: Wake)
    ensures AnswersWake(s, wake, Body(s, wake).log)
    ensures |Body(s, wake).log| == 1 && Body(s, wake).outcome.Ongoing?
  {
    if wake.Tick? {
      CallsKeepList(s, wake.g1);
      CallsKeepList(ApplyAll(s, wake.g1), wake.g2);
    }
  }

  /** Every pod of the list can be the victim. */
  lemma EveryPodCanBeKilled(s: Fields, i: nat, ok: bool)
    requires s.enabled && i < |s.podList|
    ensures Body(s, Tick([], [], i, ok)).log == [Killed(s.podList[i], ok)]
  {
    assert i % |s.podList| == i;
  }

  /** The fields with which round k waits for its wake-up. */
  function Waits(s: Fields, rounds: seq<Round>, k: nat): Fields
    requires k < |rounds|
  {
    ApplyAll(Loop(s, rounds[..k]).fields, rounds[k].before)
  }

  lemma TurnLogsOnce(s: Fields, round: Round)
    ensures var r := Turn(s, round);
            && |r.log| == (if r.outcome.Ongoing? then 1 else 0)
            && (r.outcome.Ongoing? ==> AnswersWake(ApplyAll(s, round.before), round.wake, r.log))
            && (r.outcome.Returned? <==> !ApplyAll(s, round.before).running)
  {
    var s0 := ApplyAll(s, round.before);
    TurnIsBody(s, round);
    BodyAnswersWake(s0, round.wake);
  }

  lemma TurnIsBody(s: Fields, round: Round)
    ensures var r := Turn(s, round);
            if ApplyAll(s, round.before).running then
              var b := Body(ApplyAll(s, round.before), round.wake);
              r.log == b.log && r.outcome == b.outcome && r.fields == b.fields
            else r.outcome.Returned? && r.log == []
  {
    var b := Body(ApplyAll(s, round.before), round.wake);
    assert [] + b.log == b.log;
  }

  /** What a later round waits with does not depend on how the first was reached. */
  lemma WaitsShift(s: Fields, rounds: seq<Round>, k: nat)
    requires 0 < k < |rounds| && Turn(s, rounds[0]).outcome.Ongoing?
    ensures Waits(s, rounds, k) == Waits(Turn(s, rounds[0]).fields, rounds[1..], k - 1)
  {
    assert rounds[..k] == [rounds[0]] + rounds[1..][..k - 1];
    LoopCons(s, rounds[0], rounds[1..][..k - 1]);
  }

  /** Over every run of the loop the k-th entry of the log answers the k-th wake-up of the script. */
  lemma {:induction false} LogAnswersScript(s: Fields, rounds: seq<Round>, k: nat)
    requires k < |Loop(s, rounds).log|
    ensures k < |rounds| && AnswersWake(Waits(s, rounds, k), rounds[k].wake, [Loop(s, rounds).log[k]])
    decreases |rounds|
  {
    var r := Turn(s, rounds[0]);
    TurnLogsOnce(s, rounds[0]);
    assert rounds == [rounds[0]] + rounds[1..];
    if r.outcome.Ongoing? { LoopCons(s, rounds[0], rounds[1..]); }
    if k == 0 {
      assert rounds[..0] == [];
      assert [r.log[0]] == r.log;
    } else {
      LogAnswersScript(r.fields, rounds[1..], k - 1);
      WaitsShift(s, rounds, k);
    }
  }

  lemma OneRoundMore(s: Fields, rounds: seq<Round>)
    requires rounds != [] && Turn(s, rounds[0]).outcome.Ongoing?
    ensures var rest := Loop(Turn(s, rounds[0]).fields, rounds[1..]);
            && |Loop(s, rounds).log| == 1 + |rest.log|
            && Loop(s, rounds).outcome == rest.outcome && Loop(s, rounds).fields == rest.fields
  {
    TurnLogsOnce(s, rounds[0]);
    assert rounds == [rounds[0]] + rounds[1..];
    LoopCons(s, rounds[0], rounds[1..]);
  }

  /** As long as the loop goes on it answers every round; it returns with the first head check that
      finds Running false. */
  lemma {:induction false} EveryRoundIsAnswered(s: Fields, rounds: seq<Round>)
    ensures var r := Loop(s, rounds);
            && |r.log| <= |rounds|
            && (r.outcome.Ongoing? <==> |r.log| == |rounds|)
            && (r.outcome.Returned? ==> !Waits(s, rounds, |r.log|).running)
    decreases |rounds|
  {
    if rounds != [] {
      var r := Turn(s, rounds[0]);
      TurnLogsOnce(s, rounds[0]);
      if r.outcome.Ongoing? {
        EveryRoundIsAnswered(r.fields, rounds[1..]);
        OneRoundMore(s, rounds);
        var n := |Loop(r.fields, rounds[1..]).log|;
        if n < |rounds[1..]| {
          WaitsShift(s, rounds, n + 1);
        }
      } else {
        assert rounds[..0] == [];
      }
    }
  }

  /** Calls clear the flag if and only if a Stop is among them, and never set it. */
  lemma {:induction false} CallsStop(s: Fields, calls: seq<Call>)
    ensures ApplyAll(s, calls).running <==> s.running && STOPPED !in Seen(calls)
    ensures ApplyAll(s, calls).failed == s.failed
    decreases |calls|
  {
    if calls != [] {
      var n := |calls| - 1;
      CallsStop(s, calls[..n]);
      assert Seen(calls) == Seen(calls[..n]) + [Called(calls[n])];
    }
  }

  /** The wake-ups that end the loop: the context, an error event, a watch that cannot be reopened. */
  predicate Ends(wake: Wake) {
    wake.ContextDone? || wake.ErrorEvent? || (wake.WatchClosed? && !wake.reopened)
  }

  /** How a round leaves the flag: these clear it, and nothing else but a call of Stop does. */
  lemma OnlyTheseEndLoop(s: Fields, round: Round)
    requires ApplyAll(s, round.before).running
    ensures Ends(round.wake) ==> !Turn(s, round).fields.running
    ensures !Ends(round.wake) && !round.wake.Tick? ==> Turn(s, round).fields.running
    ensures round.wake.Tick? && ApplyAll(ApplyAll(s, round.before), round.wake.g1).enabled ==>
              (Turn(s, round).fields.running <==>
               STOPPED !in Seen(round.wake.g1) && STOPPED !in Seen(round.wake.g2))
    ensures round.wake.Tick? && !ApplyAll(ApplyAll(s, round.before), round.wake.g1).enabled ==>
              (Turn(s, round).fields.running <==> STOPPED !in Seen(round.wake.g1))
  {
    var s0 := ApplyAll(s, round.before);
    if round.wake.Tick? {
      CallsStop(s0, round.wake.g1);
      CallsStop(ApplyAll(s0, round.wake.g1), round.wake.g2);
    }
  }

  /** A loop whose flag is down says nothing more and returns at its next head check. */
  lemma DownReturns(s: Fields, rounds: seq<Round>)
    requires !s.running && rounds != []
    ensures Loop(s, rounds).outcome.Returned? && Loop(s, rounds).log == []
  {
    CallsStop(s, rounds[0].before);
  }

  /** The error that the rounds leave behind: the last error event or closed watch decides. */
  function LastWord(rounds: seq<Round>, initial: bool): bool {
    if rounds == [] then initial
    else match rounds[|rounds| - 1].wake
      case ErrorEvent => true
      case WatchClosed(reopened) => !reopened
      case _ => LastWord(rounds[..|rounds| - 1], initial)
  }

  lemma {:induction false} LastWordCons(round: Round, rounds: seq<Round>, initial: bool)
    ensures LastWord([round] + rounds, initial) == LastWord(rounds, LastWord([round], initial))
    decreases |rounds|
  {
    if rounds == [] {
      assert [round] + rounds == [round];
    } else {
      var all := [round] + rounds;
      assert all[..|all| - 1] == [round] + rounds[..|rounds| - 1];
      LastWordCons(round, rounds[..|rounds| - 1], initial);
    }
  }

  lemma TurnFails(s: Fields, round: Round)
    ensures Turn(s, round).fields.failed ==
            if Turn(s, round).outcome.Ongoing? then LastWord([round], s.failed) else s.failed
  {
    var s0 := ApplyAll(s, round.before);
    CallsStop(s, round.before);
    assert [round][..0] == [];
    if round.wake.Tick? {
      CallsStop(s0, round.wake.g1);
      CallsStop(ApplyAll(s0, round.wake.g1), round.wake.g2);
    }
  }

  /** Start returns an error if and only if the last error event or closed watch that it has handled
      says so. */
  lemma {:induction false} FailedIsLastWord(s: Fields, rounds: seq<Round>)
    ensures |Loop(s, rounds).log| <= |rounds|
    ensures Loop(s, rounds).fields.failed == LastWord(rounds[..|Loop(s, rounds).log|], s.failed)
    decreases |rounds|
  {
    EveryRoundIsAnswered(s, rounds);
    if rounds != [] {
      var r := Turn(s, rounds[0]);
      TurnFails(s, rounds[0]);
      TurnLogsOnce(s, rounds[0]);
      assert rounds == [rounds[0]] + rounds[1..];
      if r.outcome.Ongoing? {
        FailedIsLastWord(r.fields, rounds[1..]);
        OneRoundMore(s, rounds);
        LastWordStep(rounds, |Loop(r.fields, rounds[1..]).log|, s.failed);
      }
    }
  }

  lemma LastWordStep(rounds: seq<Round>, n: nat, initial: bool)
    requires n < |rounds|
    ensures LastWord(rounds[..n + 1], initial) == LastWord(rounds[1..][..n], LastWord([rounds[0]], initial))
  {
    assert rounds[..n + 1] == [rounds[0]] + rounds[1..][..n];
    LastWordCons(rounds[0], rounds[1..][..n], initial);
  }

  /** The two counters count the additions and removals of the log. */
  predicate IsListed(e: Event) { e.Listed? }

  predicate IsDropped(e: Event) { e.Dropped? }

  lemma {:induction false} CallsKeepCounters(s: Fields, calls: seq<Call>)
    ensures ApplyAll(s, calls).podsAdded == s.podsAdded && ApplyAll(s, calls).podsRemoved == s.podsRemoved
    decreases |calls|
  {
    if calls != [] { CallsKeepCounters(s, calls[..|calls| - 1]); }
  }

  /** What one event does to the counters. */
  predicate Counts(s: Fields, t: Fields, e: Event) {
    && t.podsAdded == s.podsAdded + (if e.Listed? then 1 else 0)
    && t.podsRemoved == s.podsRemoved + (if e.Dropped? then 1 else 0)
  }

  lemma BodyCounts(s: Fields, wake: Wake)
    ensures |Body(s, wake).log| == 1 && Counts(s, Body(s, wake).fields, Body(s, wake).log[0])
  {
    if wake.Tick? {
      CallsKeepCounters(s, wake.g1);
      CallsKeepCounters(ApplyAll(s, wake.g1), wake.g2);
    }
  }

  lemma TurnCounts(s: Fields, round: Round)
    ensures var r := Turn(s, round);
            && r.fields.podsAdded == s.podsAdded + CountIf(r.log, IsListed)
            && r.fields.podsRemoved == s.podsRemoved + CountIf(r.log, IsDropped)
  {
    var r := Turn(s, round);
    CallsKeepCounters(s, round.before);
    TurnIsBody(s, round);
    if ApplyAll(s, round.before).running {
      BodyCounts(ApplyAll(s, round.before), round.wake);
      CountIfSingle(r.log[0], IsListed);
      CountIfSingle(r.log[0], IsDropped);
      assert r.log == [r.log[0]];
    }
  }

  lemma {:induction false} CountersCountEvents(s: Fields, rounds: seq<Round>)
    ensures var r := Loop(s, rounds);
            && r.fields.podsAdded == s.podsAdded + CountIf(r.log, IsListed)
            && r.fields.podsRemoved == s.podsRemoved + CountIf(r.log, IsDropped)
    decreases |rounds|
  {
    if rounds != [] {
      var r := Turn(s, rounds[0]);
      TurnCounts(s, rounds[0]);
      if r.outcome.Ongoing? {
        CountersCountEvents(r.fields, rounds[1..]);
        CountIfConcat(r.log, Loop(r.fields, rounds[1..]).log, IsListed);
        CountIfConcat(r.log, Loop(r.fields, rounds[1..]).log, IsDropped);
      }
    }
  }

  /** A first watch that cannot be opened makes Start return its error at once: no round is taken and
      the flag is not touched by the loop. */
  lemma FailedFirstWatch(s: Fields, prelude: seq<Call>, rounds: seq<Round>)
    ensures var r := Run(s, prelude, false, rounds);
            && r.outcome.Returned? && r.fields.failed && r.log == []
            && (r.fields.running <==> s.running && STOPPED !in Seen(prelude))
  {
    CallsStop(s, prelude);
  }
}
