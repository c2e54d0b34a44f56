/** What holds over every interleaving of a DeploymentWatcher with its setters and Stop. */
module DeploymentRuns {
  import opened Common
  import opened Children
  import opened LeafCalls
  import opened LeafReports
  import opened DeploymentLoop

  // ---- The loop refines the leaf automaton ----

  /** Leaf c has the settings of s. */
  predicate SetLike(c: Child, s: Fields) {
    c.kind.Deployment? && c.settings == Settings(s.enabled, s.minReplicas, s.maxReplicas, s.timeout)
  }

  predicate Like(c: Child, s: Fields) { SetLike(c, s) && c.running == s.running }

  lemma {:induction false} CallsMatch(c: Child, s: Fields, calls: seq<Call>)
    requires SetLike(c, s)
    ensures SetLike(CallAll(c, calls), ApplyAll(s, calls))
    ensures c.running == s.running ==> CallAll(c, calls).running == ApplyAll(s, calls).running
    decreases |calls|
  {
    if calls != [] { CallsMatch(c, s, calls[..|calls| - 1]); }
  }

  lemma {:induction false} ApplyConcat(s: Fields, a: seq<Call>, b: seq<Call>)
    ensures ApplyAll(s, a + b) == ApplyAll(ApplyAll(s, a), b)
    decreases |b|
  {
    if b == [] {
      assert a + b == a;
    } else {
      var n := |b| - 1;
      assert (a + b)[..|a + b| - 1] == a + b[..n];
      ApplyConcat(s, a, b[..n]);
    }
  }

  /** A leaf whose replay has come to `d`, which is like s, and to a stage of its loop. */
  ghost predicate Reaches(c: Child, trace: seq<Atom>, s: Fields, stage: Stage) {
    && Replay(c, trace).Some?
    && var d := Replay(c, trace).value;
       d.phase.Looping? && d.stage == stage && Like(d, s)
  }

  lemma CallsReach(c: Child, trace: seq<Atom>, s: Fields, stage: Stage, calls: seq<Call>)
    requires Reaches(c, trace, s, stage)
    ensures Reaches(c, trace + Seen(calls), ApplyAll(s, calls), stage)
  {
    var d := Replay(c, trace).value;
    ReplayCalls(c, trace, calls);
    CallsMatch(d, s, calls);
    CallsReplay(d, calls);
  }

  lemma MoveReaches(c: Child, trace: seq<Atom>, s: Fields, stage: Stage, m: Move, s': Fields, stage': Stage)
    requires Reaches(c, trace, s, stage) && CanMove(Replay(c, trace).value, m)
    requires var d := MoveChild(Replay(c, trace).value, m); d.phase.Looping? && d.stage == stage' && Like(d, s')
    ensures Reaches(c, trace + [Own(m)], s', stage')
  {
    ReplayOwn(c, trace, m);
  }

  /** A tick, from the select statement. */
  lemma TickReaches(c: Child, s: Fields, wake: Wake)
    requires wake.Tick? && Reaches(c, [], s, Waiting)
    ensures var r := Body(s, wake);
            Reaches(c, r.trace, r.fields, if r.outcome.Panicked? then Stage.Panicked else AtHead)
  {
    var s1 := ApplyAll(s, wake.g1);
    var s2 := ApplyAll(s1, wake.g2);
    var t1 := Seen(wake.g1);
    CallsReach(c, [], s, Waiting, wake.g1);
    assert [] + t1 == t1;
    if !s1.enabled {
      MoveReaches(c, t1, s1, Waiting, Skip, s1, AtHead);
    } else {
      MoveReaches(c, t1, s1, Waiting, Aim, s1, Cleared);
      CallsReach(c, t1 + [Own(Aim)], s1, Cleared, wake.g2);
      var t2 := t1 + [Own(Aim)] + Seen(wake.g2);
      if s2.maxReplicas < 0 {
        MoveReaches(c, t2, s2, Cleared, Panic, s2, Stage.Panicked);
      } else {
        MoveReaches(c, t2, s2, Cleared, Load, s2, Firing);
        RequestReaches(c, t2 + [Own(Load)], s2, wake);
      }
    }
  }

  lemma RequestReaches(c: Child, trace: seq<Atom>, s: Fields, wake: Wake)
    requires wake.Tick? && Reaches(c, trace, s, Firing)
    ensures Reaches(c, trace + Seen(wake.g3 + wake.g4) + [Own(Act)], ApplyAll(ApplyAll(s, wake.g3), wake.g4), AtHead)
  {
    var s' := ApplyAll(s, wake.g3 + wake.g4);
    CallsReach(c, trace, s, Firing, wake.g3 + wake.g4);
    ApplyConcat(s, wake.g3, wake.g4);
    MoveReaches(c, trace + Seen(wake.g3 + wake.g4), s', Firing, Act, s', AtHead);
  }

  /** The select statement of a round that passed its head check. */
  lemma BodyReaches(c: Child, s: Fields, wake: Wake)
    requires Reaches(c, [], s, Waiting)
    ensures var r := Body(s, wake);
            Reaches(c, r.trace, r.fields, if r.outcome.Panicked? then Stage.Panicked else AtHead)
  {
    if wake.Tick? {
      TickReaches(c, s, wake);
    } else {
      MoveReaches(c, [], s, Waiting, Rest, s, AtHead);
      assert [] + [Own(Rest)] == [Own(Rest)];
      var s' := s.(running := false);
      MoveReaches(c, [Own(Rest)], s, AtHead, Halt, s', AtHead);
      assert [Own(Rest)] + [Own(Halt)] == [Own(Rest), Own(Halt)];
    }
  }

  /** Where the leaf is when the loop has come to an outcome. */
  ghost predicate EndsAs(d: Child, s: Fields, outcome: Outcome) {
    && Like(d, s)
    && match outcome
       case Ongoing => d.phase.Looping? && d.stage.AtHead?
       case Panicked => d.phase.Looping? && d.stage.Panicked?
       case _ => d.phase.Exited?
  }

  lemma TurnReplays(c: Child, s: Fields, errors: nat, round: Round)
    requires c.phase.Looping? && c.stage.AtHead? && Like(c, s)
    ensures var r := Turn(s, errors, round).0;
            Replay(c, r.trace).Some? && EndsAs(Replay(c, r.trace).value, r.fields, r.outcome)
  {
    var s0 := ApplyAll(s, round.before);
    var t0 := Seen(round.before);
    assert Replay(c, []) == Some(c);
    CallsReach(c, [], s, AtHead, round.before);
    assert [] + t0 == t0;
    if !s0.running {
      ReplayOwn(c, t0, Leave);
    } else {
      MoveReaches(c, t0, s0, AtHead, Check, s0, Waiting);
      var d := Replay(c, t0 + [Own(Check)]).value;
      assert Replay(d, []) == Some(d);
      var b := Body(s0, round.wake);
      BodyReaches(d, s0, round.wake);
      ReplayConcat(c, t0 + [Own(Check)], b.trace);
      if Turn(s, errors, round).0.outcome.TooManyErrors? { GivingUpReplays(c, t0 + [Own(Check)] + b.trace, b.fields); }
    }
  }

  lemma GivingUpReplays(c: Child, trace: seq<Atom>, s: Fields)
    requires Reaches(c, trace, s, AtHead)
    ensures Replay(c, trace + [Own(Halt), Own(Leave)]).Some?
    ensures EndsAs(Replay(c, trace + [Own(Halt), Own(Leave)]).value, s.(running := false), TooManyErrors)
  {
    MoveReaches(c, trace, s, AtHead, Halt, s.(running := false), AtHead);
    ReplayOwn(c, trace + [Own(Halt)], Leave);
    assert trace + [Own(Halt)] + [Own(Leave)] == trace + [Own(Halt), Own(Leave)];
  }

  lemma {:induction false} LoopReplays(c: Child, s: Fields, errors: nat, rounds: seq<Round>)
    requires c.phase.Looping? && c.stage.AtHead? && Like(c, s)
    ensures var r := Loop(s, errors, rounds);
            Replay(c, r.trace).Some? && EndsAs(Replay(c, r.trace).value, r.fields, r.outcome)
    decreases |rounds|
  {
    if rounds != [] {
      TurnReplays(c, s, errors, rounds[0]);
      var (r, errors') := Turn(s, errors, rounds[0]);
      if r.outcome.Ongoing? {
        LoopReplays(Replay(c, r.trace).value, r.fields, errors', rounds[1..]);
        ReplayConcat(c, r.trace, Loop(r.fields, errors', rounds[1..]).trace);
      }
    }
  }

  /** Every run of Start, with everything that other goroutines do meanwhile, is a behaviour of
      the leaf automaton with the same settings; it ends with the same settings and flag, at a head
      check if the loop goes on, after a panic if that is how it ended, and past Leave if and only
      if Start has returned. */
  lemma RunRefinesLeaf(c: Child, s: Fields, prelude: seq<Call>, rounds: seq<Round>)
    requires c.phase.Spawned? && SetLike(c, s)
    ensures var r := Run(s, prelude, rounds);
            Replay(c, r.trace).Some? && EndsAs(Replay(c, r.trace).value, r.fields, r.outcome)
  {
    var head := Seen(prelude) + [Own(Begin)];
    CallsReplay(c, prelude);
    CallsMatch(c, s, prelude);
    ReplayOwn(c, Seen(prelude), Begin);
    var s1 := ApplyAll(s, prelude).(running := true);
    LoopReplays(Replay(c, head).value, s1, 0, rounds);
    ReplayConcat(c, head, Loop(s1, 0, rounds).trace);
  }

  predicate IsRequest(e: Event) { e.Scaled? }

  function Requests(log: seq<Event>): nat { CountIf(log, IsRequest) }

  lemma BodyActs(s: Fields, wake: Wake)
    ensures Acts(Body(s, wake).trace) == Requests(Body(s, wake).log)
  {
    if wake.Tick? {
      TickActs(s, wake);
    } else {
      CountIfSingle(Woken, IsRequest);
    }
  }

  lemma TickActs(s: Fields, wake: Wake)
    requires wake.Tick?
    ensures Acts(Body(s, wake).trace) == Requests(Body(s, wake).log)
  {
    var r := Body(s, wake);
    if r.log != [] { CountIfSingle(r.log[0], IsRequest); }
    var t1 := Seen(wake.g1) + [Own(Aim)];
    assert [] + Seen(wake.g1) + [Own(Skip)] == Seen(wake.g1) + [Own(Skip)];
    assert [] + Seen(wake.g1) + [Own(Aim)] == t1;
    ActsOfStretch([], wake.g1, Skip);
    ActsOfStretch([], wake.g1, Aim);
    ActsOfStretch(t1, wake.g2, Panic);
    ActsOfStretch(t1, wake.g2, Load);
    ActsOfStretch(t1 + Seen(wake.g2) + [Own(Load)], wake.g3 + wake.g4, Act);
  }

  lemma TurnActs(s: Fields, errors: nat, round: Round)
    ensures var r := Turn(s, errors, round).0; Acts(r.trace) == Requests(r.log)
  {
    var s0 := ApplyAll(s, round.before);
    var b := Body(s0, round.wake);
    BodyActs(s0, round.wake);
    HeadActs(round.before, b.trace);
    ActsConcat(Seen(round.before) + [Own(Check)] + b.trace, [Own(Halt), Own(Leave)]);
    assert [] + b.log == b.log;
  }

  lemma {:induction false} LoopActs(s: Fields, errors: nat, rounds: seq<Round>)
    ensures var r := Loop(s, errors, rounds); Acts(r.trace) == Requests(r.log)
    decreases |rounds|
  {
    if rounds != [] {
      TurnActs(s, errors, rounds[0]);
      var (r, errors') := Turn(s, errors, rounds[0]);
      if r.outcome.Ongoing? {
        LoopActs(r.fields, errors', rounds[1..]);
        ActsConcat(r.trace, Loop(r.fields, errors', rounds[1..]).trace);
        CountIfConcat(r.log, Loop(r.fields, errors', rounds[1..]).log, IsRequest);
      }
    }
  }

  lemma RunActs(s: Fields, prelude: seq<Call>, rounds: seq<Round>)
    ensures Acts(Run(s, prelude, rounds).trace) == Requests(Run(s, prelude, rounds).log)
  {
    var s1 := ApplyAll(s, prelude).(running := true);
    LoopActs(s1, 0, rounds);
    CallsNeverAct(prelude);
    ActsConcat(Seen(prelude), [Own(Begin)]);
    ActsConcat(Seen(prelude) + [Own(Begin)], Loop(s1, 0, rounds).trace);
    assert [] + Loop(s1, 0, rounds).log == Loop(s1, 0, rounds).log;
  }

  /** A leaf with the settings of s. */
  function LeafOf(s: Fields): Child {
    NewChild(Deployment, "", Configuration(false, 0, 0, "", "", 0))
    .(phase := Spawned, settings := Settings(s.enabled, s.minReplicas, s.maxReplicas, s.timeout))
  }

  lemma RequestsSplit(s: Fields, prelude: seq<Call>, rounds: seq<Round>, before: seq<Atom>, a: Atom, after: seq<Atom>)
    requires Run(s, prelude, rounds).trace == before + [a] + after && a != Own(Act)
    ensures Requests(Run(s, prelude, rounds).log) == Acts(before) + Acts(after)
    ensures Replay(LeafOf(s), before + [a] + after).Some?
    ensures Replay(LeafOf(s), before + [a] + after).value.running == Run(s, prelude, rounds).fields.running
  {
    RunRefinesLeaf(LeafOf(s), s, prelude, rounds);
    RunActs(s, prelude, rounds);
    ActsConcat(before + [a], after);
    ActsConcat(before, [a]);
  }

  /** The disruptions of the automaton are the scale requests of the log, and a run that has
      been stopped after its setRunning(true) sends at most one more. */
  lemma AtMostOneRequestAfterStop(s: Fields, prelude: seq<Call>, rounds: seq<Round>,
                                  before: seq<Atom>, after: seq<Atom>)
    requires Run(s, prelude, rounds).trace == before + [STOPPED] + after && Own(Begin) in before
    ensures Requests(Run(s, prelude, rounds).log) == Acts(before) + Acts(after)
    ensures Acts(after) <= 1
    ensures !Run(s, prelude, rounds).fields.running
  {
    RequestsSplit(s, prelude, rounds, before, STOPPED, after);
    AtMostOneActAfterStop(LeafOf(s), before, after);
  }

  /** The same for a run that has been disabled, at any time, and is not enabled again. */
  lemma AtMostOneRequestAfterDisable(s: Fields, prelude: seq<Call>, rounds: seq<Round>,
                                     before: seq<Atom>, after: seq<Atom>)
    requires Run(s, prelude, rounds).trace == before + [Called(SetEnabled(false))] + after
    requires Called(SetEnabled(true)) !in after
    ensures Requests(Run(s, prelude, rounds).log) == Acts(before) + Acts(after)
    ensures Acts(after) <= 1
  {
    RequestsSplit(s, prelude, rounds, before, Called(SetEnabled(false)), after);
    AtMostOneActAfterDisable(LeafOf(s), before, after);
  }

  // ---- Runs without calls ----

  /** A round in which nobody calls the watcher. */
  predicate AloneRound(round: Round) {
    && round.before == []
    && (round.wake.Tick? ==>
          round.wake.g1 == [] && round.wake.g2 == [] && round.wake.g3 == [] && round.wake.g4 == [])
  }

  predicate Alone(rounds: seq<Round>) {
    forall k :: 0 <= k < |rounds| ==> AloneRound(rounds[k])
  }

  const TICK := Round([], Tick([], [], 0, [], [], true))

  function Ticks(n: nat): seq<Round> { if n == 0 then [] else [TICK] + Ticks(n - 1) }

  lemma OneTick(s: Fields, errors: nat)
    requires s.running && s.enabled && s.maxReplicas >= 0
    ensures var (r, errors') := Turn(s, errors, TICK);
            && r.fields == s && r.outcome.Ongoing? && errors' == 0 && r.log == [r.log[0]] && r.log[0].Scaled?
            && r.trace == [Own(Check)] + ([Own(Aim)] + ([Own(Load)] + [Own(Act)]))
  {
    var none: seq<Call> := [];
    assert Seen(none) == [] && none + none == none;
    var b := Body(s, TICK.wake);
    assert b.trace == [Own(Aim)] + ([Own(Load)] + [Own(Act)]);
    assert [] + b.log == b.log;
  }

  lemma LoopCons(s: Fields, errors: nat, round: Round, rounds: seq<Round>)
    requires Turn(s, errors, round).0.outcome.Ongoing?
    ensures var (r, errors') := Turn(s, errors, round);
            var rest := Loop(r.fields, errors', rounds);
            && Loop(s, errors, [round] + rounds) == rest.After(r.log, r.trace)
            && Requests(rest.After(r.log, r.trace).log) == Requests(r.log) + Requests(rest.log)
  {
    var (r, errors') := Turn(s, errors, round);
    assert ([round] + rounds)[1..] == rounds;
    CountIfConcat(r.log, Loop(r.fields, errors', rounds).log, IsRequest);
  }

  /** One volley in front of n. */
  lemma AfterVolley(rest: LoopReport, r: LoopReport, n: nat)
    requires Requests(rest.log) == n && rest.trace == Volleys(n)
    requires |r.log| == 1 && r.log[0].Scaled? && r.trace == [Own(Check)] + ([Own(Aim)] + ([Own(Load)] + [Own(Act)]))
    ensures Requests(rest.After(r.log, r.trace).log) == n + 1 && rest.After(r.log, r.trace).trace == Volleys(n + 1)
  {
    AfterOne(rest, r.log[0], r.trace, IsRequest);
    assert r.log == [r.log[0]];
    VolleysGrow(n);
  }

  /** The automaton's volleys are rounds of this loop: n ticks, n requests. */
  lemma {:induction false} TicksAreVolleys(s: Fields, n: nat)
    requires s.running && s.enabled && s.maxReplicas >= 0
    ensures Alone(Ticks(n))
    ensures var r := Loop(s, 0, Ticks(n));
            r.fields == s && r.outcome.Ongoing? && Requests(r.log) == n && r.trace == Volleys(n)
  {
    if n > 0 {
      TicksAreVolleys(s, n - 1);
      OneTick(s, 0);
      LoopCons(s, 0, TICK, Ticks(n - 1));
      AfterVolley(Loop(s, 0, Ticks(n - 1)), Turn(s, 0, TICK).0, n - 1);
    }
  }

  /** An early Stop is lost in this loop as in the automaton: for every n there is a run, without any
      further call, that is stopped before its setRunning(true) and sends n requests. */
  lemma EarlyStopIsLostHere(s: Fields, n: nat)
    requires s.enabled && s.maxReplicas >= 0
    ensures Alone(Ticks(n))
    ensures var r := Run(s, [Stop], Ticks(n));
            && r.fields.running && Requests(r.log) == n
            && r.trace == [STOPPED] + ([Own(Begin)] + Rampage(Deployment, false, n))
  {
    assert [Stop][..0] == [];
    assert ApplyAll(s, [Stop]) == Apply(ApplyAll(s, []), Stop);
    var s1 := ApplyAll(s, [Stop]).(running := true);
    TicksAreVolleys(s1, n);
    assert Seen([Stop]) == [STOPPED];
    assert [] + Loop(s1, 0, Ticks(n)).log == Loop(s1, 0, Ticks(n)).log;
    assert [STOPPED] + [Own(Begin)] + Volleys(n) == [STOPPED] + ([Own(Begin)] + Rampage(Deployment, false, n));
  }

  /** Left alone at its head check, the loop sends another request in some continuation if and only
      if it is running, enabled, and has a max to draw from. */
  lemma AloneRequestsIff(s: Fields, errors: nat)
    ensures (exists rounds :: Alone(rounds) && Requests(Loop(s, errors, rounds).log) > 0)
            <==> s.running && s.enabled && s.maxReplicas >= 0
  {
    if s.running && s.enabled && s.maxReplicas >= 0 {
      FirstTickRequests(s, errors);
    } else {
      forall rounds | Alone(rounds) ensures Requests(Loop(s, errors, rounds).log) == 0 {
        UnwillingIsSilent(s, errors, rounds);
      }
    }
  }

  lemma FirstTickRequests(s: Fields, errors: nat)
    requires s.running && s.enabled && s.maxReplicas >= 0
    ensures Alone([TICK]) && Requests(Loop(s, errors, [TICK]).log) == 1
  {
    OneTick(s, errors);
    LoopCons(s, errors, TICK, []);
    assert [TICK] + [] == [TICK];
    CountIfSingle(Turn(s, errors, TICK).0.log[0], IsRequest);
  }

  lemma AloneTurnIsSilent(s: Fields, errors: nat, round: Round)
    requires AloneRound(round) && !(s.running && s.enabled && s.maxReplicas >= 0)
    ensures var r := Turn(s, errors, round).0;
            Requests(r.log) == 0 && !(r.fields.running && r.fields.enabled && r.fields.maxReplicas >= 0)
  {
    CountIfSingle(Skipped, IsRequest);
    CountIfSingle(Woken, IsRequest);
    assert [] + Body(s, round.wake).log == Body(s, round.wake).log;
  }

  lemma {:induction false} UnwillingIsSilent(s: Fields, errors: nat, rounds: seq<Round>)
    requires Alone(rounds) && !(s.running && s.enabled && s.maxReplicas >= 0)
    ensures Requests(Loop(s, errors, rounds).log) == 0
    decreases |rounds|
  {
    if rounds != [] {
      assert AloneRound(rounds[0]) && Alone(rounds[1..]);
      AloneTurnIsSilent(s, errors, rounds[0]);
      var (r, errors') := Turn(s, errors, rounds[0]);
      if r.outcome.Ongoing? {
        UnwillingIsSilent(r.fields, errors', rounds[1..]);
        CountIfConcat(r.log, Loop(r.fields, errors', rounds[1..]).log, IsRequest);
      }
    }
  }

  // ---- Consecutive errors ----

  /** The answers to the scale requests, in order: ticks that skip and wake-ups leave no answer. */
  function Answers(log: seq<Event>): seq<bool> {
    if log == [] then []
    else Answers(log[..|log| - 1]) + (if log[|log| - 1].Scaled? then [log[|log| - 1].ok] else [])
  }

  lemma {:induction false} AnswersConcat(a: seq<Event>, b: seq<Event>)
    ensures Answers(a + b) == Answers(a) + Answers(b)
    decreases |b|
  {
    if b == [] {
      assert a + b == a;
    } else {
      assert (a + b)[..|a + b| - 1] == a + b[..|b| - 1];
      AnswersConcat(a, b[..|b| - 1]);
    }
  }

  /** The j-th answer completes five failures in a row. */
  predicate FiveFailures(o: seq<bool>, j: nat) {
    5 <= j <= |o| && !o[j - 5] && !o[j - 4] && !o[j - 3] && !o[j - 2] && !o[j - 1]
  }

  /** No answer before the last one completes five failures. */
  ghost predicate NoneBeforeLast(o: seq<bool>) {
    forall j: nat :: j < |o| ==> !FiveFailures(o, j)
  }

  /** No answer at all does. */
  predicate Clean(o: seq<bool>) {
    o == [] || (Clean(o[..|o| - 1]) && !FiveFailures(o, |o|))
  }

  lemma {:induction false} CleanMeans(o: seq<bool>, j: nat)
    requires Clean(o) && j <= |o|
    ensures !FiveFailures(o, j)
  {
    if o != [] && j < |o| { CleanMeans(o[..|o| - 1], j); }
  }

  function TrailingFailures(o: seq<bool>): nat {
    if o == [] || o[|o| - 1] then 0 else 1 + TrailingFailures(o[..|o| - 1])
  }

  lemma {:induction false} TrailingIsSuffix(o: seq<bool>, n: nat)
    ensures TrailingFailures(o) >= n <==> n <= |o| && forall k :: |o| - n <= k < |o| ==> !o[k]
    decreases |o|
  {
    if o != [] && !o[|o| - 1] && n > 0 {
      TrailingIsSuffix(o[..|o| - 1], n - 1);
      var p := o[..|o| - 1];
      assert forall k :: 0 <= k < |p| ==> p[k] == o[k];
    }
  }

  lemma TrailingFive(o: seq<bool>)
    ensures TrailingFailures(o) >= 5 <==> FiveFailures(o, |o|)
  {
    TrailingIsSuffix(o, 5);
  }

  /** The loop has seen the answers `o` and goes on with this count. */
  predicate Tracks(o: seq<bool>, errors: nat) {
    errors == TrailingFailures(o) < 5 && Clean(o)
  }

  /** It has failed on the last of them, or not at all. */
  predicate Verdict(o: seq<bool>, failed: bool) {
    if failed then o != [] && Clean(o[..|o| - 1]) && FiveFailures(o, |o|) else Clean(o)
  }

  lemma VerdictMeans(o: seq<bool>, failed: bool)
    requires Verdict(o, failed)
    ensures NoneBeforeLast(o) && (failed <==> FiveFailures(o, |o|))
  {
    forall j: nat | j < |o| ensures !FiveFailures(o, j) {
      if failed {
        CleanMeans(o[..|o| - 1], j);
      } else {
        CleanMeans(o, j);
      }
    }
  }

  lemma AnswerTracked(prior: seq<bool>, errors: nat, a: bool)
    requires Tracks(prior, errors)
    ensures Verdict(prior + [a], !a && errors == 4)
    ensures !(!a && errors == 4) ==> Tracks(prior + [a], if a then 0 else errors + 1)
  {
    assert (prior + [a])[..|prior|] == prior;
    if |prior| > 0 { CleanMeans(prior, |prior|); }
    TrailingFive(prior);
    TrailingFive(prior + [a]);
  }

  /** What one turn adds to the answers, and when it gives up. */
  lemma TurnAnswers(s: Fields, errors: nat, round: Round)
    requires errors < 5
    ensures var (r, errors') := Turn(s, errors, round);
            if |r.log| == 1 && r.log[0].Scaled? then
              && Answers(r.log) == [r.log[0].ok]
              && errors' == (if r.log[0].ok then 0 else errors + 1)
              && (r.outcome.TooManyErrors? <==> !r.log[0].ok && errors == 4)
            else Answers(r.log) == [] && errors' == errors && !r.outcome.TooManyErrors?
  {
    var log := Turn(s, errors, round).0.log;
    if |log| == 1 { AnswersOfOne(log[0]); }
  }

  lemma AnswersOfOne(e: Event)
    ensures Answers([e]) == if e.Scaled? then [e.ok] else []
  {
    assert [e][..0] == [];
  }

  lemma TurnCounts(s: Fields, errors: nat, round: Round, prior: seq<bool>)
    requires Tracks(prior, errors)
    ensures var (r, errors') := Turn(s, errors, round);
            && Verdict(prior + Answers(r.log), r.outcome.TooManyErrors?)
            && (r.outcome.Ongoing? ==> Tracks(prior + Answers(r.log), errors'))
  {
    var r := Turn(s, errors, round).0;
    TurnAnswers(s, errors, round);
    if |r.log| == 1 && r.log[0].Scaled? {
      AnswerTracked(prior, errors, r.log[0].ok);
    } else {
      assert prior + [] == prior;
    }
  }

  lemma VerdictOfWhole(prior: seq<bool>, r: LoopReport, rest: LoopReport)
    requires Verdict(prior + Answers(r.log) + Answers(rest.log), rest.outcome.TooManyErrors?)
    ensures Verdict(prior + Answers(rest.After(r.log, r.trace).log), rest.outcome.TooManyErrors?)
  {
    AnswersConcat(r.log, rest.log);
    assert prior + Answers(r.log) + Answers(rest.log) == prior + Answers(r.log + rest.log);
  }

  lemma {:induction false} LoopCounts(s: Fields, errors: nat, rounds: seq<Round>, prior: seq<bool>)
    requires Tracks(prior, errors)
    ensures Verdict(prior + Answers(Loop(s, errors, rounds).log), Loop(s, errors, rounds).outcome.TooManyErrors?)
    decreases |rounds|
  {
    if rounds == [] {
      assert prior + [] == prior;
    } else {
      TurnCounts(s, errors, rounds[0], prior);
      var (r, errors') := Turn(s, errors, rounds[0]);
      if r.outcome.Ongoing? {
        var rest := Loop(r.fields, errors', rounds[1..]);
        LoopCounts(r.fields, errors', rounds[1..], prior + Answers(r.log));
        VerdictOfWhole(prior, r, rest);
      }
    }
  }

  /** Start returns its error if and only if the answers end in five failures, and these are then
      the first five in a row; so there are never six. */
  lemma ErrorIffFiveInARow(s: Fields, prelude: seq<Call>, rounds: seq<Round>)
    ensures var r := Run(s, prelude, rounds);
            var o := Answers(r.log);
            && (r.outcome.TooManyErrors? <==> FiveFailures(o, |o|))
            && NoneBeforeLast(o)
            && (forall j: nat :: FiveFailures(o, j) ==> j == |o|)
  {
    var r := Loop(ApplyAll(s, prelude).(running := true), 0, rounds);
    LoopCounts(ApplyAll(s, prelude).(running := true), 0, rounds, []);
    assert [] + Answers(r.log) == Answers(r.log) && [] + r.log == r.log;
    VerdictMeans(Answers(r.log), r.outcome.TooManyErrors?);
  }

  // ---- Replica counts ----

  /** Every min and max that a call writes belongs to some configuration in `cs`. */
  predicate From(cs: set<(int, int)>, calls: seq<Call>) {
    forall i :: 0 <= i < |calls| ==>
      && (calls[i].SetMinReplicas? ==> exists c :: c in cs && c.0 == calls[i].n)
      && (calls[i].SetMaxReplicas? ==> exists c :: c in cs && c.1 == calls[i].n)
  }

  predicate Covered(cs: set<(int, int)>, s: Fields) {
    && (exists c :: c in cs && c.0 == s.minReplicas)
    && (exists c :: c in cs && c.1 == s.maxReplicas)
  }

  lemma {:induction false} StaysCovered(cs: set<(int, int)>, s: Fields, calls: seq<Call>)
    requires Covered(cs, s) && From(cs, calls)
    ensures Covered(cs, ApplyAll(s, calls))
    decreases |calls|
  {
    if calls != [] {
      StaysCovered(cs, s, calls[..|calls| - 1]);
    }
  }

  lemma SmallStaysPut(n: int)
    requires -0x8000_0000 <= n < 0x8000_0000
    ensures ToInt32(n) == n
  {
  }

  /** With every configuration in force satisfying 0 <= min <= max, whatever setters interleave
      with the tick, Intn does not panic and the request lies between the least min and the
      greatest max in force, as long as that max fits an int32. */
  lemma RequestWithinConfigurations(cs: set<(int, int)>, s: Fields, wake: Wake, lo: int, hi: int)
    requires wake.Tick? && Covered(cs, s)
    requires From(cs, wake.g1) && From(cs, wake.g2) && From(cs, wake.g3)
    requires forall c :: c in cs ==> 0 <= c.0 <= c.1 && lo <= c.0 && c.1 <= hi
    requires hi < 0x8000_0000
    ensures !Body(s, wake).outcome.Panicked?
    ensures forall e :: e in Body(s, wake).log && e.Scaled? ==> lo <= e.replicas <= hi && e.replicas >= 0
  {
    var s1 := ApplyAll(s, wake.g1);
    var s2 := ApplyAll(s1, wake.g2);
    var s3 := ApplyAll(s2, wake.g3);
    StaysCovered(cs, s, wake.g1);
    StaysCovered(cs, s1, wake.g2);
    StaysCovered(cs, s2, wake.g3);
    var c :| c in cs && c.1 == s2.maxReplicas;
    var c' :| c' in cs && c'.0 == s3.minReplicas;
    SmallStaysPut(Max(Draw(wake.draw, s2.maxReplicas), s3.minReplicas));
  }

  predicate Quiet(calls: seq<Call>) {
    forall i :: 0 <= i < |calls| ==> !calls[i].SetMinReplicas? && !calls[i].SetMaxReplicas? && !calls[i].SetEnabled?
  }

  lemma {:induction false} QuietKeepsBounds(s: Fields, calls: seq<Call>)
    requires Quiet(calls)
    ensures var t := ApplyAll(s, calls);
            t.minReplicas == s.minReplicas && t.maxReplicas == s.maxReplicas && t.enabled == s.enabled
    decreases |calls|
  {
    if calls != [] { QuietKeepsBounds(s, calls[..|calls| - 1]); }
  }

  predicate Undisturbed(wake: Wake) {
    wake.Tick? && Quiet(wake.g1) && Quiet(wake.g2) && Quiet(wake.g3)
  }

  /** Without interleaved setters an enabled tick asks for a count in [min, max]. */
  lemma UndisturbedRequest(s: Fields, wake: Wake)
    requires s.enabled && 0 <= s.minReplicas <= s.maxReplicas < 0x8000_0000 && Undisturbed(wake)
    ensures var log := Body(s, wake).log;
            |log| == 1 && log[0].Scaled? && s.minReplicas <= log[0].replicas <= s.maxReplicas
  {
    QuietKeepsBounds(s, wake.g1);
    QuietKeepsBounds(ApplyAll(s, wake.g1), wake.g2);
    QuietKeepsBounds(ApplyAll(ApplyAll(s, wake.g1), wake.g2), wake.g3);
    SmallStaysPut(Max(Draw(wake.draw, s.maxReplicas), s.minReplicas));
  }

  /** And it can ask for every one of them. */
  lemma EveryCountIsRequested(s: Fields, replicas: int)
    requires s.enabled && 0 <= s.minReplicas <= replicas <= s.maxReplicas < 0x8000_0000
    ensures Body(s, Tick([], [], replicas, [], [], true)).log == [Scaled(replicas, true)]
  {
    SmallStaysPut(replicas);
  }

  /** Whatever the random source says, an undisturbed enabled tick asks for a count in
      [min, max]. */
  ghost predicate AlwaysInRange(s: Fields) {
    forall draw: nat :: InRange(s, Body(s, Tick([], [], draw, [], [], true)).log)
  }

  predicate InRange(s: Fields, log: seq<Event>) {
    |log| == 1 && log[0].Scaled? && s.minReplicas <= log[0].replicas <= s.maxReplicas
  }

  /** That is so if and only if max fits an int32: from there on the conversion wraps, and some
      draw asks for a count outside the configuration. */
  lemma InRangeIffMaxFits(s: Fields)
    requires s.enabled && 0 <= s.minReplicas <= s.maxReplicas
    ensures AlwaysInRange(s) <==> s.maxReplicas < 0x8000_0000
  {
    if s.maxReplicas < 0x8000_0000 {
      forall draw: nat ensures InRange(s, Body(s, Tick([], [], draw, [], [], true)).log) {
        UndisturbedRequest(s, Tick([], [], draw, [], [], true));
      }
    } else {
      var draw := Max(s.minReplicas, 0x8000_0000);
      assert Draw(draw, s.maxReplicas) == draw;
      assert Body(s, Tick([], [], draw, [], [], true)).log == [Scaled(ToInt32(draw), true)];
      assert ToInt32(draw) < s.minReplicas || ToInt32(draw) < 0;
      assert !InRange(s, Body(s, Tick([], [], draw, [], [], true)).log);
    }
  }

  /** The request of a tick that has read this max and this min. */
  predicate Asks(log: seq<Event>, draw: nat, ok: bool, max: int, min: int) {
    max >= 0 && log == [Scaled(ToInt32(Max(Draw(draw, max), min)), ok)]
  }

  /** A tick sees the max that g1 and g2 leave, and the min that g3 leaves after them. */
  lemma TickAsks(s: Fields, wake: Wake)
    requires wake.Tick?
    ensures var log := Body(s, wake).log;
            || log == [] || log == [Skipped]
            || Asks(log, wake.draw, wake.ok, ApplyAll(s, wake.g1 + wake.g2).maxReplicas,
                    ApplyAll(s, wake.g1 + wake.g2 + wake.g3).minReplicas)
  {
    ApplyConcat(s, wake.g1, wake.g2);
    ApplyConcat(s, wake.g1 + wake.g2, wake.g3);
  }

  /** A tick during which one reconfiguration arrives: e of its four calls before the tick reads
      Enabled, i before it reads the max, j before it reads the min.  A request may combine the old
      max with the new min, but never the new max with the old min. */
  lemma NeverNewMaxWithOldMin(s: Fields, cfg: Configuration, e: nat, i: nat, j: nat, draw: nat, ok: bool)
    requires e <= i <= j <= 4
    ensures var c := Reconfiguration(cfg);
            var log := Body(s, Tick(c[..e], c[e..i], draw, c[i..j], c[j..], ok)).log;
            || log == [] || log == [Skipped]
            || Asks(log, draw, ok, s.maxReplicas, s.minReplicas)
            || Asks(log, draw, ok, s.maxReplicas, cfg.minReplicas)
            || Asks(log, draw, ok, cfg.maxReplicas, cfg.minReplicas)
  {
    FirstCalls(s, cfg, i);
    FirstCalls(s, cfg, j);
    Pieces(Reconfiguration(cfg), e, i, j);
    var c := Reconfiguration(cfg);
    TickAsks(s, Tick(c[..e], c[e..i], draw, c[i..j], c[j..], ok));
  }

  lemma Pieces(c: seq<Call>, e: nat, i: nat, j: nat)
    requires e <= i <= j <= |c|
    ensures c[..e] + c[e..i] == c[..i] && c[..e] + c[e..i] + c[i..j] == c[..j]
  {
  }

  lemma FirstCalls(s: Fields, cfg: Configuration, i: nat)
    requires i <= 4
    ensures var t := ApplyAll(s, Reconfiguration(cfg)[..i]);
            && t.minReplicas == (if i >= 2 then cfg.minReplicas else s.minReplicas)
            && t.maxReplicas == (if i >= 3 then cfg.maxReplicas else s.maxReplicas)
  {
    var calls := Reconfiguration(cfg)[..i];
    if i > 0 {
      FirstCalls(s, cfg, i - 1);
      assert calls[..i - 1] == Reconfiguration(cfg)[..i - 1];
    }
  }

  // ---- What a round answers to its wake-up ----

  /** Go's conversion keeps the number modulo 2^32 and lands in the range of int32. */
  lemma ToInt32Wraps(n: int)
    ensures -0x8000_0000 <= ToInt32(n) < 0x8000_0000
    ensures exists k: int :: n == ToInt32(n) + k * 0x1_0000_0000
  {
    var k := (n + 0x8000_0000) / 0x1_0000_0000;
    assert n == ToInt32(n) + k * 0x1_0000_0000;
  }

  /** What the loop, waiting with the fields s, logs for a wake-up: a tick that finds the watcher
      disabled skips, one that finds it enabled requests the larger of its draw and the min, as an
      int32, and keeps the answer; with a negative max it panics and logs nothing. */
  predicate AnswersWake(s: Fields, wake: Wake, log: seq<Event>) {
    match wake
    case Tick(g1, g2, draw, g3, g4, ok) =>
      var max := ApplyAll(s, g1 + g2).maxReplicas;
      var min := ApplyAll(s, g1 + g2 + g3).minReplicas;
      if !ApplyAll(s, g1).enabled then log == [Skipped]
      else if max < 0 then log == []
      else
        && |log| == 1 && log[0].Scaled? && log[0].ok == ok
        && log[0].replicas == ToInt32(if draw % (max + 1) >= min then draw % (max + 1) else min)
    case _ => log == [Woken]
  }

  lemma BodyAnswersWake(s: Fields, wake: Wake)
    ensures AnswersWake(s, wake, Body(s, wake).log)
    ensures Body(s, wake).outcome.Panicked? <==>
            wake.Tick? && ApplyAll(s, wake.g1).enabled && ApplyAll(s, wake.g1 + wake.g2).maxReplicas < 0
  {
    if wake.Tick? {
      ApplyConcat(s, wake.g1, wake.g2);
      ApplyConcat(s, wake.g1 + wake.g2, wake.g3);
    }
  }

  /** A request is never below the min, and never above both the min and the max. */
  lemma RequestIsDrawOrMin(s: Fields, wake: Wake)
    requires Undisturbed(wake) && s.enabled && s.maxReplicas >= 0
    ensures var log := Body(s, wake).log;
            && |log| == 1 && log[0].Scaled?
            && exists n: int :: && log[0].replicas == ToInt32(n)
                                && (n == s.minReplicas || s.minReplicas <= n <= s.maxReplicas)
  {
    QuietKeepsBounds(s, wake.g1);
    QuietKeepsBounds(ApplyAll(s, wake.g1), wake.g2);
    QuietKeepsBounds(ApplyAll(ApplyAll(s, wake.g1), wake.g2), wake.g3);
    var n := Max(Draw(wake.draw, s.maxReplicas), s.minReplicas);
    assert Body(s, wake).log == [Scaled(ToInt32(n), wake.ok)];
  }

  /** The fields with which round k waits for its wake-up. */
  function Waits(s: Fields, errors: nat, rounds: seq<Round>, k: nat): Fields
    requires k < |rounds|
  {
    ApplyAll(Loop(s, errors, rounds[..k]).fields, rounds[k].before)
  }

  lemma TurnLogsOnce(s: Fields, errors: nat, round: Round)
    ensures var r := Turn(s, errors, round).0;
            && |r.log| == (if r.outcome.Ongoing? || r.outcome.TooManyErrors? then 1 else 0)
            && (ApplyAll(s, round.before).running ==>
                  AnswersWake(ApplyAll(s, round.before), round.wake, r.log))
            && (r.outcome.Returned? <==> !ApplyAll(s, round.before).running)
  {
    var s0 := ApplyAll(s, round.before);
    BodyAnswersWake(s0, round.wake);
    assert [] + Body(s0, round.wake).log == Body(s0, round.wake).log;
  }

  /** What a later round waits with does not depend on how the first was reached. */
  lemma WaitsShift(s: Fields, errors: nat, rounds: seq<Round>, k: nat)
    requires 0 < k < |rounds| && Turn(s, errors, rounds[0]).0.outcome.Ongoing?
    ensures var (r, errors') := Turn(s, errors, rounds[0]);
            Waits(s, errors, rounds, k) == Waits(r.fields, errors', rounds[1..], k - 1)
  {
    assert rounds[..k] == [rounds[0]] + rounds[1..][..k - 1];
    LoopCons(s, errors, rounds[0], rounds[1..][..k - 1]);
  }

  /** Over every run of the loop the k-th entry of the log answers the k-th wake-up of the script. */
  lemma {:induction false} LogAnswersScript(s: Fields, errors: nat, rounds: seq<Round>, k: nat)
    requires k < |Loop(s, errors, rounds).log|
    ensures k < |rounds|
    ensures AnswersWake(Waits(s, errors, rounds, k), rounds[k].wake, [Loop(s, errors, rounds).log[k]])
    decreases |rounds|
  {
    var (r, errors') := Turn(s, errors, rounds[0]);
    TurnLogsOnce(s, errors, rounds[0]);
    assert rounds == [rounds[0]] + rounds[1..];
    if r.outcome.Ongoing? { LoopCons(s, errors, rounds[0], rounds[1..]); }
    if k == 0 {
      assert rounds[..0] == [];
      assert [r.log[0]] == r.log;
    } else {
      LogAnswersScript(r.fields, errors', rounds[1..], k - 1);
      WaitsShift(s, errors, rounds, k);
    }
  }

  lemma OneRoundMore(s: Fields, errors: nat, rounds: seq<Round>)
    requires rounds != [] && Turn(s, errors, rounds[0]).0.outcome.Ongoing?
    ensures var (r, errors') := Turn(s, errors, rounds[0]);
            var rest := Loop(r.fields, errors', rounds[1..]);
            && |Loop(s, errors, rounds).log| == 1 + |rest.log|
            && Loop(s, errors, rounds).outcome == rest.outcome && Loop(s, errors, rounds).fields == rest.fields
  {
    TurnLogsOnce(s, errors, rounds[0]);
    assert rounds == [rounds[0]] + rounds[1..];
    LoopCons(s, errors, rounds[0], rounds[1..]);
  }

  /** As long as the loop goes on it answers every round; it returns with the first head check that
      finds Running false. */
  lemma {:induction false} EveryRoundIsAnswered(s: Fields, errors: nat, rounds: seq<Round>)
    ensures var r := Loop(s, errors, rounds);
            && |r.log| <= |rounds|
            && (r.outcome.Ongoing? ==> |r.log| == |rounds|)
            && (r.outcome.Returned? ==> |r.log| < |rounds| && !Waits(s, errors, rounds, |r.log|).running)
    decreases |rounds|
  {
    if rounds != [] {
      var (r, errors') := Turn(s, errors, rounds[0]);
      TurnLogsOnce(s, errors, rounds[0]);
      if r.outcome.Ongoing? {
        EveryRoundIsAnswered(r.fields, errors', rounds[1..]);
        OneRoundMore(s, errors, rounds);
        var n := |Loop(r.fields, errors', rounds[1..]).log|;
        if n < |rounds[1..]| {
          WaitsShift(s, errors, rounds, n + 1);
        }
      } else {
        assert rounds[..0] == [];
      }
    }
  }

  /** Calls clear the flag if and only if a Stop is among them, and never set it. */
  lemma {:induction false} CallsStop(s: Fields, calls: seq<Call>)
    ensures ApplyAll(s, calls).running <==> s.running && STOPPED !in Seen(calls)
    decreases |calls|
  {
    if calls != [] {
      var n := |calls| - 1;
      CallsStop(s, calls[..n]);
      assert Seen(calls) == Seen(calls[..n]) + [Called(calls[n])];
    }
  }

  /** How a round leaves the flag: the end of the context clears it, the wake-up of ForceStopChan does
      not, and a tick only lets calls of Stop through, unless it is the fifth failure in a row. */
  lemma OnlyContextEndsLoop(s: Fields, errors: nat, round: Round)
    requires ApplyAll(s, round.before).running && Turn(s, errors, round).0.outcome.Ongoing?
    ensures var r := Turn(s, errors, round).0;
            && (round.wake.ContextDone? ==> !r.fields.running)
            && (round.wake.ForceStop? ==> r.fields == ApplyAll(s, round.before))
            && (round.wake.Tick? && ApplyAll(ApplyAll(s, round.before), round.wake.g1).enabled ==>
                  (r.fields.running <==>
                   STOPPED !in Seen(round.wake.g1 + round.wake.g2 + round.wake.g3 + round.wake.g4)))
            && (round.wake.Tick? && !ApplyAll(ApplyAll(s, round.before), round.wake.g1).enabled ==>
                  (r.fields.running <==> STOPPED !in Seen(round.wake.g1)))
  {
    var s0 := ApplyAll(s, round.before);
    if round.wake.Tick? {
      var g := round.wake;
      CallsStop(s0, g.g1);
      CallsStop(s0, g.g1 + g.g2 + g.g3 + g.g4);
      ApplyConcat(s0, g.g1, g.g2);
      ApplyConcat(s0, g.g1 + g.g2, g.g3);
      ApplyConcat(s0, g.g1 + g.g2 + g.g3, g.g4);
    }
  }

  /** A loop whose flag is down says nothing more and returns at its next head check. */
  lemma DownReturns(s: Fields, errors: nat, rounds: seq<Round>)
    requires !s.running && rounds != []
    ensures Loop(s, errors, rounds).outcome.Returned? && Loop(s, errors, rounds).log == []
  {
    CallsStop(s, rounds[0].before);
  }
}
