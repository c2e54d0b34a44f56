/** AntiHPAWatcher: the Start loop that lists the metrics and deletes the pod of the busiest
    container, racing with the setters and with Stop.  Scripts are as in DeploymentLoop.
 */
module AntiHpaLoop {
  import opened Common
  import opened Children
  import opened LeafCalls
  import opened LeafReports
  import opened AntiHpaTree

  /** `armed` says whether the timer will fire again: a tick disarms it, and only the end of a
      round that does not take the `continue` re-arms it. */
  datatype Fields = Fields(enabled: bool, timeout: int, running: bool, armed: bool)

  function Apply(s: Fields, call: Call): Fields {
    match call
    case SetEnabled(flag) => s.(enabled := flag)
    case SetTimeout(d) => s.(timeout := d)
    case Stop => s.(running := false)
    case _ => s
  }

  function ApplyAll(s: Fields, calls: seq<Call>): Fields {
    if calls == [] then s else Apply(ApplyAll(s, calls[..|calls| - 1]), calls[|calls| - 1])
  }

  /** In a tick, `g1` and `g2` happen before the loop reads Enabled and before it sends the delete
      request; `listing` is the answer of the metrics server. */
  datatype Wake =
    | Tick(g1: seq<Call>, listing: Option<seq<PodMetrics>>, g2: seq<Call>, ok: bool)
    | ContextDone

  datatype Round = Round(before: seq<Call>, wake: Wake)

  /** `Killed` carries the name in the delete request, empty when there was no pod to choose. */
  datatype Event = Killed(pod: string, ok: bool) | Disabled | Unlisted | Woken

  /** `Blocked`: the script asks for a tick that cannot come, the select keeps waiting. */
  datatype Outcome = Ongoing | Returned | Blocked

  type LoopReport = Report<Fields, Event, Outcome>

  /** The name in the delete request: getMostUsedPod's error is not checked, its empty string is used. */
  function Victim(listing: seq<PodMetrics>): string {
    match MostUsedPod(listing) case Ok(name) => name case Err(_) => ""
  }

  function Body(s: Fields, wake: Wake): LoopReport {
    match wake
    case ContextDone =>
      Report(s.(running := false, armed := true), Ongoing, [Woken], [Own(Rest), Own(Halt)])
    case Tick(g1, listing, g2, ok) =>
      var s1 := ApplyAll(s, g1).(armed := false);
      if !s.armed then Report(s, Blocked, [], [])
      else if !s1.enabled then Report(s1, Ongoing, [Disabled], Seen(g1) + [Own(Skip)])
      else
        var s2 := ApplyAll(s1, g2).(armed := true);
        var aimed := Seen(g1) + [Own(Aim)] + Seen(g2);
        if listing.None? then Report(s2, Ongoing, [Unlisted], aimed + [Own(Miss)])
        else Report(s2, Ongoing, [Killed(Victim(listing.value), ok)], aimed + [Own(Load)] + [Own(Act)])
  }

  lemma VictimIsBusiest(listing: seq<PodMetrics>)
    ensures VictimOf(listing, Victim(listing))
  {
    MostUsedPodNamesBusiest(listing);
  }

  /** What the loop, waiting with the fields s, logs for a wake-up: for a tick, a delete request if
      and only if the tick finds the watcher enabled and the listing comes, with the answer of that
      tick and the name of the busiest pod. */
  ghost predicate Answers(s: Fields, wake: Wake, log: seq<Event>) {
    match wake
    case ContextDone => log == [Woken]
    case Tick(g1, listing, g2, ok) =>
      if !s.armed then log == []
      else if !ApplyAll(s, g1).enabled then log == [Disabled]
      else if listing.None? then log == [Unlisted]
      else |log| == 1 && log[0].Killed? && log[0].ok == ok && VictimOf(listing.value, log[0].pod)
  }

  lemma BodyAnswers(s: Fields, wake: Wake)
    ensures Answers(s, wake, Body(s, wake).log)
  {
    if wake.Tick? && wake.listing.Some? { VictimIsBusiest(wake.listing.value); }
  }

  function Turn(s: Fields, round: Round): LoopReport {
    var s0 := ApplyAll(s, round.before);
    if !s0.running then Report(s0, Returned, [], Seen(round.before) + [Own(Leave)])
    else Body(s0, round.wake).After([], Seen(round.before) + [Own(Check)])
  }

  function Loop(s: Fields, rounds: seq<Round>): LoopReport
    decreases |rounds|
  {
    if rounds == [] then Report(s, Ongoing, [], [])
    else
      var r := Turn(s, rounds[0]);
      if r.outcome.Ongoing? then Loop(r.fields, rounds[1..]).After(r.log, r.trace) else r
  }

  function Run(s: Fields, prelude: seq<Call>, rounds: seq<Round>): LoopReport {
    Loop(ApplyAll(s, prelude).(running := true, armed := true), rounds).After([], Seen(prelude) + [Own(Begin)])
  }

  class AntiHPAWatcher {
    var enabled: bool
    var timeout: int
    var running: bool
    var timerArmed: bool
    var totalCpu: int

    ghost function Abs(): Fields
      reads this
    {
      Fields(enabled, timeout, running, timerArmed)
    }

    constructor ()
      ensures Abs() == Fields(true, 10 * MINUTE, false, false)
    {
      enabled, timeout, running, timerArmed, totalCpu := true, 10 * MINUTE, false, false, 0;
    }

    method Receive(call: Call)
      modifies this
      ensures Abs() == Apply(old(Abs()), call)
    {
      match call
      case SetEnabled(flag) => enabled := flag;
      case SetTimeout(d) => timeout := d;
      case Stop => running := false;
      case _ =>
    }

    method ReceiveAll(calls: seq<Call>)
      modifies this
      ensures Abs() == ApplyAll(old(Abs()), calls)
    {
      for i := 0 to |calls|
        invariant Abs() == ApplyAll(old(Abs()), calls[..i])
      {
        assert calls[..i + 1][..i] == calls[..i];
        Receive(calls[i]);
      }
      assert calls[..|calls|] == calls;
    }

    method Select(wake: Wake) returns (outcome: Outcome, log: seq<Event>, trace: seq<Atom>)
      modifies this
      ensures Report(Abs(), outcome, log, trace) == Body(old(Abs()), wake)
      ensures Answers(old(Abs()), wake, log)
    {
      BodyAnswers(Abs(), wake);
      outcome := Ongoing;
      match wake {
        case ContextDone =>
          running := false;
          log, trace := [Woken], [Own(Rest), Own(Halt)];
        case Tick(g1, listing, g2, ok) =>
          if !timerArmed {
            return Blocked, [], [];
          }
          ReceiveAll(g1);
          timerArmed := false;
          if !enabled {
            return Ongoing, [Disabled], Seen(g1) + [Own(Skip)];
          }
          ReceiveAll(g2);
          if listing.None? {
            log, trace := [Unlisted], Seen(g1) + [Own(Aim)] + Seen(g2) + [Own(Miss)];
          } else {
            var mostUsedPod;
            mostUsedPod, totalCpu := GetMostUsedPod(listing.value, totalCpu);
            var name := match mostUsedPod case Ok(pod) => pod case Err(_) => "";
            log := [Killed(name, ok)];
            trace := Seen(g1) + [Own(Aim)] + Seen(g2) + [Own(Load)] + [Own(Act)];
          }
      }
      timerArmed := true;
    }

    method TakeTurn(round: Round) returns (outcome: Outcome, log: seq<Event>, trace: seq<Atom>)
      modifies this
      ensures Report(Abs(), outcome, log, trace) == Turn(old(Abs()), round)
    {
      ReceiveAll(round.before);
      if !running {
        return Returned, [], Seen(round.before) + [Own(Leave)];
      }
      var atoms;
      outcome, log, atoms := Select(round.wake);
      assert log == [] + log;
      trace := (Seen(round.before) + [Own(Check)]) + atoms;
    }

    method Start(prelude: seq<Call>, rounds: seq<Round>)
      returns (outcome: Outcome, log: seq<Event>, trace: seq<Atom>)
      modifies this
      ensures Report(Abs(), outcome, log, trace) == Run(old(Abs()), prelude, rounds)
    {
      ReceiveAll(prelude);
      timerArmed, running := true, true;
      log, trace, outcome := [], Seen(prelude) + [Own(Begin)], Ongoing;
      var i := 0;
      while i < |rounds| && outcome.Ongoing?
        invariant i <= |rounds|
        invariant (if outcome.Ongoing? then Loop(Abs(), rounds[i..]).After(log, trace)
                   else Report(Abs(), outcome, log, trace)) == Run(old(Abs()), prelude, rounds)
        decreases |rounds| - i
      {
        ghost var s := Abs();
        assert rounds[i..][0] == rounds[i] && rounds[i..][1..] == rounds[i + 1..];
        var event, atoms;
        outcome, event, atoms := TakeTurn(rounds[i]);
        AfterAfter(Loop(Abs(), rounds[i + 1..]), event, atoms, log, trace);
        log, trace, i := log + event, trace + atoms, i + 1;
      }
    }
  }
}
