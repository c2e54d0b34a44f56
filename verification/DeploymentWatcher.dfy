/** DeploymentWatcher: the Start loop that rescales a deployment, racing with the setters and
    with Stop.

    A run is a script of rounds.  Every gap between two atomic actions of the loop carries the
    calls that other goroutines make there, so the scripts are the interleavings, except for calls
    between the fifth failure in a row and the return, which nothing reads any more.
 */
module DeploymentLoop {
  import opened Common
  import opened Children
  import opened LeafCalls
  import opened LeafReports

  datatype Fields = Fields(enabled: bool, minReplicas: int, maxReplicas: int, timeout: int, running: bool)

  function Apply(s: Fields, call: Call): Fields {
    match call
    case SetEnabled(flag) => s.(enabled := flag)
    case SetMinReplicas(n) => s.(minReplicas := n)
    case SetMaxReplicas(n) => s.(maxReplicas := n)
    case SetTimeout(d) => s.(timeout := d)
    case Stop => s.(running := false)
  }

  function ApplyAll(s: Fields, calls: seq<Call>): Fields {
    if calls == [] then s else Apply(ApplyAll(s, calls[..|calls| - 1]), calls[|calls| - 1])
  }

  /** What the select statement delivers.  In a tick, `g1` to `g4` happen before the loop reads
      Enabled, reads MaxReplicas, reads MinReplicas and sends the request; `draw` is the random
      source and `ok` the answer to the request. */
  datatype Wake =
    | Tick(g1: seq<Call>, g2: seq<Call>, draw: nat, g3: seq<Call>, g4: seq<Call>, ok: bool)
    | ContextDone
    | ForceStop

  /** `before` happens between the end of the previous round and the head check of this one. */
  datatype Round = Round(before: seq<Call>, wake: Wake)

  datatype Event = Scaled(replicas: int, ok: bool) | Skipped | Woken

  datatype Outcome = Ongoing | Returned | TooManyErrors | Panicked

  type LoopReport = Report<Fields, Event, Outcome>

  /** Go's conversion to int32. */
  function ToInt32(n: int): int {
    (n + 0x8000_0000) % 0x1_0000_0000 - 0x8000_0000
  }

  function Max(a: int, b: int): int { if a >= b then a else b }

  /** rng.Intn(max + 1) for a non-negative max. */
  function Draw(draw: nat, max: nat): nat { draw % (max + 1) }

  /** One round after its head check.  Intn panics on a non-positive argument. */
  function Body(s: Fields, wake: Wake): LoopReport {
    match wake
    case ContextDone => Report(s.(running := false), Ongoing, [Woken], [Own(Rest), Own(Halt)])
    case ForceStop => Report(s, Ongoing, [Woken], [Own(Rest)])
    case Tick(g1, g2, draw, g3, g4, ok) =>
      var s1 := ApplyAll(s, g1);
      if !s1.enabled then Report(s1, Ongoing, [Skipped], Seen(g1) + [Own(Skip)])
      else
        var s2 := ApplyAll(s1, g2);
        var aimed := Seen(g1) + [Own(Aim)] + Seen(g2);
        if s2.maxReplicas < 0 then Report(s2, Outcome.Panicked, [], aimed + [Own(Panic)])
        else
          var s3 := ApplyAll(s2, g3);
          var replicas := Max(Draw(draw, s2.maxReplicas), s3.minReplicas);
          Report(ApplyAll(s3, g4), Ongoing, [Scaled(ToInt32(replicas), ok)],
                 aimed + [Own(Load)] + Seen(g3 + g4) + [Own(Act)])
  }

  function CountErrors(errors: nat, log: seq<Event>): nat {
    if |log| == 0 then errors
    else match log[0]
      case Scaled(_, ok) => if ok then 0 else errors + 1
      case _ => errors
  }

  /** One turn of the loop with the error count after it. */
  function Turn(s: Fields, errors: nat, round: Round): (LoopReport, nat) {
    var s0 := ApplyAll(s, round.before);
    if !s0.running then (Report(s0, Returned, [], Seen(round.before) + [Own(Leave)]), errors)
    else
      var r := Body(s0, round.wake).After([], Seen(round.before) + [Own(Check)]);
      var errors' := CountErrors(errors, r.log);
      if errors' >= 5 && r.outcome.Ongoing? then
        (Report(r.fields.(running := false), TooManyErrors, r.log, r.trace + [Own(Halt), Own(Leave)]), errors')
      else (r, errors')
  }

  /** The loop from its head; the script may end anywhere, which leaves the loop ongoing. */
  function Loop(s: Fields, errors: nat, rounds: seq<Round>): LoopReport
    decreases |rounds|
  {
    if rounds == [] then Report(s, Ongoing, [], [])
    else
      var (r, errors') := Turn(s, errors, rounds[0]);
      if r.outcome.Ongoing? then Loop(r.fields, errors', rounds[1..]).After(r.log, r.trace) else r
  }

  /** Start: `prelude` happens before setRunning(true), which overwrites a Stop among it. */
  function Run(s: Fields, prelude: seq<Call>, rounds: seq<Round>): LoopReport {
    Loop(ApplyAll(s, prelude).(running := true), 0, rounds).After([], Seen(prelude) + [Own(Begin)])
  }

  class DeploymentWatcher {
    var enabled: bool
    var minReplicas: int
    var maxReplicas: int
    var timeout: int
    var running: bool

    ghost function Abs(): Fields
      reads this
    {
      Fields(enabled, minReplicas, maxReplicas, timeout, running)
    }

    constructor ()
      ensures Abs() == Fields(false, 0, 0, 0, false)
    {
      enabled, minReplicas, maxReplicas, timeout, running := false, 0, 0, 0, false;
    }

    /** One call from another goroutine. */
    method Receive(call: Call)
      modifies this
      ensures Abs() == Apply(old(Abs()), call)
    {
      match call
      case SetEnabled(flag) => enabled := flag;
      case SetMinReplicas(n) => minReplicas := n;
      case SetMaxReplicas(n) => maxReplicas := n;
      case SetTimeout(d) => timeout := d;
      case Stop => running := false;
    }

    method ReceiveAll(calls: seq<Call>)
      modifies this
      ensures Abs() == ApplyAll(old(Abs()), calls)
    {
      for i := 0 to |calls|
        invariant Abs() == ApplyAll(old(Abs()), calls[..i])
      {
        assert calls[..i + 1][..i] == calls[..i];
        Receive(calls[i]);
      }
      assert calls[..|calls|] == calls;
    }

    /** The select statement of one round: its events, and whether Intn panicked. */
    method Select(wake: Wake) returns (log: seq<Event>, trace: seq<Atom>, panicked: bool)
      modifies this
      ensures Report(Abs(), if panicked then Outcome.Panicked else Ongoing, log, trace) == Body(old(Abs()), wake)
    {
      panicked := false;
      match wake
      case ContextDone =>
        running := false;
        log, trace := [Woken], [Own(Rest), Own(Halt)];
      case ForceStop =>
        log, trace := [Woken], [Own(Rest)];
      case Tick(g1, g2, draw, g3, g4, ok) =>
        ReceiveAll(g1);
        if !enabled {
          return [Skipped], Seen(g1) + [Own(Skip)], false;
        }
        ReceiveAll(g2);
        var max := maxReplicas;
        if max < 0 {
          return [], Seen(g1) + [Own(Aim)] + Seen(g2) + [Own(Panic)], true;
        }
        ReceiveAll(g3);
        var replicas := Max(Draw(draw, max), minReplicas);
        ReceiveAll(g4);
        log := [Scaled(ToInt32(replicas), ok)];
        trace := Seen(g1) + [Own(Aim)] + Seen(g2) + [Own(Load)] + Seen(g3 + g4) + [Own(Act)];
    }

    /** One turn of the loop of Start. */
    method TakeTurn(errors: nat, round: Round)
      returns (outcome: Outcome, log: seq<Event>, trace: seq<Atom>, errors': nat)
      modifies this
      ensures (Report(Abs(), outcome, log, trace), errors') == Turn(old(Abs()), errors, round)
    {
      ReceiveAll(round.before);
      if !running {
        return Returned, [], Seen(round.before) + [Own(Leave)], errors;
      }
      var atoms, panicked;
      log, atoms, panicked := Select(round.wake);
      assert log == [] + log;
      trace := (Seen(round.before) + [Own(Check)]) + atoms;
      errors' := CountErrors(errors, log);
      outcome := if panicked then Outcome.Panicked else Ongoing;
      if errors' >= 5 && !panicked {
        running := false;
        outcome, trace := TooManyErrors, trace + [Own(Halt), Own(Leave)];
      }
    }

    method Start(prelude: seq<Call>, rounds: seq<Round>)
      returns (outcome: Outcome, log: seq<Event>, trace: seq<Atom>)
      modifies this
      ensures Report(Abs(), outcome, log, trace) == Run(old(Abs()), prelude, rounds)
    {
      ReceiveAll(prelude);
      running := true;
      log, trace, outcome := [], Seen(prelude) + [Own(Begin)], Ongoing;
      var consecutiveErrors: nat := 0;
      var i := 0;
      while i < |rounds| && outcome.Ongoing?
        invariant i <= |rounds|
        invariant (if outcome.Ongoing? then Loop(Abs(), consecutiveErrors, rounds[i..]).After(log, trace)
                   else Report(Abs(), outcome, log, trace)) == Run(old(Abs()), prelude, rounds)
        decreases |rounds| - i
      {
        ghost var s, errors := Abs(), consecutiveErrors;
        assert rounds[i..][0] == rounds[i] && rounds[i..][1..] == rounds[i + 1..];
        var event, atoms;
        outcome, event, atoms, consecutiveErrors := TakeTurn(consecutiveErrors, rounds[i]);
        AfterAfter(Loop(Abs(), consecutiveErrors, rounds[i + 1..]), event, atoms, log, trace);
        log, trace, i := log + event, trace + atoms, i + 1;
      }
    }
  }
}
