/** The calls that a ConfigurableWatcher receives from other goroutines, and how they show in the
    trace of its automaton.
 */
module LeafCalls {
  import opened Common
  import opened Children

  function Seen(calls: seq<Call>): seq<Atom> {
    seq(|calls|, i requires 0 <= i < |calls| => Called(calls[i]))
  }

  lemma SeenConcat(a: seq<Call>, b: seq<Call>)
    ensures Seen(a + b) == Seen(a) + Seen(b)
  {
  }

  /** What a run of calls makes of a leaf. */
  function CallAll(c: Child, calls: seq<Call>): Child {
    if calls == [] then c else CallChild(CallAll(c, calls[..|calls| - 1]), calls[|calls| - 1])
  }

  lemma {:induction false} CallsReplay(c: Child, calls: seq<Call>)
    ensures Replay(c, Seen(calls)) == Some(CallAll(c, calls))
    ensures var d := CallAll(c, calls);
            && d.phase == c.phase && d.stage == c.stage && d.kind == c.kind && d.ready == c.ready
    decreases |calls|
  {
    if calls != [] {
      var n := |calls| - 1;
      CallsReplay(c, calls[..n]);
      assert Seen(calls) == Seen(calls[..n]) + [Called(calls[n])];
      ReplayConcat(c, Seen(calls[..n]), [Called(calls[n])]);
      assert [Called(calls[n])][1..] == [];
      assert Replay(CallAll(c, calls[..n]), [Called(calls[n])]) == Replay(CallAll(c, calls), []);
    }
  }

  lemma ReplayOwn(c: Child, before: seq<Atom>, m: Move)
    requires Replay(c, before).Some? && CanMove(Replay(c, before).value, m)
    ensures Replay(c, before + [Own(m)]) == Some(MoveChild(Replay(c, before).value, m))
  {
    ReplayConcat(c, before, [Own(m)]);
    assert [Own(m)][1..] == [];
    assert Replay(MoveChild(Replay(c, before).value, m), []).Some?;
  }

  lemma ReplayCalls(c: Child, before: seq<Atom>, calls: seq<Call>)
    requires Replay(c, before).Some?
    ensures Replay(c, before + Seen(calls)) == Some(CallAll(Replay(c, before).value, calls))
  {
    ReplayConcat(c, before, Seen(calls));
    CallsReplay(Replay(c, before).value, calls);
  }

  lemma {:induction false} ActsConcat(a: seq<Atom>, b: seq<Atom>)
    ensures Acts(a + b) == Acts(a) + Acts(b)
    decreases |a|
  {
    if a == [] {
      assert a + b == b;
    } else {
      assert (a + b)[1..] == a[1..] + b;
      ActsConcat(a[1..], b);
    }
  }

  lemma {:induction false} CallsNeverAct(calls: seq<Call>)
    ensures Acts(Seen(calls)) == 0
    decreases |calls|
  {
    if calls != [] {
      assert Seen(calls)[1..] == Seen(calls[1..]);
      CallsNeverAct(calls[1..]);
    }
  }

  /** Calls and then one move. */
  lemma ActsOfStretch(before: seq<Atom>, calls: seq<Call>, m: Move)
    ensures Acts(before + Seen(calls) + [Own(m)]) == Acts(before) + (if m == Act then 1 else 0)
  {
    CallsNeverAct(calls);
    ActsConcat(before, Seen(calls));
    ActsConcat(before + Seen(calls), [Own(m)]);
  }

  /** A turn in two parts: what the head check adds is no disruption. */
  lemma HeadActs(before: seq<Call>, rest: seq<Atom>)
    ensures Acts(Seen(before) + [Own(Leave)]) == 0
    ensures Acts(Seen(before) + [Own(Check)] + rest) == Acts(rest)
  {
    CallsNeverAct(before);
    ActsConcat(Seen(before), [Own(Check)]);
    ActsConcat(Seen(before), [Own(Leave)]);
    ActsConcat(Seen(before) + [Own(Check)], rest);
  }

  // ---- Settings as the calls leave them ----

  function SettingsAfter(kind: Kind, s: Settings, calls: seq<Call>): Settings {
    if calls == [] then s else Tuned(kind, SettingsAfter(kind, s, calls[..|calls| - 1]), calls[|calls| - 1])
  }

  /** The calls that a trace shows. */
  function Heard(trace: seq<Atom>): seq<Call> {
    if trace == [] then []
    else Heard(trace[..|trace| - 1]) + (if trace[|trace| - 1].Called? then [trace[|trace| - 1].call] else [])
  }

  /** Nothing but the calls it hears changes the settings of a leaf. */
  lemma {:induction false} SettingsAreHeard(c: Child, trace: seq<Atom>)
    requires Replay(c, trace).Some?
    ensures Replay(c, trace).value.kind == c.kind
    ensures Replay(c, trace).value.settings == SettingsAfter(c.kind, c.settings, Heard(trace))
    decreases |trace|
  {
    if trace != [] {
      var n := |trace| - 1;
      assert trace == trace[..n] + [trace[n]];
      ReplayConcat(c, trace[..n], [trace[n]]);
      SettingsAreHeard(c, trace[..n]);
      OneAtomTunes(Replay(c, trace[..n]).value, trace[n]);
      HeardNext(trace[..n], trace[n]);
      if trace[n].Called? {
        SettingsAfterNext(c.kind, c.settings, Heard(trace[..n]), trace[n].call);
      }
    }
  }

  lemma HeardNext(trace: seq<Atom>, a: Atom)
    ensures Heard(trace + [a]) == if a.Called? then Heard(trace) + [a.call] else Heard(trace)
  {
    assert (trace + [a])[..|trace|] == trace;
  }

  lemma SettingsAfterNext(kind: Kind, s: Settings, calls: seq<Call>, call: Call)
    ensures SettingsAfter(kind, s, calls + [call]) == Tuned(kind, SettingsAfter(kind, s, calls), call)
  {
    assert (calls + [call])[..|calls|] == calls;
  }

  lemma OneAtomTunes(c: Child, a: Atom)
    requires Replay(c, [a]).Some?
    ensures var d := Replay(c, [a]).value;
            d.kind == c.kind && d.settings == if a.Called? then Tuned(c.kind, c.settings, a.call) else c.settings
  {
    assert [a][1..] == [];
  }

  /** A leaf that has begun is running if and only if it was and has seen neither a Stop nor a Halt. */
  lemma {:induction false} RunningUntilEnded(c: Child, trace: seq<Atom>)
    requires c.Begun() && Replay(c, trace).Some?
    ensures Replay(c, trace).value.running <==> c.running && STOPPED !in trace && Own(Halt) !in trace
    decreases |trace|
  {
    if trace != [] {
      assert trace == [trace[0]] + trace[1..];
      match trace[0] {
        case Own(m) => RunningUntilEnded(MoveChild(c, m), trace[1..]);
        case Launched =>
        case Called(call) => RunningUntilEnded(CallChild(c, call), trace[1..]);
      }
    }
  }
}
