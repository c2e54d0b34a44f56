/** PodWatcher: the Start loop that keeps a list of pods and deletes one of them at random,
    racing with the setters and with Stop.  Scripts are as in DeploymentLoop.
 */
module PodLoop {
  import opened Common
  import opened Children
  import opened LeafCalls
  import opened LeafReports

  /** A pod object; two objects can carry the same name. */
  datatype Pod = Pod(name: string, uid: string)

  /** `failed` is the error variable that Start finally returns. */
  datatype Fields = Fields(
    enabled: bool, timeout: int, running: bool, failed: bool,
    podList: seq<Pod>, podsAdded: nat, podsRemoved: nat, podsActive: nat)

  /** The replica setters do nothing here. */
  function Apply(s: Fields, call: Call): Fields {
    match call
    case SetEnabled(flag) => s.(enabled := flag)
    case SetTimeout(d) => s.(timeout := d)
    case Stop => s.(running := false)
    case _ => s
  }

  function ApplyAll(s: Fields, calls: seq<Call>): Fields {
    if calls == [] then s else Apply(ApplyAll(s, calls[..|calls| - 1]), calls[|calls| - 1])
  }

  /** The pods with another name, in order. */
  function Without(pods: seq<Pod>, name: string): seq<Pod> {
    if pods == [] then []
    else Without(pods[..|pods| - 1], name) + (if pods[|pods| - 1].name == name then [] else [pods[|pods| - 1]])
  }

  /** `rest` is what is left of `pods` at the positions `kept`: exactly those of the pods with
      another name, in ascending order. */
  ghost predicate Filtered(pods: seq<Pod>, rest: seq<Pod>, name: string, kept: seq<nat>) {
    && |kept| == |rest|
    && (forall k :: 0 <= k < |kept| ==> kept[k] < |pods| && rest[k] == pods[kept[k]])
    && (forall k, l :: 0 <= k < l < |kept| ==> kept[k] < kept[l])
    && (forall i {:trigger i in kept} :: 0 <= i < |pods| ==> (i in kept <==> pods[i].name != name))
  }

  ghost predicate FilteredByName(pods: seq<Pod>, rest: seq<Pod>, name: string) {
    exists kept :: Filtered(pods, rest, name, kept)
  }

  lemma FilteredNext(pods: seq<Pod>, rest: seq<Pod>, name: string, kept: seq<nat>, i: nat)
    requires i < |pods| && Filtered(pods[..i], rest, name, kept)
    ensures pods[i].name == name ==> Filtered(pods[..i + 1], rest, name, kept)
    ensures pods[i].name != name ==> Filtered(pods[..i + 1], rest + [pods[i]], name, kept + [i])
  {
    assert forall k :: 0 <= k < |kept| ==> kept[k] < i;
    forall j | 0 <= j <= i ensures j in kept + [i] <==> j in kept || j == i {}
  }

  lemma LastFiltered(pods: seq<Pod>, rest: seq<Pod>, name: string, kept: seq<nat>)
    requires Filtered(pods, rest, name, kept) && pods != [] && pods[|pods| - 1].name != name
    ensures kept != [] && kept[|kept| - 1] == |pods| - 1
  {
    assert |pods| - 1 in kept;
    var at :| 0 <= at < |kept| && kept[at] == |pods| - 1;
    assert kept[at] <= kept[|kept| - 1];
  }

  /** The filter without the last pod. */
  lemma FilteredBefore(pods: seq<Pod>, rest: seq<Pod>, name: string, kept: seq<nat>)
    requires Filtered(pods, rest, name, kept) && pods != [] && pods[|pods| - 1].name != name
    ensures |rest| == |kept| > 0 && rest == rest[..|rest| - 1] + [pods[|pods| - 1]]
    ensures Filtered(pods[..|pods| - 1], rest[..|rest| - 1], name, kept[..|kept| - 1])
  {
    LastFiltered(pods, rest, name, kept);
    var n, m := |pods| - 1, |kept| - 1;
    assert kept == kept[..m] + [n];
    forall k | 0 <= k < m ensures kept[..m][k] < n && rest[..m][k] == pods[..n][kept[..m][k]] {
      assert kept[k] < kept[m];
    }
    forall i | 0 <= i < n ensures i in kept[..m] <==> pods[..n][i].name != name {
      assert i in kept <==> i in kept[..m];
    }
  }

  lemma FilteredShorter(pods: seq<Pod>, rest: seq<Pod>, name: string, kept: seq<nat>)
    requires Filtered(pods, rest, name, kept) && pods != [] && pods[|pods| - 1].name == name
    ensures Filtered(pods[..|pods| - 1], rest, name, kept)
  {
    assert |pods| - 1 !in kept;
    forall k | 0 <= k < |kept| ensures kept[k] < |pods| - 1 { assert kept[k] in kept; }
  }

  /** Only one sequence is left over in this way. */
  lemma {:induction false} FilteredIsWithout(pods: seq<Pod>, rest: seq<Pod>, name: string, kept: seq<nat>)
    requires Filtered(pods, rest, name, kept)
    ensures rest == Without(pods, name)
    decreases |pods|
  {
    assert kept != [] ==> kept[0] < |pods|;
    if pods != [] {
      var n := |pods| - 1;
      if pods[n].name == name {
        FilteredShorter(pods, rest, name, kept);
        FilteredIsWithout(pods[..n], rest, name, kept);
      } else {
        FilteredBefore(pods, rest, name, kept);
        FilteredIsWithout(pods[..n], rest[..|rest| - 1], name, kept[..|kept| - 1]);
      }
    }
  }

  /** slices.DeleteFunc with a comparison of names: one pass over the list. */
  method DeleteByName(pods: seq<Pod>, name: string) returns (rest: seq<Pod>)
    ensures FilteredByName(pods, rest, name)
    ensures rest == Without(pods, name)
  {
    rest := [];
    ghost var kept: seq<nat> := [];
    for i := 0 to |pods|
      invariant Filtered(pods[..i], rest, name, kept)
    {
      FilteredNext(pods, rest, name, kept, i);
      if pods[i].name != name {
        rest, kept := rest + [pods[i]], kept + [i];
      }
    }
    assert pods[..|pods|] == pods;
    FilteredIsWithout(pods, rest, name, kept);
  }

  /** What the select statement delivers.  In a tick, `g1` and `g2` happen before the loop reads
      Enabled and before it sends the delete request; `pick` is the random source. */
  datatype Wake =
    | Added(pod: Pod) | Deleted(pod: Pod) | OtherEvent | ErrorEvent
    | WatchClosed(reopened: bool)
    | ContextDone
    | Tick(g1: seq<Call>, g2: seq<Call>, pick: nat, ok: bool)
    | ForceStop

  datatype Round = Round(before: seq<Call>, wake: Wake)

  datatype Event = Listed(pod: Pod) | Dropped(name: string) | Cleared | Killed(victim: Pod, ok: bool) | Idle

  datatype Outcome = Ongoing | Returned

  type LoopReport = Report<Fields, Event, Outcome>

  function Add(s: Fields, pod: Pod): Fields {
    s.(podList := s.podList + [pod], podsAdded := s.podsAdded + 1, podsActive := |s.podList| + 1)
  }

  function Remove(s: Fields, pod: Pod): Fields {
    var rest := Without(s.podList, pod.name);
    s.(podList := rest, podsRemoved := s.podsRemoved + 1, podsActive := |rest|)
  }

  function Body(s: Fields, wake: Wake): LoopReport {
    match wake
    case Added(pod) => Report(Add(s, pod), Ongoing, [Listed(pod)], [Own(Stock(true))])
    case Deleted(pod) =>
      var s' := Remove(s, pod);
      Report(s', Ongoing, [Dropped(pod.name)], [Own(Stock(s'.podList != []))])
    case OtherEvent => Report(s, Ongoing, [Idle], [Own(Rest)])
    case ErrorEvent => Report(s.(running := false, failed := true), Ongoing, [Idle], [Own(Rest), Own(Halt)])
    case WatchClosed(reopened) =>
      if reopened then Report(s.(podList := [], failed := false), Ongoing, [Event.Cleared], [Own(Stock(false))])
      else
        Report(s.(podList := [], failed := true, running := false), Ongoing, [Event.Cleared],
               [Own(Stock(false)), Own(Halt)])
    case ContextDone => Report(s.(running := false), Ongoing, [Idle], [Own(Rest), Own(Halt)])
    case ForceStop => Report(s, Ongoing, [Idle], [Own(Rest)])
    case Tick(g1, g2, pick, ok) =>
      var s1 := ApplyAll(s, g1);
      if !s1.enabled then Report(s1, Ongoing, [Idle], Seen(g1) + [Own(Skip)])
      else
        var s2 := ApplyAll(s1, g2);
        var aimed := Seen(g1) + [Own(Aim)] + Seen(g2);
        if s2.podList == [] then Report(s2, Ongoing, [Idle], aimed + [Own(Miss)])
        else
          Report(s2, Ongoing, [Killed(s2.podList[pick % |s2.podList|], ok)], aimed + [Own(Load)] + [Own(Act)])
  }

  function Turn(s: Fields, round: Round): LoopReport {
    var s0 := ApplyAll(s, round.before);
    if !s0.running then Report(s0, Returned, [], Seen(round.before) + [Own(Leave)])
    else Body(s0, round.wake).After([], Seen(round.before) + [Own(Check)])
  }

  function Loop(s: Fields, rounds: seq<Round>): LoopReport
    decreases |rounds|
  {
    if rounds == [] then Report(s, Ongoing, [], [])
    else
      var r := Turn(s, rounds[0]);
      if r.outcome.Ongoing? then Loop(r.fields, rounds[1..]).After(r.log, r.trace) else r
  }

  /** Start; a failed first Watch returns before Running is ever set. */
  function Run(s: Fields, prelude: seq<Call>, watching: bool, rounds: seq<Round>): LoopReport {
    var s1 := ApplyAll(s, prelude);
    if !watching then Report(s1.(failed := true), Returned, [], Seen(prelude) + [Own(FailOpen)])
    else Loop(s1.(running := true), rounds).After([], Seen(prelude) + [Own(Begin)])
  }

  class PodWatcher {
    var enabled: bool
    var timeout: int
    var running: bool
    var failed: bool
    var podList: seq<Pod>
    var podsAdded: nat
    var podsRemoved: nat
    var podsActive: nat

    ghost function Abs(): Fields
      reads this
    {
      Fields(enabled, timeout, running, failed, podList, podsAdded, podsRemoved, podsActive)
    }

    constructor ()
      ensures Abs() == Fields(true, 30 * SECOND, false, false, [], 0, 0, 0)
    {
      enabled, timeout, running, failed := true, 30 * SECOND, false, false;
      podList, podsAdded, podsRemoved, podsActive := [], 0, 0, 0;
    }

    method Receive(call: Call)
      modifies this
      ensures Abs() == Apply(old(Abs()), call)
    {
      match call
      case SetEnabled(flag) => enabled := flag;
      case SetTimeout(d) => timeout := d;
      case Stop => running := false;
      case _ =>
    }

    method ReceiveAll(calls: seq<Call>)
      modifies this
      ensures Abs() == ApplyAll(old(Abs()), calls)
    {
      for i := 0 to |calls|
        invariant Abs() == ApplyAll(old(Abs()), calls[..i])
      {
        assert calls[..i + 1][..i] == calls[..i];
        Receive(calls[i]);
      }
      assert calls[..|calls|] == calls;
    }

    method AddPodToList(pod: Pod)
      modifies this
      ensures Abs() == Add(old(Abs()), pod)
    {
      podList := podList + [pod];
      podsAdded := podsAdded + 1;
      podsActive := |podList|;
    }

    /** What stays in the list is every pod with another name, as often as before and in the same
        order, and nothing else. */
    method RemovePodFromList(pod: Pod)
      modifies this
      ensures FilteredByName(old(podList), podList, pod.name)
      ensures Abs() == Remove(old(Abs()), pod)
    {
      podList := DeleteByName(podList, pod.name);
      podsRemoved := podsRemoved + 1;
      podsActive := |podList|;
    }

    method GetRandomPod(pick: nat) returns (r: Option<Pod>)
      ensures r.None? <==> podList == []
      ensures r.Some? ==> r.value in podList && r.value == podList[pick % |podList|]
    {
      r := if |podList| == 0 then None else Some(podList[pick % |podList|]);
    }

    /** The list is emptied whether or not the new watch can be opened; the gauge is left alone. */
    method RestartWatch()
      modifies this
      ensures Abs() == old(Abs()).(podList := [])
    {
      podList := [];
    }

    method Select(wake: Wake) returns (log: seq<Event>, trace: seq<Atom>)
      modifies this
      ensures Report(Abs(), Ongoing, log, trace) == Body(old(Abs()), wake)
    {
      log, trace := [Idle], [Own(Rest)];
      match wake
      case Added(pod) =>
        AddPodToList(pod);
        log, trace := [Listed(pod)], [Own(Stock(true))];
      case Deleted(pod) =>
        RemovePodFromList(pod);
        log, trace := [Dropped(pod.name)], [Own(Stock(podList != []))];
      case OtherEvent =>
      case ErrorEvent =>
        failed, running, trace := true, false, [Own(Rest), Own(Halt)];
      case WatchClosed(reopened) =>
        RestartWatch();
        failed, log, trace := !reopened, [Event.Cleared], [Own(Stock(false))];
        if failed {
          running, trace := false, [Own(Stock(false)), Own(Halt)];
        }
      case ContextDone =>
        running, trace := false, [Own(Rest), Own(Halt)];
      case ForceStop =>
      case Tick(g1, g2, pick, ok) =>
        ReceiveAll(g1);
        if !enabled {
          return [Idle], Seen(g1) + [Own(Skip)];
        }
        ReceiveAll(g2);
        var victim := GetRandomPod(pick);
        if victim.None? {
          return [Idle], Seen(g1) + [Own(Aim)] + Seen(g2) + [Own(Miss)];
        }
        log := [Killed(victim.value, ok)];
        trace := Seen(g1) + [Own(Aim)] + Seen(g2) + [Own(Load)] + [Own(Act)];
    }

    method TakeTurn(round: Round) returns (outcome: Outcome, log: seq<Event>, trace: seq<Atom>)
      modifies this
      ensures Report(Abs(), outcome, log, trace) == Turn(old(Abs()), round)
    {
      ReceiveAll(round.before);
      if !running {
        return Returned, [], Seen(round.before) + [Own(Leave)];
      }
      var atoms;
      log, atoms := Select(round.wake);
      assert log == [] + log;
      outcome, trace := Ongoing, (Seen(round.before) + [Own(Check)]) + atoms;
    }

    method Start(prelude: seq<Call>, watching: bool, rounds: seq<Round>)
      returns (outcome: Outcome, log: seq<Event>, trace: seq<Atom>)
      modifies this
      ensures Report(Abs(), outcome, log, trace) == Run(old(Abs()), prelude, watching, rounds)
    {
      ReceiveAll(prelude);
      if !watching {
        failed := true;
        return Returned, [], Seen(prelude) + [Own(FailOpen)];
      }
      running := true;
      log, trace, outcome := [], Seen(prelude) + [Own(Begin)], Ongoing;
      var i := 0;
      while i < |rounds| && outcome.Ongoing?
        invariant i <= |rounds|
        invariant (if outcome.Ongoing? then Loop(Abs(), rounds[i..]).After(log, trace)
                   else Report(Abs(), outcome, log, trace)) == Run(old(Abs()), prelude, watching, rounds)
        decreases |rounds| - i
      {
        ghost var s := Abs();
        assert rounds[i..][0] == rounds[i] && rounds[i..][1..] == rounds[i + 1..];
        var event, atoms;
        outcome, event, atoms := TakeTurn(rounds[i]);
        AfterAfter(Loop(Abs(), rounds[i + 1..]), event, atoms, log, trace);
        log, trace, i := log + event, trace + atoms, i + 1;
      }
    }
  }
}
