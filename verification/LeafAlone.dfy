/** What a leaf can still do when nobody calls it any more. */
module LeafAlone {
  import opened Common
  import opened Children
  import opened LeafCalls

  /** A trace of moves of the leaf itself: no launch and no call. */
  predicate Alone(trace: seq<Atom>) {
    forall k :: 0 <= k < |trace| ==> trace[k].Own?
  }

  /** A disruption is still to come.  At its head check the leaf must be running, its settings must
      allow a request and its timer must be able to fire; once in the select statement it need not be
      running, unless it has yet to see a pod; past the check of Enabled only what the request needs
      matters; and about to send it, nothing does. */
  predicate Loaded(c: Child) {
    match c.phase
    case Spawned => Willing(c)
    case Looping =>
      (match c.stage
       case AtHead => c.running && Willing(c) && CanTick(c)
       case Waiting => Willing(c) && CanTick(c) && (CanLoad(c) || c.running)
       case Cleared => CanLoad(c) || (c.kind.Pod? && c.running && Willing(c))
       case Firing => true
       case Panicked => false)
    case _ => false
  }

  /** Disruptions without end are still to come. */
  predicate Rampant(c: Child) {
    && Willing(c)
    && (c.phase.Spawned? || (c.phase.Looping? && c.running && !c.stage.Panicked? && CanTick(c)))
  }

  // ---- Upper bounds ----

  lemma MoveKeepsUnloaded(c: Child, m: Move)
    requires CanMove(c, m) && !Loaded(c)
    ensures m != Act && !Loaded(MoveChild(c, m))
  {
  }

  lemma MoveKeepsTame(c: Child, m: Move)
    requires CanMove(c, m) && !Rampant(c)
    ensures !Rampant(MoveChild(c, m))
    ensures m == Act ==> !Loaded(MoveChild(c, m))
  {
  }

  lemma {:induction false} UnloadedIsHarmless(c: Child, trace: seq<Atom>)
    requires !Loaded(c) && Alone(trace) && Replay(c, trace).Some?
    ensures Acts(trace) == 0
    decreases |trace|
  {
    if trace != [] {
      MoveKeepsUnloaded(c, trace[0].move);
      UnloadedIsHarmless(MoveChild(c, trace[0].move), trace[1..]);
    }
  }

  lemma {:induction false} TameDisruptsOnce(c: Child, trace: seq<Atom>)
    requires !Rampant(c) && Alone(trace) && Replay(c, trace).Some?
    ensures Acts(trace) <= 1
    decreases |trace|
  {
    if trace != [] {
      var d := MoveChild(c, trace[0].move);
      MoveKeepsTame(c, trace[0].move);
      if trace[0] == Own(Act) { UnloadedIsHarmless(d, trace[1..]); } else { TameDisruptsOnce(d, trace[1..]); }
    }
  }

  // ---- Witnesses ----

  lemma VolleysAreAlone(n: nat)
    ensures Alone(Volleys(n))
  {
    if n > 0 { VolleysAreAlone(n - 1); }
  }

  lemma RampageIsAlone(kind: Kind, ready: bool, n: nat)
    ensures Alone(Rampage(kind, ready, n))
  {
    VolleysAreAlone(n);
  }

  /** How the round that a leaf is in can end. */
  function RestOfRound(c: Child): seq<Atom> {
    match c.stage
    case Waiting => [Own(Rest)]
    case Cleared => if CanLoad(c) then [Own(Load)] + [Own(Act)] else [Own(Miss)]
    case Firing => [Own(Act)]
    case _ => []
  }

  lemma RestOfRoundReplays(c: Child)
    requires c.phase.Looping? && Rampant(c)
    ensures Replay(c, RestOfRound(c)).Some? && AtLarge(Replay(c, RestOfRound(c)).value)
    ensures Replay(c, RestOfRound(c)).value.kind == c.kind && Alone(RestOfRound(c))
  {
    match c.stage
    case Waiting => OneMove(c, Rest);
    case Cleared =>
      if CanLoad(c) {
        ReplayCons(c, Load, [Own(Act)]);
        OneMove(MoveChild(c, Load), Act);
      } else {
        OneMove(c, Miss);
      }
    case Firing => OneMove(c, Act);
    case AtHead =>
  }

  lemma OneMove(c: Child, m: Move)
    requires CanMove(c, m)
    ensures Replay(c, [Own(m)]) == Some(MoveChild(c, m))
  {
    ReplayCons(c, m, []);
    assert [Own(m)] + [] == [Own(m)];
  }

  /** A rampant leaf disrupts at least n more times, for every n, and goes on running. */
  lemma RampantDisrupts(c: Child, n: nat) returns (trace: seq<Atom>)
    requires Rampant(c)
    ensures Alone(trace) && Replay(c, trace).Some? && Replay(c, trace).value.running && Acts(trace) >= n
  {
    if c.phase.Spawned? {
      OutbreakReplays(c, n);
      RampageIsAlone(c.kind, c.ready, n);
      return Outbreak(c, n);
    }
    RestOfRoundReplays(c);
    var d := Replay(c, RestOfRound(c)).value;
    var more := Rampage(d.kind, d.ready, n);
    RampageReplays(d, n);
    ActsOfRampage(d.kind, d.ready, n);
    RampageIsAlone(d.kind, d.ready, n);
    ReplayConcat(c, RestOfRound(c), more);
    ActsConcat(RestOfRound(c), more);
    trace := RestOfRound(c) + more;
  }

  /** A leaf that is loaded but tame has one shot left. */
  function LastShot(c: Child): seq<Atom> {
    match c.stage
    case Waiting => [Own(Aim)] + ([Own(Load)] + [Own(Act)])
    case Cleared => [Own(Load)] + [Own(Act)]
    case _ => [Own(Act)]
  }

  lemma LastShotReplays(c: Child)
    requires Loaded(c) && !Rampant(c)
    ensures Alone(LastShot(c)) && Replay(c, LastShot(c)).Some? && Acts(LastShot(c)) == 1
  {
    ActsOfCons(Own(Act), []);
    ActsOfCons(Own(Load), [Own(Act)]);
    ActsOfCons(Own(Aim), [Own(Load)] + [Own(Act)]);
    assert [Own(Act)] + [] == [Own(Act)];
    match c.stage
    case Waiting =>
      var d := MoveChild(c, Aim);
      ReplayCons(c, Aim, [Own(Load)] + [Own(Act)]);
      ReplayCons(d, Load, [Own(Act)]);
      OneMove(MoveChild(d, Load), Act);
    case Cleared =>
      ReplayCons(c, Load, [Own(Act)]);
      OneMove(MoveChild(c, Load), Act);
    case Firing => OneMove(c, Act);
  }

  /** Some trace of its own holds at least n disruptions. */
  ghost predicate CanAct(c: Child, n: nat) {
    exists trace :: Alone(trace) && Replay(c, trace).Some? && Acts(trace) >= n
  }

  /** Left alone, a leaf disrupts again if and only if it is loaded. */
  lemma DisruptsIffLoaded(c: Child)
    ensures CanAct(c, 1) <==> Loaded(c)
  {
    if !Loaded(c) {
      forall trace | Alone(trace) && Replay(c, trace).Some? ensures Acts(trace) == 0 { UnloadedIsHarmless(c, trace); }
    } else if Rampant(c) {
      var trace := RampantDisrupts(c, 1);
    } else {
      LastShotReplays(c);
    }
  }

  /** Left alone, it disrupts without bound if and only if it is rampant, and otherwise at most
      once. */
  lemma DisruptsForeverIffRampant(c: Child)
    ensures (forall n: nat :: CanAct(c, n)) <==> Rampant(c)
    ensures !Rampant(c) ==> !CanAct(c, 2)
  {
    if Rampant(c) {
      forall n: nat ensures CanAct(c, n) { var trace := RampantDisrupts(c, n); }
    } else {
      forall trace | Alone(trace) && Replay(c, trace).Some? ensures Acts(trace) <= 1 { TameDisruptsOnce(c, trace); }
      assert !CanAct(c, 2);
    }
  }
}
