/** The leaf watchers (PodWatcher, DeploymentWatcher, AntiHPAWatcher) as a CrdWatcher sees
    them: one goroutine automaton whose moves the three Start loops refine.

    A leaf leaves the map of its CrdWatcher at most once, either because Stop was called on it
    or because cleanUp found it not running.  `mark` records which, and whether that happened
    before the leaf had executed its own setRunning(true).
 */
module Children {
  import opened Common

  const KILL_POD := "killPod"
  const RANDOM_SCALE := "randomScale"
  const ANTI_PRESSURE := "antiPressure"

  const SECOND: int := 1_000_000_000
  const MINUTE: int := 60 * SECOND

  datatype Kind = Pod | Deployment | AntiHpa

  /** The scaling modes that addWatcher and modifyWatcher accept; any other string is an error. */
  function KindOf(mode: string): Option<Kind> {
    if mode == KILL_POD then Some(Pod)
    else if mode == RANDOM_SCALE then Some(Deployment)
    else if mode == ANTI_PRESSURE then Some(AntiHpa)
    else None
  }

  /** The fields of a ChaosMonkeyConfiguration that the watchers read. */
  datatype Configuration = Configuration(
    enabled: bool, minReplicas: int, maxReplicas: int, scalingMode: string, deployment: string, timeout: int)

  datatype Settings = Settings(enabled: bool, minReplicas: int, maxReplicas: int, timeout: int)

  datatype Phase = Created | Spawned | Looping | Exited | Decremented | Finished

  /** Where a round of the loop is: before its head check; waiting in the select statement; past the
      check of Enabled in a tick, with what the request needs still to be found; about to send the
      request; or stopped by a panic. */
  datatype Stage = AtHead | Waiting | Cleared | Firing | Panicked

  datatype Mark = Kept | StoppedEarly | StoppedLate | ReapedEarly | ReapedLate

  /** `owner` is the deployment the leaf was created for.  `ready` is what the loop itself must have
      besides its settings: a pod in the list of a PodWatcher, an armed timer in the loop of an
      AntiHPAWatcher.  `late` counts the disruptions made since the leaf was marked. */
  datatype Child = Child(
    kind: Kind, owner: string, settings: Settings,
    running: bool, stage: Stage, ready: bool, phase: Phase, mark: Mark, late: nat)
  {
    predicate Begun() { !phase.Created? && !phase.Spawned? }

    /** The goroutine exists and has not signalled the wait group yet. */
    predicate Unfinished() { !phase.Created? && !phase.Finished? }

    /** The goroutine counts in the active gauge of its kind. */
    predicate Gauged() { phase.Spawned? || phase.Looping? || phase.Exited? }

    /** The current round is past its head check and can still disrupt. */
    predicate InRound() { stage.Waiting? || stage.Cleared? || stage.Firing? }
  }

  /** What each constructor leaves in the configurable fields. */
  function Defaults(kind: Kind): Settings {
    match kind
    case Pod => Settings(true, 0, 0, 30 * SECOND)
    case Deployment => Settings(false, 0, 0, 0)
    case AntiHpa => Settings(true, 0, 0, 10 * MINUTE)
  }

  /** SetEnabled, SetMinReplicas, SetMaxReplicas, SetTimeout: the two replica setters do
      nothing unless the leaf is a DeploymentWatcher. */
  function Configured(kind: Kind, initial: Settings, cfg: Configuration): Settings {
    if kind.Deployment? then Settings(cfg.enabled, cfg.minReplicas, cfg.maxReplicas, cfg.timeout)
    else initial.(enabled := cfg.enabled, timeout := cfg.timeout)
  }

  /** A call that a ConfigurableWatcher receives from another goroutine. */
  datatype Call =
    | SetEnabled(flag: bool) | SetMinReplicas(n: int) | SetMaxReplicas(n: int) | SetTimeout(d: int) | Stop

  function Tuned(kind: Kind, s: Settings, call: Call): Settings {
    match call
    case SetEnabled(flag) => s.(enabled := flag)
    case SetMinReplicas(n) => if kind.Deployment? then s.(minReplicas := n) else s
    case SetMaxReplicas(n) => if kind.Deployment? then s.(maxReplicas := n) else s
    case SetTimeout(d) => s.(timeout := d)
    case Stop => s
  }

  /** The setter calls of addWatcher and modifyWatcher, in their order. */
  function Reconfiguration(cfg: Configuration): seq<Call> {
    [SetEnabled(cfg.enabled), SetMinReplicas(cfg.minReplicas), SetMaxReplicas(cfg.maxReplicas),
     SetTimeout(cfg.timeout)]
  }

  /** A configured leaf has the settings of the configuration; only a DeploymentWatcher has replicas. */
  predicate HasSettings(kind: Kind, s: Settings, cfg: Configuration) {
    && s.enabled == cfg.enabled && s.timeout == cfg.timeout
    && (kind.Deployment? ==> s.minReplicas == cfg.minReplicas && s.maxReplicas == cfg.maxReplicas)
  }

  /** The scaling modes and the kinds of leaf that they name. */
  predicate Names(mode: string, kind: Kind) {
    || (mode == KILL_POD && kind.Pod?)
    || (mode == RANDOM_SCALE && kind.Deployment?)
    || (mode == ANTI_PRESSURE && kind.AntiHpa?)
  }

  predicate Known(mode: string) { mode == KILL_POD || mode == RANDOM_SCALE || mode == ANTI_PRESSURE }

  lemma KindOfNames(mode: string)
    ensures KindOf(mode).Some? <==> Known(mode)
    ensures forall k: Kind :: KindOf(mode) == Some(k) <==> Names(mode, k)
  {
    assert |KILL_POD| == 7 && |RANDOM_SCALE| == 11 && |ANTI_PRESSURE| == 12;
  }

  lemma ConfiguredHasSettings(kind: Kind, initial: Settings, cfg: Configuration)
    ensures HasSettings(kind, Configured(kind, initial, cfg), cfg)
    ensures !kind.Deployment? ==>
              && Configured(kind, initial, cfg).minReplicas == initial.minReplicas
              && Configured(kind, initial, cfg).maxReplicas == initial.maxReplicas
  {
  }

  /** The four calls configure the leaf, and however many of them have been made already, making
      the rest does. */
  lemma ReconfigurationConfigures(kind: Kind, s: Settings, cfg: Configuration)
    ensures var c := Reconfiguration(cfg);
            Tuned(kind, Tuned(kind, Tuned(kind, Tuned(kind, s, c[0]), c[1]), c[2]), c[3])
            == Configured(kind, s, cfg)
    ensures forall call :: call in Reconfiguration(cfg) ==>
              !call.Stop? && Configured(kind, Tuned(kind, s, call), cfg) == Configured(kind, s, cfg)
  {
  }

  function NewChild(kind: Kind, owner: string, cfg: Configuration): Child {
    Child(kind, owner, Configured(kind, Defaults(kind), cfg), false, AtHead, false, Created, Kept, 0)
  }

  /** The CrdWatcher starts the goroutine that calls Start. */
  function LaunchChild(c: Child): Child {
    c.(phase := Spawned)
  }

  function StopChild(c: Child): Child {
    c.(running := false,
       mark := if !c.mark.Kept? then c.mark else if c.Begun() then StoppedLate else StoppedEarly)
  }

  function CallChild(c: Child, call: Call): Child {
    if call.Stop? then StopChild(c) else c.(settings := Tuned(c.kind, c.settings, call))
  }

  function ReapChild(c: Child): Child {
    c.(mark := if !c.mark.Kept? then c.mark else if c.Begun() then ReapedLate else ReapedEarly)
  }

  /** The moves a leaf makes on its own.  FailOpen is PodWatcher's failed Watch call.  A round begins
      with Check and ends in one of: Rest, a wake-up without a tick; Stock, a change of the pod list,
      which is then empty or not; Skip, a tick that finds the leaf disabled; Miss, a tick that finds
      nothing to disrupt; Act, one scale or delete request.  In between, Aim is a tick that finds the
      leaf enabled and Load finds what the request needs; Panic is rng.Intn of a negative max plus
      one.  Halt is any write of Running = false by the loop itself; Leave is the return of
      Start; Decrement and Done are the end of the goroutine that ran Start. */
  datatype Move =
    | Begin | FailOpen | Check | Rest | Stock(some: bool) | Skip | Aim | Load | Miss | Panic | Act
    | Halt | Leave | Decrement | Done

  /** What a tick that found the leaf enabled needs for its request; the listing that an
      AntiHPAWatcher asks for may or may not come. */
  predicate CanLoad(c: Child) {
    match c.kind
    case Pod => c.ready
    case Deployment => c.settings.maxReplicas >= 0
    case AntiHpa => true
  }

  predicate CanMove(c: Child, m: Move) {
    match m
    case Begin => c.phase.Spawned?
    case FailOpen => c.phase.Spawned? && c.kind.Pod?
    case Check => c.phase.Looping? && c.stage.AtHead? && c.running
    case Rest => c.phase.Looping? && c.stage.Waiting?
    case Stock(_) => c.phase.Looping? && c.stage.Waiting? && c.kind.Pod?
    case Skip => c.phase.Looping? && c.stage.Waiting? && CanTick(c) && !c.settings.enabled
    case Aim => c.phase.Looping? && c.stage.Waiting? && CanTick(c) && c.settings.enabled
    case Load => c.phase.Looping? && c.stage.Cleared? && CanLoad(c)
    case Miss => c.phase.Looping? && c.stage.Cleared? && CanMiss(c)
    case Panic => c.phase.Looping? && c.stage.Cleared? && c.kind.Deployment? && !CanLoad(c)
    case Act => c.phase.Looping? && c.stage.Firing?
    case Halt => c.phase.Looping? && c.stage.AtHead?
    case Leave => c.phase.Looping? && c.stage.AtHead? && !c.running
    case Decrement => c.phase.Exited?
    case Done => c.phase.Decremented?
  }

  predicate CanTick(c: Child) { c.kind.AntiHpa? ==> c.ready }

  predicate CanMiss(c: Child) {
    match c.kind case Pod => !c.ready case Deployment => false case AntiHpa => true
  }

  /** In an AntiHPAWatcher Begin creates the timer, a Skip leaves it unarmed, and the round in which
      the loop halts arms it again. */
  function MoveChild(c: Child, m: Move): Child
    requires CanMove(c, m)
  {
    match m
    case Begin => c.(running := true, phase := Looping, stage := AtHead, ready := c.ready || c.kind.AntiHpa?)
    case FailOpen => c.(phase := Exited)
    case Check => c.(stage := Waiting)
    case Rest => c.(stage := AtHead)
    case Stock(some) => c.(stage := AtHead, ready := some)
    case Skip => c.(stage := AtHead, ready := c.ready && !c.kind.AntiHpa?)
    case Aim => c.(stage := Cleared)
    case Load => c.(stage := Firing)
    case Miss => c.(stage := AtHead)
    case Panic => c.(stage := Panicked)
    case Act => c.(stage := AtHead, late := if c.mark.Kept? then c.late else c.late + 1)
    case Halt => c.(running := false, ready := c.ready || c.kind.AntiHpa?)
    case Leave => c.(phase := Exited)
    case Decrement => c.(phase := Decremented)
    case Done => c.(phase := Finished)
  }

  predicate WellFormed(c: Child) {
    && (c.running || !c.stage.AtHead? ==> c.phase.Looping?)
    && (c.mark.Kept? ==> c.late == 0)
    && (c.mark.StoppedLate? || c.mark.ReapedLate? ==>
          c.Begun() && !c.running && c.late + (if c.InRound() then 1 else 0) <= 1)
  }

  /** What one leaf's Start loop is observed to do, together with what is done to it from
      outside: `Launched` is the start of its goroutine, `Called` a call that it receives. */
  datatype Atom = Own(move: Move) | Launched | Called(call: Call)

  const STOPPED := Called(Stop)

  function Replay(c: Child, trace: seq<Atom>): Option<Child>
    decreases |trace|
  {
    if trace == [] then Some(c)
    else match trace[0]
      case Own(m) => if CanMove(c, m) then Replay(MoveChild(c, m), trace[1..]) else None
      case Launched => if c.phase.Created? then Replay(LaunchChild(c), trace[1..]) else None
      case Called(call) => Replay(CallChild(c, call), trace[1..])
  }

  function Acts(trace: seq<Atom>): nat {
    if trace == [] then 0 else (if trace[0] == Own(Act) then 1 else 0) + Acts(trace[1..])
  }

  lemma {:induction false} ReplayConcat(c: Child, a: seq<Atom>, b: seq<Atom>)
    ensures Replay(c, a + b) ==
            match Replay(c, a) { case None => None case Some(d) => Replay(d, b) }
    decreases |a|
  {
    if a == [] {
      assert a + b == b;
    } else {
      assert (a + b)[1..] == a[1..] + b;
      match a[0] {
        case Own(m) => if CanMove(c, m) { ReplayConcat(MoveChild(c, m), a[1..], b); }
        case Launched => if c.phase.Created? { ReplayConcat(LaunchChild(c), a[1..], b); }
        case Called(call) => ReplayConcat(CallChild(c, call), a[1..], b);
      }
    }
  }

  /** What one atom keeps: a well-formed leaf stays well-formed, one that has begun has begun, and
      one that is marked keeps its mark and counts the disruption. */
  predicate Keeps(c: Child, d: Child, acts: nat) {
    && (WellFormed(c) ==> WellFormed(d))
    && (c.Begun() ==> d.Begun())
    && (!c.mark.Kept? ==> d.mark == c.mark && d.late == c.late + acts)
  }

  lemma MoveKeeps(c: Child, m: Move)
    requires CanMove(c, m)
    ensures Keeps(c, MoveChild(c, m), if m == Act then 1 else 0)
  {
  }

  lemma CallKeeps(c: Child, call: Call)
    ensures Keeps(c, CallChild(c, call), 0)
  {
  }

  /** A well-formed leaf stays well-formed, and once marked it keeps its mark and counts every
      disruption in `late`. */
  lemma {:induction false} ReplayKeepsWellFormed(c: Child, trace: seq<Atom>)
    requires WellFormed(c) && Replay(c, trace).Some?
    ensures Keeps(c, Replay(c, trace).value, Acts(trace))
    ensures WellFormed(Replay(c, trace).value)
    decreases |trace|
  {
    if trace != [] {
      match trace[0] {
        case Own(m) =>
          MoveKeeps(c, m);
          ReplayKeepsWellFormed(MoveChild(c, m), trace[1..]);
        case Launched => ReplayKeepsWellFormed(LaunchChild(c), trace[1..]);
        case Called(call) =>
          CallKeeps(c, call);
          ReplayKeepsWellFormed(CallChild(c, call), trace[1..]);
      }
    }
  }

  lemma {:induction false} BegunAfterBegin(c: Child, trace: seq<Atom>)
    requires Replay(c, trace).Some?
    requires c.Begun() || Own(Begin) in trace
    ensures Replay(c, trace).value.Begun()
    decreases |trace|
  {
    if trace != [] {
      match trace[0] {
        case Own(m) => BegunAfterBegin(MoveChild(c, m), trace[1..]);
        case Launched => BegunAfterBegin(LaunchChild(c), trace[1..]);
        case Called(call) => BegunAfterBegin(CallChild(c, call), trace[1..]);
      }
    }
  }

  /** Once a leaf has begun and Running is false, nothing sets Running again and only the round
      already past its head check can still disrupt. */
  lemma {:induction false} QuietOnceNotRunning(c: Child, trace: seq<Atom>)
    requires c.Begun() && !c.running && Replay(c, trace).Some?
    ensures Acts(trace) <= if c.InRound() then 1 else 0
    ensures !Replay(c, trace).value.running
    decreases |trace|
  {
    if trace != [] {
      match trace[0] {
        case Own(m) => QuietOnceNotRunning(MoveChild(c, m), trace[1..]);
        case Launched =>
        case Called(call) => QuietOnceNotRunning(CallChild(c, call), trace[1..]);
      }
    }
  }

  /** A leaf stopped after its setRunning(true) makes at most one more disruption and never runs
      again, whatever setters, further stops and loop steps come before and after the call. */
  lemma AtMostOneActAfterStop(c: Child, before: seq<Atom>, after: seq<Atom>)
    requires Replay(c, before + [STOPPED] + after).Some?
    requires c.Begun() || Own(Begin) in before
    ensures Acts(after) <= 1
    ensures !Replay(c, before + [STOPPED] + after).value.running
  {
    assert before + [STOPPED] + after == before + ([STOPPED] + after);
    ReplayConcat(c, before, [STOPPED] + after);
    BegunAfterBegin(c, before);
    var d := Replay(c, before).value;
    assert ([STOPPED] + after)[1..] == after;
    QuietOnceNotRunning(StopChild(d), after);
  }

  /** A disabled leaf disrupts at most once more, in a tick that is past its check of Enabled. */
  lemma {:induction false} QuietWhileDisabled(c: Child, trace: seq<Atom>)
    requires !c.settings.enabled && Replay(c, trace).Some? && Called(SetEnabled(true)) !in trace
    ensures Acts(trace) <= if c.stage.Cleared? || c.stage.Firing? then 1 else 0
    decreases |trace|
  {
    if trace != [] {
      match trace[0] {
        case Own(m) => QuietWhileDisabled(MoveChild(c, m), trace[1..]);
        case Launched => QuietWhileDisabled(LaunchChild(c), trace[1..]);
        case Called(call) => QuietWhileDisabled(CallChild(c, call), trace[1..]);
      }
    }
  }

  /** A leaf that is disabled and not enabled again makes at most one more disruption. */
  lemma AtMostOneActAfterDisable(c: Child, before: seq<Atom>, after: seq<Atom>)
    requires Replay(c, before + [Called(SetEnabled(false))] + after).Some?
    requires Called(SetEnabled(true)) !in after
    ensures Acts(after) <= 1
  {
    var off := Called(SetEnabled(false));
    assert before + [off] + after == before + ([off] + after);
    ReplayConcat(c, before, [off] + after);
    assert ([off] + after)[1..] == after;
    QuietWhileDisabled(CallChild(Replay(c, before).value, SetEnabled(false)), after);
  }

  // ---- Leaves that disrupt as often as they like ----

  /** The settings allow a request: Enabled, and for a DeploymentWatcher a max to draw from. */
  predicate Willing(c: Child) {
    c.settings.enabled && (c.kind.Deployment? ==> c.settings.maxReplicas >= 0)
  }

  /** n rounds that pass the head check, the check of Enabled, and disrupt. */
  function Volleys(n: nat): seq<Atom> {
    if n == 0 then [] else [Own(Check)] + ([Own(Aim)] + ([Own(Load)] + ([Own(Act)] + Volleys(n - 1))))
  }

  /** The same, after a round that lists a pod if the leaf needs one. */
  function Rampage(kind: Kind, ready: bool, n: nat): seq<Atom> {
    if kind.Pod? && !ready then [Own(Check)] + ([Own(Stock(true))] + Volleys(n)) else Volleys(n)
  }

  lemma VolleysGrow(n: nat)
    ensures ([Own(Check)] + ([Own(Aim)] + ([Own(Load)] + [Own(Act)]))) + Volleys(n) == Volleys(n + 1)
  {
  }

  lemma ActsOfCons(a: Atom, rest: seq<Atom>)
    ensures Acts([a] + rest) == (if a == Own(Act) then 1 else 0) + Acts(rest)
  {
    assert ([a] + rest)[1..] == rest;
  }

  lemma {:induction false} ActsOfVolleys(n: nat)
    ensures Acts(Volleys(n)) == n
  {
    if n > 0 {
      var t := Volleys(n - 1);
      ActsOfVolleys(n - 1);
      ActsOfCons(Own(Act), t);
      ActsOfCons(Own(Load), [Own(Act)] + t);
      ActsOfCons(Own(Aim), [Own(Load)] + ([Own(Act)] + t));
      ActsOfCons(Own(Check), [Own(Aim)] + ([Own(Load)] + ([Own(Act)] + t)));
    }
  }

  lemma ActsOfRampage(kind: Kind, ready: bool, n: nat)
    ensures Acts(Rampage(kind, ready, n)) == n
  {
    ActsOfVolleys(n);
    if kind.Pod? && !ready {
      ActsOfCons(Own(Stock(true)), Volleys(n));
      ActsOfCons(Own(Check), [Own(Stock(true))] + Volleys(n));
    }
  }

  lemma ReplayCons(c: Child, m: Move, rest: seq<Atom>)
    requires CanMove(c, m)
    ensures Replay(c, [Own(m)] + rest) == Replay(MoveChild(c, m), rest)
  {
    assert ([Own(m)] + rest)[1..] == rest;
  }

  /** The loop runs and can tick and disrupt, at its head check. */
  predicate AtLarge(c: Child) {
    c.phase.Looping? && c.stage.AtHead? && c.running && Willing(c) && CanTick(c)
  }

  lemma {:induction false} VolleysReplay(c: Child, n: nat)
    requires AtLarge(c) && CanLoad(c)
    ensures Replay(c, Volleys(n)).Some? && Replay(c, Volleys(n)).value.running
    decreases n
  {
    if n > 0 {
      var t := Volleys(n - 1);
      var c1 := MoveChild(c, Check);
      var c2 := MoveChild(c1, Aim);
      var c3 := MoveChild(c2, Load);
      ReplayCons(c, Check, [Own(Aim)] + ([Own(Load)] + ([Own(Act)] + t)));
      ReplayCons(c1, Aim, [Own(Load)] + ([Own(Act)] + t));
      ReplayCons(c2, Load, [Own(Act)] + t);
      ReplayCons(c3, Act, t);
      VolleysReplay(MoveChild(c3, Act), n - 1);
    }
  }

  lemma RampageReplays(c: Child, n: nat)
    requires AtLarge(c)
    ensures Replay(c, Rampage(c.kind, c.ready, n)).Some? && Replay(c, Rampage(c.kind, c.ready, n)).value.running
  {
    if c.kind.Pod? && !c.ready {
      var c1 := MoveChild(c, Check);
      ReplayCons(c, Check, [Own(Stock(true))] + Volleys(n));
      ReplayCons(c1, Stock(true), Volleys(n));
      VolleysReplay(MoveChild(c1, Stock(true)), n);
    } else {
      VolleysReplay(c, n);
    }
  }

  /** The way from the current phase to a running loop, for a leaf that has not begun. */
  function Startup(c: Child): seq<Atom> {
    (if c.phase.Created? then [Launched] else []) + [Own(Begin)]
  }

  lemma StartupReplays(c: Child)
    requires !c.Begun()
    ensures Replay(c, Startup(c)) ==
            Some(c.(running := true, phase := Looping, stage := AtHead, ready := c.ready || c.kind.AntiHpa?))
  {
    var d := if c.phase.Created? then LaunchChild(c) else c;
    assert Startup(c)[1..] == if c.phase.Created? then [Own(Begin)] else [];
    assert Replay(d, [Own(Begin)]) == Replay(MoveChild(d, Begin), []);
  }

  /** From its creation or its launch to n disruptions. */
  function Outbreak(c: Child, n: nat): seq<Atom> {
    Startup(c) + Rampage(c.kind, c.ready, n)
  }

  lemma OutbreakReplays(c: Child, n: nat)
    requires !c.Begun() && Willing(c)
    ensures Replay(c, Outbreak(c, n)).Some? && Replay(c, Outbreak(c, n)).value.running
    ensures Acts(Outbreak(c, n)) == n
  {
    StartupReplays(c);
    var d := Replay(c, Startup(c)).value;
    assert Rampage(c.kind, c.ready, n) == Rampage(d.kind, d.ready, n);
    RampageReplays(d, n);
    ReplayConcat(c, Startup(c), Rampage(c.kind, c.ready, n));
    ActsOfRampage(c.kind, c.ready, n);
    StartupIsHarmless(c, Rampage(c.kind, c.ready, n));
  }

  lemma StartupIsHarmless(c: Child, trace: seq<Atom>)
    ensures Acts(Startup(c) + trace) == Acts(trace)
  {
    ActsOfCons(Own(Begin), trace);
    if c.phase.Created? {
      ActsOfCons(Launched, [Own(Begin)] + trace);
      assert Startup(c) + trace == [Launched] + ([Own(Begin)] + trace);
    } else {
      assert Startup(c) + trace == [Own(Begin)] + trace;
    }
  }

  /** The side condition of AtMostOneActAfterStop is needed: a Stop that arrives before the
      leaf's setRunning(true), even before the launch of its goroutine, is overwritten, and if the
      settings allow it any number of disruptions can follow, without any further call. */
  lemma EarlyStopIsLost(c: Child, n: nat)
    requires !c.Begun() && Willing(c)
    ensures Replay(c, [STOPPED] + Outbreak(c, n)).Some?
    ensures Replay(c, [STOPPED] + Outbreak(c, n)).value.running
    ensures Acts(Outbreak(c, n)) == n
  {
    OutbreakReplays(StopChild(c), n);
    assert Outbreak(StopChild(c), n) == Outbreak(c, n);
    assert ([STOPPED] + Outbreak(c, n))[1..] == Outbreak(c, n);
  }

  /** After a Stop now, at most one more disruption, whatever follows: the launch of a goroutine
      that is still to come, moves of the loop, setters and further stops. */
  ghost predicate StopWouldHold(c: Child) {
    forall after :: Replay(c, [STOPPED] + after).Some? ==> Acts(after) <= 1
  }

  /** Setters that make any leaf willing. */
  const PERMIT: seq<Atom> := [Called(SetEnabled(true)), Called(SetMaxReplicas(0))]

  lemma PermitReplays(c: Child, rest: seq<Atom>) returns (d: Child)
    ensures Willing(d) && d.phase == c.phase && d.kind == c.kind && d.ready == c.ready
    ensures Replay(c, PERMIT + rest) == Replay(d, rest) && Acts(PERMIT + rest) == Acts(rest)
  {
    assert PERMIT + rest == [PERMIT[0]] + ([PERMIT[1]] + rest);
    ActsOfCons(PERMIT[0], [PERMIT[1]] + rest);
    ActsOfCons(PERMIT[1], rest);
    assert (PERMIT + rest)[1..] == [PERMIT[1]] + rest && ([PERMIT[1]] + rest)[1..] == rest;
    d := CallChild(CallChild(c, SetEnabled(true)), SetMaxReplicas(0));
  }

  /** Stop does its work if and only if the leaf has executed its setRunning(true). */
  lemma StopHoldsIffBegun(c: Child)
    ensures StopWouldHold(c) <==> c.Begun()
  {
    if c.Begun() {
      forall after | Replay(c, [STOPPED] + after).Some? ensures Acts(after) <= 1 {
        assert ([STOPPED] + after)[1..] == after;
        QuietOnceNotRunning(StopChild(c), after);
      }
    } else {
      var d := PermitReplays(StopChild(c), Outbreak(c, 2));
      OutbreakReplays(d, 2);
      assert Outbreak(d, 2) == Outbreak(c, 2);
      assert ([STOPPED] + (PERMIT + Outbreak(c, 2)))[1..] == PERMIT + Outbreak(c, 2);
    }
  }
}
