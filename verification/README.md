# Chaos Monkey watchers: a verified model

The program watches a Kubernetes cluster through a tree of watchers. One `NamespaceWatcher` owns a
`CrdWatcher` for every namespace that its policy accepts; every `CrdWatcher` owns one leaf watcher
for every deployment that a `ChaosMonkeyConfiguration` names. A leaf is a `DeploymentWatcher`
(rescales at random), a `PodWatcher` (deletes a random pod) or an `AntiHPAWatcher` (deletes the pod
of the busiest container). All of them are goroutines, and they share their fields under mutexes.
Beside the tree stand a conversion webhook between two versions of the resource and a health
endpoint that counts the watchers.

## How the model is built

- **Critical sections.** `CrdState` and `NamespaceState` say what each locked method does to the
  state; the classes in `CrdObjects` and `NamespaceObjects` have the fields of the source and change
  them in place, and each method is proved to have exactly that effect. Leaves and CrdWatchers are
  numbered in order of creation, so one that has left its map stays observable.
- **Protocols.** `CrdProtocol` and `NamespaceProtocol` are the two Start loops as program-counter
  machines over those critical sections, interleaved with every move of every goroutine below and
  with calls of Stop from outside. `CrdRuns` and `NamespaceRuns` prove what holds over all runs. A
  state of the namespace machine contains whole CrdWatcher machines, and each of them is proved to
  be a run of its own.
- **Effects and progress.** `CrdEffects` says in full, without the functions that compute it, what
  each critical section accepts and does. `CrdProgress`, `CrdReturns` and `NamespaceProgress` say
  where the two loops go: that a closed watch leads to a restart, what ends the loop and what does
  not, that cleanUp asks every key, and that the loop can always come to its return.
- **Leaves.** `Children` is the leaf automaton that the protocols see: the stages of a round, the
  settings, and what the round needs besides them (a pod in the list, an armed timer). The three
  loops (`DeploymentLoop`, `PodLoop`, `AntiHpaLoop`) are classes whose Start consumes a script of
  rounds; every gap between two atomic actions of a round carries the calls that other goroutines
  make there. Each loop is proved to refine the automaton with the same settings and resources, so
  the two levels fit together; the automaton's disrupting rounds are proved to be rounds of each
  loop. `LeafAlone` says what a leaf can still do when nobody calls it, and `LeafReports` is what all
  three loops report.
- **Algorithms.** `AntiHpaTree` is the search tree on the heap, `Health` the queue traversal,
  `Unstructured`, `ApiV1`, `ApiV1Alpha1` and `Conversion` the nested-map writers, readers and
  converters. `CrdLeftovers` and `NamespaceLeftovers` say what the protocols leave behind.

## Where the code falls short of what it seems to promise

Each of these is proved, with a run that shows it or the exact condition of when it happens.

- A Stop that reaches a leaf before its `setRunning(true)`, even before its goroutine is launched, is
  overwritten, and only such a Stop (`Children.StopHoldsIffBegun`). In each of the three loops a leaf
  whose settings allow it then disrupts as often as it likes (`EarlyStopIsLostHere` in
  `DeploymentRuns`, `PodRuns` and `AntiHpaRuns`). Through a DELETED event or
  through cleanUp this leaves a leaf running outside the map (`CrdRuns.EarlyDeletionEscapes`,
  `CrdRuns.EarlyReapingEscapes`; exactly when: `CrdLeftovers.RemovedRunsAgainIffNotBegun`). Until such
  a leaf halts by itself, no restart of its CrdWatcher comes to an end, and a restart that waits for
  it keeps the mutex (`CrdLeftovers.EscapeeHoldsUpWaits`), so that the loops of the NamespaceWatcher
  hang when they come to its key (`NamespaceLeftovers.EscapeeHangsTree`).
- An event that handleEvent cannot recover from makes `CrdWatcher.Start` return without stopping
  or joining its leaves. Leaves go on after a return if and only if the event was fatal and some
  goroutine was alive (`CrdLeftovers.LeavesGoOnIffFatal`). Nobody calls them any more, so a leaf
  disrupts again if and only if its settings, its timer and its place in the round allow one more
  request, and without end if and only if it is running as well
  (`CrdLeftovers.AbandonedDisruptsIffLoaded`). In a run from the start that accepts one configuration
  this comes down to the configuration: enabled, with a max to draw from for `randomScale`
  (`CrdLeftovers.AbortedWatcherDisrupts`).
- handleEvent looks at the object of an event before its type. After an event whose object is no
  configuration, error events included, the dead CrdWatcher still claims to be running, so cleanUp
  of the NamespaceWatcher spares it; after an empty or error event that carries a configuration it
  evicts it (`NamespaceLeftovers.DeadWatcherEvictedIffErrorEvent`,
  `NamespaceLeftovers.DeadWatcherIsSpared`).
- The Stop of the NamespaceWatcher has no latch: it is lost if and only if it comes before the first
  watch is open (`NamespaceLeftovers.StopHoldsIffOpened`).
- A replica count above the range of int32 wraps (`DeploymentRuns.InRangeIffMaxFits`).
- `podsActive` is stale after a restart of the pod watch until the next addition or removal
  (`PodRuns.ActiveGaugeRightIff`).
- An AntiHPA tick that finds the watcher disabled never re-arms the timer
  (`AntiHpaRuns.DisabledTickIsFinal`). A request can still follow if and only if the timer is armed
  and the watcher running (`AntiHpaRuns.RequestPossibleIffArmed`), which in a running run means that
  no tick found it disabled (`AntiHpaRuns.RunArms`). And when no container converts, the delete
  request goes out with an empty name (`AntiHpaRuns.RequestNamesBusiestPod`).
- The documentation of the resource (crds/chaosmonkey-configuration.yaml:97-100 and 120-125) says that
  `antiPressure` respects `minReplicas`; the code ignores it, and the model follows the code.
- `cmcActive` is too high by the number of watchers that cleanUp has evicted since the last restart
  (`NamespaceRuns.ActiveGaugeDrift`).
- An ADDED event that refuses a namespace already watched is skipped; this is the only way in which
  the map and the events can disagree, and no well-formed stream has such an event
  (`NamespaceRuns.KeysAgreeIffConsistent`, `NamespaceRuns.WellFormedKeysAgree`).
- `antiPressure` does not survive a trip through v1alpha1 (`Conversion.V1RoundTrip`), and metadata and
  spec fields that the resource types do not carry survive neither trip
  (`Conversion.AlphaRoundTripExactIff`, `Conversion.V1RoundTripExactIff`).
- The type of the health endpoint's worklist is called stack, but it is a queue.

## Model

| member | source | states |
|---|---|---|
| Children.AtMostOneActAfterStop | internal/watcher/deployment.go:162-294 | a leaf stopped after its setRunning(true) makes at most one more disruption and is never running again, whatever setters, stops and loop steps come before and after |
| Children.StopHoldsIffBegun | internal/watcher/deployment.go:165-173 | a Stop bounds every continuation, the launch of the goroutine included, to one disruption if and only if the leaf has executed its setRunning(true) |
| Children.EarlyStopIsLost | internal/watcher/deployment.go:167-180 | an earlier Stop, before or after the launch, is overwritten: a leaf that is enabled, with a max to draw from for a DeploymentWatcher, can make any number of disruptions without any further call and is still running |
| Children.AtMostOneActAfterDisable | internal/watcher/deployment.go:176-180 | a leaf of any kind that is disabled, at any time, and not enabled again makes at most one more disruption |
| Children.ReconfigurationConfigures | internal/watcher/crd.go:596-600 | the four setter calls in their order configure the leaf, and however many have been made already, making the rest does |
| Children.KindOfNames | internal/watcher/crd.go:425-444 | the known modes are killPod, randomScale and antiPressure, and they name a PodWatcher, a DeploymentWatcher and an AntiHPAWatcher |
| Children.ConfiguredHasSettings | internal/watcher/crd.go:447-451 | a configured leaf has the enabled flag and the timeout of the configuration, and a DeploymentWatcher its two replica counts; the others keep theirs |
| LeafCalls.SettingsAreHeard | internal/watcher/deployment.go:129-160 | over every trace the settings of a leaf are what the calls in it, in their order, make of them |
| LeafCalls.RunningUntilEnded | internal/watcher/deployment.go:173-294 | a leaf that has begun is running if and only if it was and has since seen neither a Stop nor a Halt of its own loop |
| LeafAlone.DisruptsIffLoaded | internal/watcher/deployment.go:173-189 | a leaf that nobody calls disrupts again if and only if it is loaded: at a head check running, enabled, with a max to draw from or a timer that can fire; later in the round only what is still to be checked matters |
| LeafAlone.DisruptsForeverIffRampant | internal/watcher/deployment.go:173-205 | it disrupts without bound if and only if in addition it is running, and otherwise at most once |
| Children.ReplayKeepsWellFormed | internal/watcher/crd.go:464-502 | over every trace a well-formed leaf stays well-formed, and once marked as stopped or reaped keeps its mark and counts every disruption made since |
| CrdState.BornSplits | internal/watcher/crd.go:433-502 | per kind, the leaves created are those waiting for launch, those counted in the gauge and those past their Dec |
| CrdState.InsertKeepsBalanced | internal/watcher/crd.go:425-459 | adding a leaf keeps the three counter laws |
| CrdState.LaunchKeepsBalanced | internal/watcher/crd.go:473-499 | so does launching its goroutine, which moves the gauge and the wait group together |
| CrdState.MoveKeepsBalanced | internal/watcher/crd.go:488-499 | so does every own move of a leaf, the Dec and the Done included |
| CrdState.StopEntriesAdd | internal/watcher/crd.go:366-375 | stopping key after key has the same effect in every iteration order: each leaf of the set stopped once, its key gone |
| CrdState.ReapEntriesAdd | internal/watcher/crd.go:624-634 | cleanUp in any order deletes exactly the keys whose leaf is not running, and stops none of them |
| CrdProtocol.StepKeepsInv | internal/watcher/crd.go:313-381 | every step of every goroutine keeps the invariant: keys and kept leaves in one-to-one correspondence, the stored and possibly stale scaling mode naming the leaf's kind, and the counter laws |
| CrdEffects.AddMeans | internal/watcher/crd.go:411-462 | addWatcher accepts if and only if the name is free and the mode is randomScale or antiPressure, or killPod with labels; then one leaf of the kind that the mode names, with all settings, stands under the name, its spawned counter is one higher, and nothing else has changed |
| CrdEffects.StartMeans | internal/watcher/crd.go:464-502 | startWatcher accepts exactly the known names, and moves the leaf's goroutine, its gauge and the wait group, nothing else |
| CrdEffects.ModifyMeans | internal/watcher/crd.go:504-604 | modifyWatcher refuses an unknown name; with the stored mode it changes the settings of the leaf alone; with another mode it replaces the leaf by a launched one of the kind named if Get answers and the mode is known, and else stops and forgets it all the same |
| CrdEffects.DeleteMeans | internal/watcher/crd.go:606-622 | deleteWatcher accepts exactly the known names, stops the leaf, deletes the key and changes nothing else |
| CrdEffects.HandleEventMeans | internal/watcher/crd.go:231-310 | handleEvent is fatal exactly for an unknown object and for an empty or error event with a configuration, of which only the second clears Running; an accepted ADDED event leaves one launched leaf more; the rest is the effect of the two other handlers, or none |
| CrdProgress.ClosedWatchRestarts | internal/watcher/crd.go:331-343 | in every run a closed watch is followed by a completed restart before the next head check, and then the map is empty and every leaf created before is over |
| CrdProgress.RunningIffNothingEnded | internal/watcher/crd.go:326-361 | over every run, once the first watch is open, Running holds if and only if nobody called Stop, the context has not ended, the closed channel was not received from, and neither an error event nor a failed restart came |
| CrdProgress.EnderEndsLoop | internal/watcher/crd.go:328-361 | after the end of the context, the wake-up by the closed channel, a failed restart, or a head check that finds Running false, nothing is selected any more |
| CrdProgress.RunningHeadSelects | internal/watcher/crd.go:328-360 | a head check that finds Running true goes to the select statement with every branch open, the wake-up if and only if the channel is closed |
| CrdProgress.CleanUpAsksEveryKey | internal/watcher/crd.go:624-634 | no cleanUp ends before every key of the map has been reaped or spared |
| CrdProgress.CleanUpIsRun | internal/watcher/crd.go:624-634 | cleanUp is a run of the machine that deletes exactly the keys whose leaf is not running and leaves every flag as it was |
| CrdReturns.CanAlwaysReturn | internal/watcher/crd.go:313-381 | from every state that is not a fatal return, and in which no leaf has panicked or is about to, some continuation comes to the normal return |
| CrdReturns.EveryRunCanReturn | internal/watcher/crd.go:313-381 | so does every run without a fatal event |
| CrdReturns.RestartHappens | internal/watcher/crd.go:331-343 | a run with a leaf in the map, a closed watch, a completed restart and a new selection exists for every accepted configuration |
| CrdRuns.RunKeepsInv | internal/watcher/crd.go:313-381 | and so does every run |
| CrdRuns.NoUnstoppedOrphan | internal/watcher/crd.go:366-634 | in every reachable state a leaf is the value of exactly one key if and only if it was neither stopped nor reaped; one outside the map runs only if it was removed before its setRunning(true), and one removed later makes at most one more disruption |
| CrdRuns.EarlyDeletionEscapes | internal/watcher/crd.go:606-622 | from every reachable state with a launched but not begun leaf, a DELETED event and the leaf's first step leave it running outside the map |
| CrdRuns.EarlyReapingEscapes | internal/watcher/crd.go:624-634 | so does one cleanUp |
| CrdRuns.LaunchedLeafIsSpawned | internal/watcher/crd.go:255-282 | every accepted ADDED event leads to such a state |
| CrdRuns.CountersAreConserved | internal/watcher/crd.go:433-502 | over every run, between events, spawned equals active plus the leaves past their Dec, per kind, and the wait group counts the goroutines that have not run Done |
| CrdRuns.ReturnJoinsLeaves | internal/watcher/crd.go:364-380 | when Start returns normally the map is empty and every leaf ever launched is over |
| CrdRuns.AbortAbandonsLeaves | internal/watcher/crd.go:345-348 | after the return on a fatal event no step ever stops, reaps or forgets a leaf of the map |
| CrdLeftovers.AbortedIffFatal | internal/watcher/crd.go:231-253 | a run ends in that return if and only if it received an unknown object, or an empty or error event that carries a configuration |
| CrdLeftovers.LeavesGoOnIffFatal | internal/watcher/crd.go:345-380 | after either return of Start some leaf makes a move in some continuation if and only if the event was fatal and some goroutine was alive, which without a panic means that the wait group was not empty |
| CrdLeftovers.AbandonedIsAlone | internal/watcher/crd.go:345-348 | after the abort the moves of a leaf are a trace without calls, with the same disruptions |
| CrdLeftovers.AbandonedLeafDisrupts | internal/watcher/crd.go:345-348 | from every aborted state a rampant leaf makes at least n more disruptions, for every n, and goes on running, the map unchanged |
| CrdLeftovers.AbandonedDisruptsIffLoaded | internal/watcher/crd.go:345-348 | an abandoned leaf disrupts in some continuation if and only if it is loaded, without bound if and only if it is rampant, and otherwise at most once |
| CrdLeftovers.AbortedWatcherDisrupts | internal/watcher/crd.go:313-348 | a run from the start that accepts one ADDED event and then receives a fatal one returns with the running leaf in its map; the leaf disrupts without end afterwards if and only if the configuration is enabled and, for randomScale, has a max to draw from, and otherwise never |
| CrdLeftovers.ClaimsToRunIffForeign | internal/watcher/crd.go:231-253 | a CrdWatcher that nobody stopped claims to be running after that return if and only if the object of the event was unknown |
| CrdLeftovers.RemovedRunsAgainIffNotBegun | internal/watcher/crd.go:606-634 | a leaf that was stopped or reaped and is not running runs again in some continuation if and only if it has not executed its setRunning(true) |
| CrdLeftovers.WaitEndsIffAllFinished | internal/watcher/crd.go:377-652 | the waits of restartWatch and Start end if and only if the map is empty and every goroutine ever started is over |
| CrdLeftovers.EscapeeHoldsUpWaits | internal/watcher/crd.go:636-653 | while a leaf runs outside the map no restart and no final wait ends, whatever else happens, and a waiting restart keeps the mutex, so that Stop is blocked |
| CrdRuns.FinishedStayFinished | internal/watcher/crd.go:488-499 | finished leaves take no step in any continuation |
| CrdRuns.RestartIsBarrier | internal/watcher/crd.go:636-659 | when restartWatch returns the map is empty, the wait group and all gauges are zero, every earlier leaf is over, and none of them acts again |
| CrdRuns.RunningNeverReturns | internal/watcher/crd.go:326-361 | once the loop is entered, Running never goes from false to true |
| CrdRuns.StopIsLatched | internal/watcher/crd.go:384-401 | a Stop is never lost, even before setRunning(true): at every later select the closed channel can be received from, taking it clears Running for good, and if the loop was already entered Running is false from then on |
| CrdRuns.StepKeepsFaithful | internal/watcher/crd.go:255-622 | every step moves the map as the fold of the events says |
| CrdRuns.MapIsFoldOfEvents | internal/watcher/crd.go:255-622 | over every run, with any answers of Get, the keys are the deployments the events ask for, each with a leaf of the latest kind and settings, although the stored configuration can be older; while modifyWatcher makes its setter calls this holds up to the calls still to come |
| CrdRuns.RestartForgetsHistory | internal/watcher/crd.go:636-659 | after a restart the map is the fold of the events since, whatever came before |
| CrdRuns.HandleEventIsRun | internal/watcher/crd.go:231-310 | handleEvent undisturbed is a run of the machine, and it ends the loop exactly on a fatal event |
| CrdRuns.StopAllIsRun | internal/watcher/crd.go:366-375 | the stop loop, in an order of its own choosing, is a run of the machine that stops every leaf of the map once and empties it |
| CrdObjects.CrdWatcher.AddWatcher | internal/watcher/crd.go:411-462 | the whole new state: an error and no change for a known name, an unknown mode or a killPod deployment without labels; otherwise a fresh configured leaf under the name and its spawned counter raised |
| CrdObjects.CrdWatcher.StartWatcher | internal/watcher/crd.go:464-502 | the leaf's goroutine launched, its gauge and the wait group raised by one; nothing for an unknown name |
| CrdObjects.CrdWatcher.ModifyWatcher | internal/watcher/crd.go:504-604 | same mode: the leaf reconfigured in place and the stored configuration left alone; other mode: the old leaf stopped and forgotten even if Get or the mode then fails, else replaced by a fresh launched one |
| CrdObjects.CrdWatcher.DeleteWatcher | internal/watcher/crd.go:606-622 | the leaf stopped and its key deleted; an error and no change for an unknown name |
| CrdObjects.CrdWatcher.HandleEvent | internal/watcher/crd.go:231-310 | the combined effect of one event and whether it is fatal |
| CrdObjects.CrdWatcher.StopAll | internal/watcher/crd.go:366-375 | every leaf of the map stopped once and the map emptied, in any order |
| CrdObjects.CrdWatcher.CleanUp | internal/watcher/crd.go:624-634 | exactly the keys whose leaf is not running deleted, in any order, without a Stop |
| CrdObjects.CrdWatcher.Stop | internal/watcher/crd.go:384-401 | Running cleared and the channel closed |
| CrdObjects.LeafWatcher.Configure | internal/watcher/crd.go:447-451 | the four setters in order; the replica setters reach only a DeploymentWatcher |
| NamespaceState.AllowedIffPolicy | internal/watcher/namespace.go:183-208 | a namespace is accepted if and only if everything is allowed and the label is not "false", or everything is denied and the label is "true" |
| NamespaceState.StopEntriesAdd | internal/watcher/namespace.go:323-330 | stopping key after key stops each CrdWatcher exactly once, in every iteration order |
| NamespaceState.OthersUntouched | internal/watcher/namespace.go:386-394 | whether cleanUp finds a watcher idle does not depend on the keys handled before |
| NamespaceState.StopEntriesMeans | internal/watcher/namespace.go:323-330 | stopping a set of keys deletes exactly these, stops each of their CrdWatchers once more, and changes nothing else |
| NamespaceState.AddMeans | internal/watcher/namespace.go:352-363 | addWatcher accepts exactly the namespaces that are not watched and creates one fresh CrdWatcher, nothing else |
| NamespaceState.StartMeans | internal/watcher/namespace.go:405-429 | startCrdWatcher raises both metrics in any case; with a CrdWatcher it starts it once more and raises the wait group, and nothing else changes |
| NamespaceState.RemoveMeans | internal/watcher/namespace.go:365-380 | removeWatcher accepts exactly the watched namespaces, stops the CrdWatcher once more, deletes the key and lowers the gauge, nothing else |
| NamespaceProgress.ClosedWatchRestarts | internal/watcher/namespace.go:232-248 | in every run a closed watch is followed by a completed restart before the next head check, and then the map is empty and every CrdWatcher is joined |
| NamespaceProgress.RunningIffNothingEnded | internal/watcher/namespace.go:228-349 | over every run, once the first watch is open, Running holds if and only if nobody called Stop, the context has not ended, and neither an error event nor a failed restart came |
| NamespaceProgress.EnderEndsLoop | internal/watcher/namespace.go:230-318 | after one of these, or a head check that finds Running false, nothing is selected any more |
| NamespaceProgress.CleanUpAsksEveryKey | internal/watcher/namespace.go:382-396 | no cleanUp ends before every key of the map has been evicted or spared |
| NamespaceProgress.SpawnedCountsWatchers | internal/watcher/namespace.go:427-428 | over every run cmcSpawned counts the CrdWatchers ever created, except one about to be launched |
| NamespaceProgress.RestartHappens | internal/watcher/namespace.go:232-248 | a run with a namespace in the map, a closed watch, a completed restart and a new selection exists |
| NamespaceProgress.ReturnHappens | internal/watcher/namespace.go:306-337 | a run with a namespace in the map that comes to the return of Start exists |
| NamespaceRuns.CleanUpIsRun | internal/watcher/namespace.go:382-396 | cleanUp is a run of the machine from its tick to its end that stops once and deletes exactly the keys whose CrdWatcher does not say that it is running |
| NamespaceProtocol.StepKeepsInv | internal/watcher/namespace.go:211-338 | every step of the tree keeps the invariant: keys point to exactly the CrdWatchers never stopped, each under its own namespace, none started or stopped twice, the wait group exact, and every CrdWatcher's own invariant |
| NamespaceRuns.RunKeepsInv | internal/watcher/namespace.go:211-338 | over every run of the tree the invariant holds |
| NamespaceRuns.ProjectRuns | internal/watcher/namespace.go:211-459 | the part of a run of the tree that concerns one CrdWatcher, with its Start and its Stop where the tree calls them, is a run of that CrdWatcher from where it was to where it ends |
| NamespaceRuns.EveryCrdWatcherIsARun | internal/watcher/namespace.go:405-429 | inside the tree a CrdWatcher is what its own part of the run makes of a fresh one, and its map is the fold of the events that the run delivered to it |
| NamespaceRuns.StartedAndStoppedOnce | internal/watcher/namespace.go:352-445 | each CrdWatcher is started at most once and stopped at most once, so its channel is never closed twice; only the one about to be launched is not started yet; a key points to it if and only if it was never stopped |
| NamespaceRuns.ReturnJoinsTree | internal/watcher/namespace.go:320-337 | when Start returns, every CrdWatcher goroutine is over and stopped once, and so is every leaf below one that left its loop normally |
| NamespaceRuns.RestartIsBarrier | internal/watcher/namespace.go:431-459 | when restartWatch returns the map is empty and everything is joined, the gauge becomes zero, and afterwards only abandoned leaves can move in the old watchers |
| NamespaceRuns.JoinedStayQuiet | internal/watcher/namespace.go:441-450 | a joined CrdWatcher never moves again, but for leaves that a fatal event abandoned |
| NamespaceRuns.KeysAgreeIffConsistent | internal/watcher/namespace.go:254-304 | the keys are the existing, accepted and not evicted namespaces after every step of a run if and only if no ADDED event refuses a watched namespace |
| NamespaceRuns.StepAgreesIffConsistent | internal/watcher/namespace.go:264-304 | the same for one step |
| NamespaceRuns.WellFormedKeysAgree | internal/watcher/namespace.go:254-304 | for every well-formed event stream, restarts included, the keys are these namespaces after every step |
| NamespaceRuns.ActiveGaugeDrift | internal/watcher/namespace.go:365-396 | over every run the gauge exceeds the number of launched keys by exactly the keys that cleanUp and the final loop deleted since the last restart |
| NamespaceLeftovers.DeadWatcherEvictedIffErrorEvent | internal/watcher/namespace.go:386-394 | over every run, cleanUp evicts a CrdWatcher that has returned on a fatal event if and only if that was an empty or error event that carries a configuration, and spares it if and only if it was an unknown object |
| NamespaceLeftovers.EscapeeHangsTree | internal/watcher/namespace.go:386-450 | while a CrdWatcher waits in restartWatch for a leaf that runs outside the map, no event and no loop takes out or asks for its key, so no restart and no final stop loop ends, nor a cleanUp that still has the key to ask, whatever else happens until the leaf halts by itself |
| NamespaceLeftovers.DeadWatcherIsSpared | internal/watcher/namespace.go:386-394 | a dead CrdWatcher that claims to be running is never evicted; it leaves the map only with its namespace, by a refusing MODIFIED event, a restart or the end |
| NamespaceLeftovers.StopHoldsIffOpened | internal/watcher/namespace.go:228-349 | after a Stop the NamespaceWatcher never runs again if and only if it has executed setRunning(true) |
| NamespaceObjects.NamespaceWatcher.AllowsNamespace | internal/watcher/namespace.go:183-208 | the branches of the source decide exactly the policy |
| NamespaceObjects.NamespaceWatcher.AddWatcher | internal/watcher/namespace.go:352-363 | a fresh CrdWatcher under the namespace, or an error and no change if there is one |
| NamespaceObjects.NamespaceWatcher.StartCrdWatcher | internal/watcher/namespace.go:405-429 | the watcher started and the wait group raised; both metrics raised even when there is no watcher |
| NamespaceObjects.NamespaceWatcher.RemoveWatcher | internal/watcher/namespace.go:365-380 | the watcher stopped, its key deleted, the gauge lowered; an error and no change for an unknown namespace |
| NamespaceObjects.NamespaceWatcher.StopAll | internal/watcher/namespace.go:323-330 | every watcher of the map stopped once and the map emptied, in any order |
| NamespaceObjects.NamespaceWatcher.CleanUp | internal/watcher/namespace.go:382-396 | on the objects: a key stays if and only if its CrdWatcher was running, and then the watcher is untouched; every other one is stopped once more; the gauge stays |
| DeploymentLoop.DeploymentWatcher.Start | internal/watcher/deployment.go:162-211 | the fields, outcome, log and trace of the loop are those of the specification function Run on every script |
| DeploymentLoop.DeploymentWatcher.Select | internal/watcher/deployment.go:174-199 | one select: a disabled tick skips, an enabled one requests the larger of a draw up to max and min, truncated to int32, unless the negative max makes the draw panic |
| DeploymentRuns.RunRefinesLeaf | internal/watcher/deployment.go:162-211 | every interleaving of the loop is a behaviour of the leaf automaton with the same settings, ends with the same settings and flag, and Start has returned exactly when the automaton has exited |
| DeploymentRuns.RunActs | internal/watcher/deployment.go:213-235 | the automaton's disruptions are the scale requests of the log |
| DeploymentRuns.AtMostOneRequestAfterStop | internal/watcher/deployment.go:280-294 | after a Stop that follows setRunning(true) at most one more scale request is sent, in every interleaving |
| DeploymentRuns.AtMostOneRequestAfterDisable | internal/watcher/deployment.go:176-180 | after a SetEnabled(false), at any time and not revoked, at most one more scale request is sent |
| DeploymentRuns.TicksAreVolleys | internal/watcher/deployment.go:173-189 | for every n there are n undisturbed rounds with n requests, and their trace is the automaton's |
| DeploymentRuns.EarlyStopIsLostHere | internal/watcher/deployment.go:167-180 | for every n a run of Start that is stopped before setRunning(true), and called no more, sends n requests |
| DeploymentRuns.AloneRequestsIff | internal/watcher/deployment.go:173-180 | left alone at its head check, the loop sends a request in some continuation if and only if it is running, enabled and has a max to draw from |
| DeploymentRuns.ErrorIffFiveInARow | internal/watcher/deployment.go:170-205 | Start returns its error if and only if the answers end in five consecutive failures, this is the first such window, and skipped ticks and wake-ups neither count nor reset |
| DeploymentRuns.RequestWithinConfigurations | internal/watcher/deployment.go:180 | with every configuration in force satisfying 0 <= min <= max below 2^31, whatever setters interleave, there is no panic and the request lies between the least min and the greatest max |
| DeploymentRuns.UndisturbedRequest | internal/watcher/deployment.go:175-189 | without interleaved setters an enabled tick requests a count in [min, max] |
| DeploymentRuns.RequestIsDrawOrMin | internal/watcher/deployment.go:180 | for any min and a max to draw from it requests the min, or a count between min and max |
| DeploymentRuns.ToInt32Wraps | internal/watcher/deployment.go:222 | the conversion keeps the count modulo 2^32 and lands in the range of int32 |
| DeploymentRuns.LogAnswersScript | internal/watcher/deployment.go:174-199 | over every run the k-th log entry answers the k-th wake-up: a skip if the tick finds the watcher disabled, else the larger of draw and min as an int32 with the answer of that tick, and a mere wake-up for the rest |
| DeploymentRuns.BodyAnswersWake | internal/watcher/deployment.go:174-199 | the same for one select, which panics if and only if an enabled tick finds a negative max |
| DeploymentRuns.EveryRoundIsAnswered | internal/watcher/deployment.go:173-211 | a loop that goes on has answered every round, and it returns with the first head check that finds Running false |
| DeploymentRuns.OnlyContextEndsLoop | internal/watcher/deployment.go:190-195 | the end of the context clears Running, the wake-up does not, and a tick only lets calls of Stop through |
| DeploymentRuns.EveryCountIsRequested | internal/watcher/deployment.go:180 | and every count in that range can be requested |
| DeploymentRuns.InRangeIffMaxFits | internal/watcher/deployment.go:213-224 | all draws give a count in [min, max] if and only if max fits an int32 |
| DeploymentRuns.NeverNewMaxWithOldMin | internal/watcher/crd.go:596-600 | a tick during one reconfiguration requests from the old pair, the new pair, or the old max with the new min, never from the new max with the old min |
| PodLoop.PodWatcher.Start | internal/watcher/pod.go:165-266 | the fields, outcome, log and trace of the loop are those of the specification function Run on every script |
| PodLoop.PodWatcher.RemovePodFromList | internal/watcher/pod.go:320-332 | what stays is the list at an ascending choice of positions, exactly those of the pods with another name; the counter and the gauge set |
| PodLoop.DeleteByName | internal/watcher/pod.go:325-328 | one pass leaves exactly the pods with another name, as often as before and in the same order |
| PodLoop.FilteredIsWithout | internal/watcher/pod.go:325-328 | only one sequence is left over in this way |
| PodLoop.PodWatcher.GetRandomPod | internal/watcher/pod.go:334-342 | an error if and only if the list is empty, otherwise a member of it |
| PodRuns.RunRefinesLeaf | internal/watcher/pod.go:165-266 | every interleaving, a failed first watch included, is a behaviour of the leaf automaton with the same settings and stock, and ends with the same |
| PodRuns.AtMostOneKillAfterStop | internal/watcher/pod.go:269-286 | after a Stop that follows setRunning(true) at most one more delete request is sent |
| PodRuns.AtMostOneKillAfterDisable | internal/watcher/pod.go:225-229 | after a SetEnabled(false), at any time and not revoked, at most one more delete request is sent |
| PodRuns.EarlyStopIsLostHere | internal/watcher/pod.go:185-240 | for every n a run of Start that is stopped before setRunning(true), and called no more, sends n requests |
| PodRuns.AloneKillsIff | internal/watcher/pod.go:188-240 | left alone at its head check, the loop sends a request in some continuation if and only if it is running and enabled |
| PodRuns.PodListIsSurvivors | internal/watcher/pod.go:309-360 | over every run the list is, in order and with duplicates, the pods added since the last restart without a later deletion of the same name; every victim was in it; podsActive is its length just after the last addition or removal |
| PodRuns.LogAnswersScript | internal/watcher/pod.go:189-259 | over every run the k-th log entry answers the k-th wake-up: an arrival is listed, a departure dropped, a closed watch clears the list, and a tick sends a delete request for a pod of the list, with the answer of that tick, if and only if it finds the watcher enabled and the list not empty |
| PodRuns.EveryPodCanBeKilled | internal/watcher/pod.go:334-342 | every pod of the list can be the victim |
| PodRuns.EveryRoundIsAnswered | internal/watcher/pod.go:188-265 | a loop that goes on has answered every round, and it returns with the first head check that finds Running false |
| PodRuns.OnlyTheseEndLoop | internal/watcher/pod.go:189-223 | the end of the context, an error event and a failed reopening clear Running, and nothing else but a call of Stop does |
| PodRuns.FailedIsLastWord | internal/watcher/pod.go:193-265 | Start returns an error if and only if the last error event or closed watch that it has handled says so |
| PodRuns.FailedFirstWatch | internal/watcher/pod.go:171-179 | a first watch that cannot be opened makes Start return its error at once |
| PodRuns.CountersCountEvents | internal/watcher/pod.go:316-331 | the two counters count the additions and removals |
| PodRuns.SurvivorsStep | internal/watcher/pod.go:320-352 | a deletion takes exactly the pods of that name from the survivors, a restart takes all |
| PodRuns.ActiveGaugeRightIff | internal/watcher/pod.go:309-352 | over every run podsActive is the length of the list if and only if no restart of the watch came after the last addition or removal, or that had left the list empty |
| AntiHpaTree.Insert | internal/watcher/antihpa.go:170-182 | in place, smaller strictly left, equal or greater right, and the tree reads in order as before with the entry placed in it |
| AntiHpaTree.PlacedIsPermutation | internal/watcher/antihpa.go:170-182 | placing an entry keeps all others and adds exactly this one |
| AntiHpaTree.SortedIsPermutation | internal/watcher/antihpa.go:198-217 | the finished tree holds every entry as often as the listing does |
| AntiHpaTree.GetMostUsedCpu | internal/watcher/antihpa.go:184-195 | the end of the right spine is the last entry in order |
| AntiHpaTree.SortedEndsInScan | internal/watcher/antihpa.go:197-227 | the last entry in order is what one linear scan of the listing finds |
| AntiHpaTree.ScanFindsLastMaximum | internal/watcher/antihpa.go:197-227 | the scan finds the last entry with maximal CPU |
| AntiHpaTree.GetMostUsedPod | internal/watcher/antihpa.go:197-227 | by positions in the listing: an error and no change if and only if no container has a CPU and a memory quantity that convert; otherwise the pod of a converting container than which no converting one uses more CPU and every later one less, its CPU added to the metric |
| AntiHpaTree.UsagesNameBusiest | internal/watcher/antihpa.go:200-217 | the entries of the tree are the converting containers in listing order, so that a last maximum among them is such a container |
| AntiHpaTree.MostUsedPodNamesBusiest | internal/watcher/antihpa.go:219-226 | the function that the loop is specified with names the same pod |
| AntiHpaLoop.AntiHPAWatcher.Start | internal/watcher/antihpa.go:230-272 | the fields, outcome, log and trace of the loop are those of the specification function Run on every script |
| AntiHpaRuns.RunRefinesLeaf | internal/watcher/antihpa.go:230-272 | every interleaving is a behaviour of the leaf automaton with the same settings and timer, and ends with the same |
| AntiHpaRuns.AtMostOneKillAfterStop | internal/watcher/antihpa.go:275-281 | after a Stop that follows SetRunning(true) at most one more delete request is sent |
| AntiHpaRuns.AtMostOneKillAfterDisable | internal/watcher/antihpa.go:238-241 | after a SetEnabled(false), at any time and not revoked, at most one more delete request is sent |
| AntiHpaRuns.EarlyStopIsLostHere | internal/watcher/antihpa.go:233-258 | for every n a run of Start that is stopped before SetRunning(true), and called no more, sends n requests |
| AntiHpaRuns.AloneKillsIff | internal/watcher/antihpa.go:235-258 | left alone at its head check, the loop sends a request in some continuation if and only if it is running, enabled and its timer is armed |
| AntiHpaRuns.DisabledTickIsFinal | internal/watcher/antihpa.go:237-241 | with the timer unarmed, no script makes the loop send another request, whatever is enabled later |
| AntiHpaRuns.RequestPossibleIffArmed | internal/watcher/antihpa.go:235-269 | from the head of the loop a delete request follows in some continuation if and only if the timer is armed and the watcher is running |
| AntiHpaRuns.RunArms | internal/watcher/antihpa.go:230-272 | over every run of Start that is still running the timer is armed, and a request still possible, if and only if no tick has found the watcher disabled |
| AntiHpaRuns.DisabledOnceIsDisabledForGood | internal/watcher/antihpa.go:237-241 | a run of Start with one SetEnabled(false) before its first tick goes on running and sends no request under any later script |
| AntiHpaLoop.AntiHPAWatcher.Select | internal/watcher/antihpa.go:236-266 | for every listing: a tick that comes logs a delete request if and only if it finds the watcher enabled and the listing comes, with the answer of that tick and the pod of a busiest container, or no name if none converts |
| AntiHpaRuns.RequestNamesBusiestPod | internal/watcher/antihpa.go:246-258 | the number of delete requests of a tick that comes is one or none by the same condition, and each names the busiest pod of its listing |
| AntiHpaRuns.LogAnswersScript | internal/watcher/antihpa.go:236-266 | over every run the k-th log entry answers the k-th wake-up in this way |
| AntiHpaRuns.EveryRoundIsAnswered | internal/watcher/antihpa.go:235-271 | a loop that goes on has answered every round, and it returns with the first head check that finds Running false |
| AntiHpaRuns.OnlyContextEndsLoop | internal/watcher/antihpa.go:263-266 | the end of the context clears Running, and a tick only lets calls of Stop through |
| Health.Stack.Push | internal/endpoints/health.go:35-37 | the element goes to the end |
| Health.Stack.Pop | internal/endpoints/health.go:39-46 | the oldest element comes out, or an error if there is none |
| Health.PushCrds | internal/endpoints/health.go:77-80 | in any iteration order, the queue gains the nodes and the pops below the watcher |
| Health.CountWatchers | internal/endpoints/health.go:59-104 | the traversal terminates and counts exactly the non-nil nodes of the tree |
| Health.NodesOfFullTree | internal/endpoints/health.go:59-104 | without nil watchers that is 1 plus the sum over the CrdWatchers of 1 plus their children |
| Health.NodesOfTree | internal/endpoints/health.go:59-104 | in general it is 1 plus the sum over the non-nil CrdWatchers of 1 plus their non-nil children, and 0 for a nil root |
| Unstructured.PutIsLocal | internal/apis/v1/types.go:120-128 | a metadata write changes what it says about its own key and nothing else |
| Unstructured.HeaderReads | internal/apis/v1/types.go:120-128 | the metadata getters undo the setters, nil and empty maps kept apart, and a spec does not disturb them |
| ApiV1.ToUnstructured | internal/apis/v1/types.go:117-141 | the sequence of nested writes never fails and yields the header with one six-field spec |
| ApiV1.AcceptsIffWellShaped | internal/apis/v1/types.go:148-230 | FromUnstructured succeeds if and only if version and kind match and all six fields are present with the right type, and then reads exactly these, with ten minutes for a timeout that does not parse |
| ApiV1.RoundTrip | internal/apis/v1/types.go:117-230 | FromUnstructured undoes ToUnstructured on all metadata and spec fields |
| ApiV1.WritesBackIffOnlyCarried | internal/apis/v1/types.go:117-230 | ToUnstructured undoes FromUnstructured if and only if the object holds only carried metadata, the six spec fields and a canonical timeout |
| ApiV1Alpha1.WritesBackIffOnlyCarried | internal/apis/v1alpha1/types.go:36-143 | ToUnstructured undoes FromUnstructured if and only if the object holds only carried metadata and the six spec fields |
| Unstructured.HeaderRebuildsIffCarried | internal/apis/v1/types.go:120-128 | the setters undo the getters if and only if the object holds no metadata but the seven carried fields, each of its type |
| ApiV1Alpha1.ToUnstructured | internal/apis/v1alpha1/types.go:36-61 | the sequence of nested writes never fails and yields the header with one six-field spec |
| ApiV1Alpha1.AcceptsIffWellShaped | internal/apis/v1alpha1/types.go:68-143 | FromUnstructured succeeds if and only if version and kind match and all six fields are present with the right type, and then reads exactly these |
| ApiV1Alpha1.RoundTrip | internal/apis/v1alpha1/types.go:36-143 | FromUnstructured undoes ToUnstructured on all metadata and spec fields |
| Conversion.ConvertFromV1Alpha1ToV1 | internal/endpoints/conversion.go:91-134 | all objects converted in request order, or the error of the first that fails |
| Conversion.ConvertFromV1ToV1Alpha1 | internal/endpoints/conversion.go:136-167 | all objects converted in request order, or the error of the first that fails |
| Conversion.UpgradeKeepsFields | internal/endpoints/conversion.go:91-134 | an object converts up if and only if it has the shape of v1alpha1, and the result reads with the same metadata, flag, replica counts and deployment, killPod for pod mode and randomScale otherwise, and the parsed timeout or ten minutes |
| Conversion.DowngradeKeepsFields | internal/endpoints/conversion.go:136-167 | an object converts down if and only if it has the shape of v1, and the result reads with the same metadata, flag, replica counts and deployment, pod mode for killPod alone, and the printed timeout |
| Conversion.AlphaRoundTrip | internal/endpoints/conversion.go:91-167 | v1alpha1 to v1 and back writes the resource that was read with only its timeout changed, to its canonical print, ten minutes if it does not parse; what the resource does not carry is dropped |
| Conversion.AlphaRoundTripExactIff | internal/endpoints/conversion.go:91-167 | that way is the identity on the raw object if and only if the object holds nothing but carried metadata and the six spec fields, and its timeout is canonical |
| Conversion.V1RoundTripExactIff | internal/endpoints/conversion.go:91-167 | v1 to v1alpha1 and back is the identity on the raw object if and only if the object holds nothing but what is carried, its timeout is printed canonically and the mode is randomScale or killPod |
| Conversion.BatchRoundTripExactIff | internal/endpoints/conversion.go:91-167 | a v1alpha1 batch comes back as the raw objects it was if and only if each of them is such an object |
| Conversion.V1BatchRoundTripExactIff | internal/endpoints/conversion.go:91-167 | the same for a v1 batch |
| Conversion.SecondAlphaRoundTripIsIdentity | internal/endpoints/conversion.go:91-167 | a second round trip returns the very object of the first |
| Conversion.V1RoundTrip | internal/endpoints/conversion.go:91-167 | v1 to v1alpha1 and back writes the resource that was read with its mode collapsed, which is the resource itself if and only if the mode is randomScale or killPod |
| Conversion.BatchRoundTrip | internal/endpoints/conversion.go:91-167 | a batch that converts up converts down again, and position by position the resource as read loses only the spelling of its timeout |
| Conversion.V1BatchRoundTrip | internal/endpoints/conversion.go:91-167 | a batch that converts down converts up again, and every resource is unchanged if and only if all scaling modes are randomScale or killPod |

## Left out

- Kubernetes clients, the watch transport, contexts, event recorders and logging: their answers are parameters (`Get`, `ok`, `reopened`, `listing`) or labels that may come at any time.
- The Start methods of CrdWatcher and NamespaceWatcher as Dafny methods: several goroutines share their state, so these two loops are the program-counter machines `CrdProtocol` and `NamespaceProtocol`; the methods they call are class methods.
- Steps inside a critical section that nobody else can see are one step: the replacement of a leaf in modifyWatcher, and one key of a loop over a map. The setter calls of modifyWatcher are steps of their own. In the CrdWatcher's cleanUp the check and the deletion of a key are one step, because a leaf neither reads nor writes the map; in the NamespaceWatcher's they are two.
- A panic of rng.Intn ends the whole process; in the model only the leaf that panics stops, the others go on.
- In the automaton of a leaf the loop may write Running = false at any head check, although each loop has its own reasons for it.
- The mutex around the final stop loops is not modelled: the machines allow a call of Stop between two keys there, which is more interleavings than the source has.
- Calls that reach a DeploymentWatcher between its fifth failure in a row and its return.
- Liveness: no fairness is assumed. That a wait ends is proved as possible, for the CrdWatcher from every state, for the NamespaceWatcher in one run; that it must end, or that a tick comes, is not. Timers are armed or not; periods and timeouts have no duration.
- A deployment without a selector: addWatcher dereferences it before checking for nil, and modifyWatcher never checks; Get is taken to return one, and the name it was asked for need not be the name it returns.
- The label selectors handed to the factories, including the different ways in which addWatcher and modifyWatcher join them.
- Watch events whose object has an unexpected type in NamespaceWatcher and PodWatcher, where the type assertion panics.
- ForceStopChan of the leaves: it only wakes the loop up, so the wake-up is allowed at any time.
- Prometheus registration, histograms and event counters; kept are the spawned, active, pod and CPU metrics as integers.
- Integer width, except for the conversion to int32: max + 1 does not overflow.
- time.ParseDuration and Duration.String: a parser and a printer as parameters, with the hypothesis that a printed duration parses to itself. Quantity.AsInt64 is an optional integer.
- The apimachinery package of untyped objects is not part of this model: its accessors follow their documentation, error texts are placeholders, which fields the errors of FromUnstructured name is not stated, and an entry of managedFields is an opaque string.
- ServeHTTP and the review constructors in internal/endpoints/conversion.go, with the return that is missing after a failed v1 conversion at internal/endpoints/conversion.go:194-201, and ServeHTTP in internal/endpoints/health.go.
- UnmarshalJSON and MarshalJSON of the v1 spec, the generated clients and deepcopy files, configuration and main.
- Health.CountWatchers: counts a snapshot; the source reads the maps without taking the mutexes.
- slices.DeleteFunc is one pass that builds a new sequence; that the original shifts the pods inside the same array is not modelled.
