# A verified model of solarisbay's coordination code

Solarisbay runs a household assistant on one box with one graphics card. Several programs share that card, a
Home Assistant connection and a few files, and most of the trouble they can get into is coordination: a window on
the card that must be given back, a wish that must be answered once, a token that must never be lost, a block of
configuration that must not pile up. This project models those parts in Dafny and proves what they promise.

| files | what they model |
|---|---|
| `GpuLease`, `PolicyProxy`, `LeaseRuns` | the lease on the card: acquire, renew, take over, switch, release, expiry, deploy; the proxy that takes a window by itself; whole runs of all of it |
| `LeaseExchange`, `ModelGate`, `GateProtocol`, `BrokerRepeats`, `LostWishes`, `GateDrift`, `GiveBacks`, `KeeperTiming`, `KeeperBound` | the pod's gate and the host's broker over two single-slot files, and the keeper that renews |
| `WebSocket`, `WebSocketReader` | the RFC 6455 client: frames out, a buffered reader in |
| `Text`, `NotifyPatch`, `NotifyConvergence`, `NotifyContents` | the convergent patch of Home Assistant's `notify:` section |
| `ProjectTokens` | delegated tokens of projects, with a failure possible at every step |
| `Decimals`, `NumberWords`, `Ordinals` | German number words, ordinals and years |
| `Slugs`, `Autoloop`, `AutoloopRuns` | the git-ref lock of the autoloop and its names |
| `Trainer`, `TrainerRuns` | the wake-word training queue |
| `JsonStrings`, `AgentKit`, `SkillRoundTrip` | reading a catalog head and writing a skill that reads back |

Code that changes state in place is modelled by a class (`Box`, `Proxy`, `Broker`, `Lease`, `Connection`, `Acts`,
`Remote`, `Queue`, `Companion`) whose methods follow the source branch by branch and are proved equal to a function on
values; the properties are lemmas about those functions and about every run of them. One call of a source function is
one atomic step (a broker run and a session's wait are split where others can step in between), and everything outside
(the API's answers, replies lost, crashes, the clock, chunks on a socket) is a parameter that may take any value.

## What the proofs found

- **The environment of the card.** A step keeps the environment the standing mode prescribes exactly when it is none
  of the moves in `LeaseRuns.Hazard`: a direct move from `erweitert` to an exclusive window, any move from an exclusive
  window to a named mode, and a deploy inside an exclusive window. Two runs show the damage
  (`ExclusiveAfterExtendedStrandsVoice`, `NamedAfterExclusiveStrandsEverything`).
- **Expiry.** For an idle time of at least 120 s the timer of the automatic window fires after the idle time, or one
  second earlier when it is odd; between 2 and 119 s it fires late (`ExpiryWakeBelowTwoMinutes`).
- **The presets.** In every run, whoever acquires, a lease names nothing outside its own set, and a request is served
  exactly when its preset is allowed in the state it leaves. What fails is `foundry` under another household alias than
  "gemma-4-e4b": the look-up of its presets raises, and the mode can never be taken (`FoundryIsNeverTaken`).
- **The name `router`.** Nothing keeps a hand from acquiring under it. While hands leave the name alone, a window
  `router` holds ends half an hour after the last request served (`RouterKeepsTheHalfHour`); a hand that takes the name
  moves the timer by its own duration, and the half hour then holds exactly when that duration happens to give it.
- **The exchange.** A wish is lost in exactly two ways: replaced on the volume, or wiped by a write that tears, while no
  broker has it in hand; or so while one has it in hand, and then that run ends without an answer on file. A lost wish is
  never answered and its session gets nothing; any other can still be answered.
- **One change per wish.** Once the answer to a wish is on file the wish is left alone, as long as the file can be read
  whenever the broker is woken. A run that ends without getting it there, because the broker dies or because its last
  write fails, which is logged and no more, leaves the wish to be run again; a status file that cannot be read counts as
  no answer and does the same to an answered wish. The API is then asked for the change a second time, a second take or a
  second DELETE. It happens in no other way.
- **The held mode.** With all quiet the gate can hold a mode the last `ready` was not for: a session looks at its answer
  while a renewal for the mode held before is still unread, and the broker serves that renewal next. It is never a mode
  that was given back since, however often an answered give-back is run again: a give-back is written only while no
  session waits.
- **The give-back that is not asked for.** The keeper drops its mode before it writes the give-back. When that write
  fails, or when the gate restarts while it holds a mode, nothing asks for the give-back until a new session comes; only
  the box's timer ends the window.
- **A working session** keeps its window on every prompt run if and only if the two delays, seeing `ready` and delivering
  a renewal, make 270 s at most.
- **Project tokens.** The module's text says that no minted token can lack an entry. The code strands one in exactly two
  cases: the mint succeeded and its reply was lost, or the entry was not written and the server also refused to take the
  token back. Being killed between the mint and the finished entry comes to the same. A stranded token is out of reach of
  every later `add` and `remove`, and a torn entry makes every later one of its project fail. A `remove`
  that failed on the token file alone cannot be run again: the entry is already gone.
- **The autoloop lock** fails closed: a claim whose answer or release is lost, or whose loop is killed, stands for good
  and shuts its ticket out (`ExactlyTheseOrphan`, `OrphanedTicketIsNeverWorked`).
- **The training queue.** A status write that is lost when a run ends leaves a row running that nobody works on; the next
  claim makes it two.
- **Skills.** A description reads back exactly when it contains none of U+0085, U+2028 and U+2029, which the JSON writer
  leaves as they are and `splitlines` breaks at.

## Model

| member | source | states |
|---|---|---|
| GpuLease.ExpiryWakeWithinDeadline | templates/llama/post-deploy.py:1276-1286 | the timer never wakes past the deadline, and wakes after exactly two missed renewals when and only when the window is at least two minutes |
| GpuLease.ExpiryWakeIsTheIdleTime | templates/llama/post-deploy.py:1068-1075 | for every idle time of 120 s or more, the automatic window of one and a half idle times fires after the idle time, or a second earlier when it is odd |
| GpuLease.ExpiryWakeBelowTwoMinutes | templates/llama/post-deploy.py:1276-1286 | below 120 s the sixty-second floor makes the timer late, except for an idle time of 1 s |
| GpuLease.Box.constructor | templates/llama/post-deploy.py:837-866 | the household as installed: no lease, no timer, every leased unit up, voice on the GPU |
| GpuLease.Box.SetVoiceDevice | templates/llama/post-deploy.py:1208-1236 | moves the voice device and restarts, so starts, both voice units |
| GpuLease.Box.ScheduleExpiry | templates/llama/post-deploy.py:1289-1324 | arms exactly one timer, at the expiry wake from now |
| GpuLease.Box.CancelExpiry | templates/llama/post-deploy.py:1327-1332 | leaves no timer armed |
| GpuLease.Box.SetEnvironment | templates/llama/post-deploy.py:1467-1486 | stops what the wanted mode stops, starts what only the mode on its way out had stopped, and moves the voice stack when either of the two has it on the CPU |
| GpuLease.Box.LeaseAcquire | templates/llama/post-deploy.py:1335-1504 | the whole state after an acquire is `Acquire` of the state before: untouched when another holder but the router has it, the name is unknown, a preset of the mode is missing from the table or weights are missing; only holder, deadline and timer on a renewal; a fresh record, timer and environment otherwise; and the exit code of that verdict |
| GpuLease.FoundryNeedsTheDefaultAlias | templates/llama/post-deploy.py:219-231 | every preset a mode allows is in the preset table, which is built around the household alias, if and only if the mode is not `foundry` or that alias is "gemma-4-e4b" |
| GpuLease.TableHasEachOnce | templates/llama/post-deploy.py:367-381 | the preset table holds the household alias and the three other presets by name, each once |
| GpuLease.Box.LeaseRelease | templates/llama/post-deploy.py:1507-1545 | no lease and no timer afterwards, what the mode kept down started again; the lease goes even when the household preset does not answer |
| GpuLease.Box.RunDeploy | templates/llama/post-deploy.py:2328-2368 | a deploy starts the embeddings server and stops it again exactly when the standing mode has no room for it, and records the household preset anew when it can be written |
| LeaseRuns.AcquireKeepsAgreement | templates/llama/post-deploy.py:1335-1504 | an acquire keeps the environment the one the standing mode prescribes if and only if it is no taken move from `erweitert` to exclusive or from exclusive to a named mode |
| LeaseRuns.ReleaseRestoresHousehold | templates/llama/post-deploy.py:1507-1545 | from a prescribed environment, release ends in the household's, with no lease and no timer |
| LeaseRuns.StepKeepsAgreement | templates/llama/post-deploy.py:1372-1545 | of all events (hands, releases, proxy requests, time, deploys, proxy restarts) exactly the hazards break the agreement |
| LeaseRuns.DeployKeepsAgreement | templates/llama/post-deploy.py:2328-2359 | a deploy keeps the prescribed environment if and only if no exclusive window stands |
| LeaseRuns.EveryRunAgrees | templates/llama/post-deploy.py:1372-1545 | after every run without hazards batch units, embeddings server, router and voice device are exactly the standing mode's, and the household's when no lease stands |
| LeaseRuns.EnvironmentByMode | templates/llama/post-deploy.py:1425-1486 | unit by unit: after every run without hazards an exclusive window has nothing running, `erweitert` whisper, tts and llama with voice on the CPU, `foundry` and the household all six with voice on the GPU |
| LeaseRuns.AcquiredWindow | templates/llama/post-deploy.py:1372-1465 | an acquire that goes through leaves a window of the caller's, renewed and armed now; one newly taken is in the mode the name stands for today and promises "qwen3.8-27b" for `coding`, "qwen3.6-35b-a3b" for `thinking`, "gemma-4-12b" for `foundry` and nothing else; a renewal leaves mode, allowed set, alias and start |
| LeaseRuns.ExclusiveAfterExtendedStrandsVoice | templates/llama/post-deploy.py:1507-1520 | `erweitert`, then exclusive, then release leaves voice on the CPU with no lease |
| LeaseRuns.NamedAfterExclusiveStrandsEverything | templates/llama/post-deploy.py:1467-1486 | exclusive, then `foundry`, then release leaves every unit down with no lease, if and only if the household alias lets `foundry` be taken |
| LeaseRuns.StrangersLeaveTheBoxAlone | templates/llama/post-deploy.py:1372-1408 | an acquire against a window that neither the caller nor the router holds changes lease, timer and environment not at all |
| LeaseRuns.HolderChangesAtMostOnce | templates/llama/post-deploy.py:1355-1408 | within one window the holder changes at most once, and only from `router` to somebody else |
| LeaseRuns.EveryRunIsModeSound | templates/llama/post-deploy.py:1816-1845 | in every run, whoever acquires, a lease's allowed set is its mode's and within the preset table, and an exclusive lease allows and names nothing |
| LeaseRuns.StepKeepsPolicySound | templates/llama/post-deploy.py:1833-1845 | no step, whoever acquires, leaves a lease that names a preset outside its set |
| LeaseRuns.EveryRunIsPolicySound | templates/llama/post-deploy.py:1816-1845 | in every run, whoever acquires, a lease's alias is empty or in its allowed set |
| LeaseRuns.FoundryIsNeverTaken | templates/llama/post-deploy.py:1409-1419 | under another household alias than "gemma-4-e4b" no run ever has a `foundry` window, and an acquire for one changes nothing and exits with 1 |
| LeaseRuns.ForwardedPresetsAreAllowed | templates/llama/post-deploy.py:1952-2024 | in every run, whoever acquires, a request is forwarded if and only if the preset it names is allowed in the state it leaves behind; that preset is what the lease then names; an exclusive window forwards none and is not touched |
| LeaseRuns.RequestsInPlainWords | templates/llama/post-deploy.py:1952-2024 | from every state: with no lease the household's own preset is forwarded and nothing changes, whatever weights are there; another takes `erweitert` as `router` if the table has it and its weights are there, and is refused with nothing changed otherwise; with a lease its allowed set decides; a request naming no preset is forwarded and changes nothing |
| LeaseRuns.RequestsByMode | templates/llama/post-deploy.py:1816-1830 | in every run the presets forwarded are "gemma-4-e4b" and "gemma-4-12b" under `foundry`, the four of the table under `erweitert`, none under an exclusive lease |
| LeaseRuns.RouterWindowExpiry | templates/llama/post-deploy.py:1289-1324 | in every run, whoever acquires, a window's timer is the expiry wake of the last acquire that went through; armed by the proxy it fires more than 1740 s and at most 1800 s after the last request served |
| LeaseRuns.NamedHandsLeaveTheProxyTheClock | templates/llama/post-deploy.py:1944-1984 | while hands leave the name `router` to the proxy, a window `router` holds was armed last by the proxy |
| LeaseRuns.RouterKeepsTheHalfHour | templates/llama/post-deploy.py:1944-1984 | so while `router` keeps the window its timer fires more than 1740 s and at most 1800 s after the last request served |
| LeaseRuns.HandMovesTheRoutersClock | templates/llama/post-deploy.py:1974-1984 | a hand that acquires as `router` within a minute of the proxy sets the timer by its own duration, the next request served leaves it, and the half hour holds if and only if that duration happens to give it |
| LeaseRuns.EveryWindowIsOnTheTimer | templates/llama/post-deploy.py:1289-1324 | in every run a lease stands exactly when a timer is armed, never past the deadline nor past two missed renewals |
| LeaseRuns.SilenceGivesTheCardBack | templates/llama/post-deploy.py:1062-1075 | left alone for as long as it was armed, every window ends with the household's environment back; armed by the proxy, after half an hour |
| LeaseRuns.HouseholdStarts | templates/llama/post-deploy.py:837-866 | the installed box satisfies all these invariants |
| PolicyProxy.Proxy.TakeExtended | templates/llama/post-deploy.py:1944-1950 | takes or renews `erweitert` as `router` and moves the renewal clock whether or not that worked |
| PolicyProxy.Proxy.ModeFollows | templates/llama/post-deploy.py:1952-1972 | true only for a preset the router serves that the standing window allows, or that the household's box could switch to; only the latter changes anything |
| PolicyProxy.Proxy.RenewIfOurs | templates/llama/post-deploy.py:1974-1984 | renews only the router's own window and at most once a minute |
| PolicyProxy.Proxy.NotePreset | templates/llama/post-deploy.py:1833-1845 | the standing lease names the preset served; without a lease nothing changes |
| PolicyProxy.Proxy.DoPost | templates/llama/post-deploy.py:1998-2024 | the reply and the whole new state of a request: passed with nothing changed when it names no model; else allowed as it stands, or by taking `erweitert`, renewed at most once a minute and noted |
| LeaseExchange.ReadyMeansTheWindowStands | templates/pi-web/post-deploy.py:230-244 | a wish for a mode is answered `ready` if and only if the API answered the take with 200 and `ready` or no state, or was still switching (202, or 200 with another state) and a later poll was 200 `ready` with no 200 `none` before it; `held` if and only if the take got 409 or 200 `held`; an error in every other case |
| LeaseExchange.ReleasedMeansGone | templates/pi-web/post-deploy.py:488-512 | a give-back is answered `released` if and only if it got no 409 and some poll was 200 `none`; `held` if and only if it got 409; else an error |
| LeaseExchange.HandledIsAnswered | templates/pi-web/post-deploy.py:515-574 | the answer to a wish carries its id and mode in a final state, `ready` only for a wish for a mode, and once read on file makes another run leave it alone |
| LeaseExchange.RunsAgainUnlessSeen | templates/pi-web/post-deploy.py:416-430 | after a run on a wish, whatever was on file before, the next run leaves it alone if and only if the status file can be read and the answer got there, or both writes left an earlier answer untouched |
| LeaseExchange.EveryWishAsksOnce | templates/pi-web/post-deploy.py:433-512 | the calls of a wish are one that asks for the change, the right one, and then only questions; an unknown wish makes none |
| LeaseExchange.Broker.AcquireWindow | templates/pi-web/post-deploy.py:433-486 | one POST, then exactly as many questions as it takes to settle; the result is the one the answers imply |
| LeaseExchange.Broker.ReleaseWindow | templates/pi-web/post-deploy.py:488-512 | one DELETE, then exactly as many questions as it takes to settle; the result is the one the answers imply |
| LeaseExchange.Broker.WriteStatus | templates/pi-web/post-deploy.py:416-430 | the status file holds the record, is torn or is as before |
| LeaseExchange.Broker.Run | templates/pi-web/post-deploy.py:515-574 | a wish without an answer that can be read makes exactly its calls, whatever its two status writes come to, and leaves the status those writes imply; otherwise neither the status file nor the API is touched |
| LeaseExchange.Broker.RunTwice | templates/pi-web/post-deploy.py:515-574 | with its answer on file and readable, two runs in a row make exactly the calls of one, the second none; otherwise the second makes its calls again |
| ModelGate.AnswersAreOnesOwn | pi-web/pi_model_gate.py:411-446 | a wait ends with an answer if and only if a look less than 240 s after its start finds one under the waiter's own id that is `ready`, `held` or `error`, and then with the first such |
| ModelGate.Lease.Write | pi-web/pi_model_gate.py:388-409 | the single request slot holds this wish, is torn or is as before, and whether it worked |
| ModelGate.Lease.Acquire | pi-web/pi_model_gate.py:422-446 | a wish that could not be written is not waited for; else the answer is the first settling one under the wish's own id before the deadline; mode and renewal clock move only on `ready` |
| ModelGate.Lease.Renew | pi-web/pi_model_gate.py:448-453 | the renewal clock moves whether or not the wish for the held mode can be written |
| ModelGate.Lease.Release | pi-web/pi_model_gate.py:455-461 | no mode is held; the give-back of the one that was is on the volume if and only if its write succeeded |
| ModelGate.Lease.Tick | pi-web/pi_model_gate.py:467-489 | renews, gives back or waits as decided, and goes on when the write fails; a mode is dropped only with nothing in flight and nobody seen for 300 s, and its give-back is then on the volume if and only if its write succeeded |
| ModelGate.Lease.PostBegins | pi-web/pi_model_gate.py:517-521 | an arriving request is seen and counted in |
| ModelGate.Lease.PostEnds | pi-web/pi_model_gate.py:521-526 | and counted out, once |
| GateProtocol.EveryRunIsSound | pi-web/pi_model_gate.py:388-446 | under every interleaving of waits, renewals, overwrites, broker runs, failing writes, unreadable answers, broker deaths and gate restarts the files, answers, sessions and the gate's mode stay consistent |
| GateProtocol.AnswersBelongToTheirWaiter | pi-web/pi_model_gate.py:411-446 | an answer a session reads carries its own wish's id and mode, and the broker gave it |
| GateProtocol.ModeOnlyAfterReady | pi-web/pi_model_gate.py:422-446 | a held mode was answered `ready` to a wish for that very mode |
| GateProtocol.NoWishIsAnsweredTwice | templates/pi-web/post-deploy.py:515-574 | only a wish that a broker was started on over an answer it could not read gets two final answers on file, however often the broker wakes, dies or fails to write |
| GateProtocol.AnsweredWishIsLeftAlone | templates/pi-web/post-deploy.py:523-529 | waking the broker on a wish whose answer is on file changes nothing if and only if the file can be read, in every run in which it could be read so far; else the broker starts on the wish again |
| GateProtocol.BrokerStepsAreARun | templates/pi-web/post-deploy.py:515-563 | the three steps of a broker, nothing between, are one run of it: same status file, one change or none |
| GateProtocol.KeeperStepsAreTicks | pi-web/pi_model_gate.py:467-480 | the keeper's steps write the wish and leave the mode that its tick decides |
| GateProtocol.SessionStepsAreAWait | pi-web/pi_model_gate.py:422-446 | a session's start and look are one wait: same wish, same answer, the mode taken on `ready` |
| BrokerRepeats.StartedBeforeMeansUnanswered | templates/pi-web/post-deploy.py:523-541 | when a broker is about to be started on a wish, it was started on before if and only if a run on it ended without an answer on file or its answer is passed over unread, and its change was asked for before if and only if a run ended so after asking or answered; a `preparing` status for it means there was one |
| BrokerRepeats.StepRepeatsExactly | templates/pi-web/post-deploy.py:515-574 | a step asks the API a second time for the change of a wish if and only if a run that asked for it ended without an answer on file, or its answer was passed over unread |
| BrokerRepeats.OneChangePerWish | templates/pi-web/post-deploy.py:515-574 | in every run the API is asked at most once for the change of each wish if and only if no broker asks on a wish that a run asked for and ended on without an answer on file, or whose answer was passed over unread |
| BrokerRepeats.OneAnswerPerWish | templates/pi-web/post-deploy.py:515-574 | in every run each wish gets at most one final answer on file if and only if no run started over an unread answer gets its own there |
| BrokerRepeats.UnreadAnswerIsGivenAgain | templates/pi-web/post-deploy.py:566-574 | from every state of a run with the answer to a wish on file and the broker idle, a wake that cannot read it asks for the change again and answers again |
| BrokerRepeats.UnansweredRunRepeatsItsChange | templates/pi-web/post-deploy.py:416-574 | from any state, a broker that dies after its call, or whose last write fails, and is started again asks twice, for a take and for a give-back alike |
| LostWishes.ExactlyTheseLose | pi-web/pi_model_gate.py:388-409 | a step loses a wish if and only if it replaces or wipes the unanswered wish that no broker has in hand, or ends without an answer on file the run that has it in hand after it was replaced or wiped |
| LostWishes.AnswerableMeansNotLost | templates/pi-web/post-deploy.py:515-563 | in every run a written wish is answered by the run in hand and one more, their writes succeeding, if and only if it is not lost |
| LostWishes.LostStaysLost | pi-web/pi_model_gate.py:388-446 | a lost wish is lost in every later run, and a session waiting for it gets nothing |
| LostWishes.OverwrittenWishesAreNeverAnswered | pi-web/pi_model_gate.py:388-446 | from the step that loses a wish on, in whatever run, the wish stays unanswered and the session that wrote it ends with nothing |
| LostWishes.TwoSessionsLoseAWish | pi-web/pi_model_gate.py:388-409 | two sessions in a row, the broker asleep, lose the first one's wish |
| GateDrift.ExactlyTheseDrift | pi-web/pi_model_gate.py:422-453 | a step leaves the gate with a mode the API's last `ready` was not for and no session about to learn of it, if and only if the API says `ready` to a wish for another mode that nobody waits for, or the one session that waits for such a `ready` times out or reads a later other answer, or a session takes its mode after a `ready` for another that nobody waits for |
| GateDrift.ExactlyTheseGoStale | pi-web/pi_model_gate.py:422-453 | a renewal for another mode than the one held comes to be served if and only if a session looks at its `ready` while the keeper's renewal for another mode is still unread, or in hand behind a status that could not be written, or a broker is started on an answered one whose answer was passed over unread |
| GateDrift.StaleRenewalDrifts | pi-web/pi_model_gate.py:422-453 | such a renewal, once the API says `ready`, is such a drift, whether or not the answer gets on file |
| GateDrift.LateLookDrifts | pi-web/pi_model_gate.py:422-453 | from every quiet state with a mode held: a session's wish for another is answered, the keeper renews, the session looks, the renewal is served, and all is quiet with the gate and the last `ready` apart |
| GateDrift.GateCanDrift | pi-web/pi_model_gate.py:422-453 | and that state is reached from empty files |
| GiveBacks.HeldModeWasNotGivenBack | pi-web/pi_model_gate.py:455-480 | in every run, while a mode is held no give-back is on the volume or in hand, and the API was asked for none since the `ready` that set the mode |
| GiveBacks.EveryRunGivesBackAlone | pi-web/pi_model_gate.py:455-480 | a give-back is on the volume or in hand, answered or not, only while no mode is held and no session waits for an answer already on file; and none was asked for since an answer a session is about to read |
| GiveBacks.UnwrittenGiveBackIsNeverAsked | pi-web/pi_model_gate.py:455-489 | after a give-back that could not be written, until a new session comes no wish is written and the API is asked for no give-back, whatever else happens |
| GiveBacks.RestartedGateNeverAsks | pi-web/pi_model_gate.py:362-380 | the same after a restart of the gate while it holds a mode, which only its memory knew |
| KeeperTiming.InFlightCountsTheInside | pi-web/pi_model_gate.py:517-526 | the counter is always the number of requests inside the door |
| KeeperTiming.RenewalArmsWhenDelivered | pi-web/pi_model_gate.py:448-453 | a renewal a tick wrote is on its way until delivered, and arms the box's timer just then |
| KeeperTiming.GivesBackOnlyWhenIdle | pi-web/pi_model_gate.py:467-480 | in every run a tick gives the card back if and only if a mode is held, no request is inside and the last arrived at least 300 s ago |
| KeeperTiming.StepIsOnTime | pi-web/pi_model_gate.py:448-480 | with ticks at most 30 s apart, a renewal comes between 300 and 330 s after the one before |
| KeeperTiming.WorkingSessionKeepsItsWindow | pi-web/pi_model_gate.py:448-480 | while every tick finds somebody at work and visibility plus delivery stay within 270 s, renewals are under 330 s apart and the box's 600 s timer has not fired |
| KeeperBound.TooLateFires | pi-web/pi_model_gate.py:448-480 | for every two delays over 270 s in all there is a prompt run on which the timer has fired |
| KeeperBound.KeptExactlyWithin270 | pi-web/pi_model_gate.py:448-480 | the timer stays armed on every prompt run if and only if the two delays make 270 s at most |
| KeeperTiming.GraceOfTheGatesWindow | templates/llama/post-deploy.py:1276-1286 | the grace of the gate's 900 s window is 600 s |
| WebSocket.BigEndianRoundTrip | templates/solaris/post-deploy.py:4067-4078 | an extended length in network order reads back |
| WebSocket.LengthRoundTrip | templates/solaris/post-deploy.py:4089-4098 | every length form reads back as itself, its length and the bytes after it |
| WebSocket.LengthReadBack | templates/solaris/post-deploy.py:4089-4098 | and whatever is read as a length was written as one |
| WebSocket.MinimalIsShortest | templates/solaris/post-deploy.py:4070-4076 | the form a length is sent in: short up to 125, two bytes up to 65535, eight from there |
| WebSocket.XorIsBitwise | templates/solaris/post-deploy.py:4077 | the masking sum sets a bit exactly when the two bits differ |
| WebSocket.ClientFrameBytes | templates/solaris/post-deploy.py:4067-4078 | the frame byte by byte: 0x81, the mask bit with the shortest length form, the extended length in network order, the mask, and the masked payload (section 5.2 of RFC 6455) |
| WebSocket.MaskedBit | templates/solaris/post-deploy.py:4077 | masking flips in byte i of the payload exactly the bits set in mask byte i modulo 4 (section 5.3 of RFC 6455) |
| WebSocket.ClientFrameRoundTrip | templates/solaris/post-deploy.py:4067-4078 | for every payload below 2^63 bytes, every mask and every suffix, a server of sections 5.2 and 5.3 of RFC 6455 that insists on the minimal length form reads back the payload as one final text frame, and the suffix |
| WebSocket.ClientFrameIsTheOnlyEncoding | templates/solaris/post-deploy.py:4067-4078 | whatever such a server accepts as a final text message is a frame this client sends for that payload under some mask |
| WebSocketReader.ReceiveReadsTheMessage | templates/solaris/post-deploy.py:4089-4107 | for any fragments with pings anywhere between and any length forms: the message is the fragments joined, one pong per ping, and the bytes after the final frame are left (sections 5.2, 5.4 and 5.5.2 of RFC 6455) |
| WebSocketReader.ReceivedMessagesWereSent | templates/solaris/post-deploy.py:4089-4107 | a message delivered was on the line as the frames of one message, followed by what is left |
| WebSocketReader.AwaitFindsItsResult | templates/solaris/post-deploy.py:4047-4057 | messages with another id, with none, or that are no results are passed over, every ping among them answered; the command returns a result if and only if its own result message says success, and then the one that carries; it fails if and only if that says otherwise |
| WebSocketReader.PongIsAPong | templates/solaris/post-deploy.py:4100-4102 | what is sent for a ping is a final, masked, empty pong |
| WebSocketReader.Connection.ReadExact | templates/solaris/post-deploy.py:4080-4087 | the next `n` bytes of the stream however `recv` cuts it, the rest kept; nothing is lost when the stream ends early |
| WebSocketReader.Connection.ReadOne | templates/solaris/post-deploy.py:4089-4100 | one frame off the stream, in any of the three length forms |
| WebSocketReader.Connection.ReceiveMessage | templates/solaris/post-deploy.py:4089-4107 | what the stream comes to, independent of the chunks, one pong sent per ping, buffer and unread chunks together the bytes after it |
| WebSocketReader.Connection.Cmd | templates/solaris/post-deploy.py:4047-4078 | sends one frame under the next id and returns that id's result, failure or the loss of the connection |
| Text.SplitOfJoin | templates/solaris/post-deploy.py:4525-4558 | lines without line ends, joined with newlines, split into the same lines |
| Text.SplitFirstCrLf | templates/solaris/post-deploy.py:4533 | a carriage return and a newline end one line together |
| Text.BlanksAndLineEnds | templates/solaris/post-deploy.py:4485 | the blanks `strip` takes and the line ends `splitlines` breaks at, by code point |
| NotifyPatch.StripManagedNotify | templates/solaris/post-deploy.py:4479-4494 | exactly the lines outside managed blocks, or nothing when a block never ends |
| NotifyPatch.TopLevelNotifyIndex | templates/solaris/post-deploy.py:4497-4503 | the first column-0 `notify:` key, or -1 exactly when there is none |
| NotifyPatch.MergedBlockIsStripped | templates/solaris/post-deploy.py:4462-4494 | a merged block disappears again whatever its port, indent and what follows |
| NotifyPatch.StandaloneBlockIsStripped | templates/solaris/post-deploy.py:4549-4558 | a block of its own disappears again, whatever its port |
| NotifyConvergence.PatchConverges | templates/solaris/post-deploy.py:4525-4558 | for every source text, refused ones included, patching for one port and then another gives the text and outcome of patching once for the other |
| NotifyConvergence.OutsideLinesSurvive | templates/solaris/post-deploy.py:4479-4558 | every line outside managed blocks is kept in order, but for trailing empty lines when appending; a refused file stays as it is |
| NotifyConvergence.NeverASecondKey | templates/solaris/post-deploy.py:4525-4558 | an appended file has exactly one column-0 `notify:` key, a merged one as many as before |
| NotifyConvergence.EntryIsInsideTheSection | templates/solaris/post-deploy.py:4506-4522 | a merged block stands behind a line of content strictly inside the section of the existing key, which grows by exactly the block |
| NotifyContents.WrittenBlock | templates/solaris/post-deploy.py:4462-4477 | whenever a block is written it is, line by line, the marks, the key where there was none, and the ten lines of the entry spelled out with the port, at the list's indent or at two blanks |
| NotifyContents.BlockNamesOnePort | templates/solaris/post-deploy.py:4462-4477 | exactly one line of a block, stripped, is a resource line, and it names the port given |
| NotifyContents.PortLands | templates/solaris/post-deploy.py:4525-4532 | for every file that gets a block, two ports leave the same text if and only if they are the same port |
| NotifyContents.EntryJoinsTheList | templates/solaris/post-deploy.py:4506-4522 | a merged entry stands behind the last line of content of the section, only blank lines between it and the section's end, at the indent of the section's last list item |
| NotifyContents.OutcomeSays | templates/solaris/post-deploy.py:4525-4558 | unterminated if and only if a begin mark has no end mark behind it; of the lines outside, appended if and only if none is a `notify:` key; merged if and only if the first key has no value but a comment on its line and an item under it; foreign otherwise |
| ProjectTokens.Acts.RevokeToken | pi-web/pi_web_project.py:306-325 | the token is gone unless the server refused; true exactly when it said so |
| ProjectTokens.Acts.DelegateToken | pi-web/pi_web_project.py:285-303 | a fresh token for the project unless refused; handed out only when the reply came |
| ProjectTokens.Acts.WriteEntry | pi-web/pi_web_project.py:217-227 | the entry names the token, is torn, or is as before, and which |
| ProjectTokens.Acts.WriteTokenFile | pi-web/pi_web_project.py:234-246 | the token file holds the token, is torn, or is as before, and which |
| ProjectTokens.Acts.AddProject | pi-web/pi_web_project.py:328-377 | the whole world and outcome after `add`, failures included |
| ProjectTokens.Acts.RemoveProject | pi-web/pi_web_project.py:380-410 | the whole world and outcome after `remove`, failures included |
| ProjectTokens.AddAccountsForTokens | pi-web/pi_web_project.py:328-377 | from a world where every live token is named by its project's entry, `add` leaves one unnamed if and only if the mint's reply was lost, or the entry does not name it and the server refused to take it back |
| ProjectTokens.RemoveAccountsForTokens | pi-web/pi_web_project.py:380-410 | `remove` never leaves a live token unnamed, wherever it fails |
| ProjectTokens.AddedTokenIsTheProjectsOwn | pi-web/pi_web_project.py:328-377 | a successful `add` ends with one live token of the project, freshly minted, in its entry and in its file; other projects' entries are untouched |
| ProjectTokens.AddReports | pi-web/pi_web_project.py:328-377 | `add` succeeds if and only if the folder and the pod's token are there, the entry is readable, the token it names is revoked, a new one is handed out, and entry and file are written with their modes; it fails otherwise |
| ProjectTokens.RemoveReports | pi-web/pi_web_project.py:380-410 | `remove` says the project is not ours if and only if it has no entry; it succeeds if and only if every step does, and then the token, the entry and the file are gone and nothing else is; a refusal before the first step changes nothing |
| ProjectTokens.AtMostOneLivePerProject | pi-web/pi_web_project.py:328-377 | with every live token named, a project has at most one |
| ProjectTokens.EveryHistoryIsAccounted | pi-web/pi_web_project.py:328-410 | over every sequence of adds and removes with failures anywhere, but for those two cases, every live token is named |
| ProjectTokens.CleanRemoveLeavesNothing | pi-web/pi_web_project.py:380-410 | a `remove` without failures leaves no entry, no token file and nothing live of the project |
| ProjectTokens.FailedRemoveCanBeRetried | pi-web/pi_web_project.py:380-410 | a failed `remove` succeeds when run again if and only if it had not already dropped the entry |
| ProjectTokens.StrandedStaysStranded | pi-web/pi_web_project.py:328-410 | where entries name their own project's tokens, a stranded token stays live and unnamed under every later sequence of adds and removes |
| ProjectTokens.TornEntryBlocksItsProject | pi-web/pi_web_project.py:193-214 | a torn entry stays torn, and every later `add` and `remove` of its project fails and changes nothing |
| Decimals.DecimalRoundTrip | tts-martin/tts_normalizer.py:66-70 | the digits of a number read back as the number |
| NumberWords.ParseIsTheInverse | tts-martin/tts_normalizer.py:66-96 | a text is read as `n` if and only if it is the words of `n`, for every integer, negative and above a million included |
| NumberWords.NoTwoNumbersSoundAlike | tts-martin/tts_normalizer.py:66-96 | two integers have the same words only if they are the same |
| NumberWords.TableIsRegular | tts-martin/tts_normalizer.py:7-36 | from thirteen on the table is units with "zehn" and "zig", "sechs" and "sieben" cut short, "zwanzig" and "dreißig" apart |
| NumberWords.SomeNumbers | tts-martin/tts_normalizer.py:66-96 | 0, -1, 21, 100 and 1000 in full |
| Ordinals.OrdinalReplacesTheTail | tts-martin/tts_normalizer.py:99-116 | from 100 to 999,999 off the hundreds the cardinal ends in the words of its last two digits and the ordinal replaces just those; the fallback is never taken |
| Ordinals.TableIsRegular | tts-martin/tts_normalizer.py:38-60 | the table of ordinals is the cardinals with "ter" up to nineteen and "ster" from twenty on, but for the first, third, seventh and eighth |
| Ordinals.OrdinalsWithSter | tts-martin/tts_normalizer.py:99-116 | outside the table and on the hundreds below a million an ordinal is its cardinal with "ster"; from a million on the figure with a dot |
| Ordinals.OrdinalEndsInEr | tts-martin/tts_normalizer.py:99-116 | an ordinal ends in "er" if and only if the number is below a million |
| Ordinals.InflectedForms | tts-martin/tts_normalizer.py:119-130 | below a million the ordinal, its dative and its weak form are one stem with "er", "en" and "e" |
| Ordinals.YearsAreNumbers | tts-martin/tts_normalizer.py:133-138 | a year is said as the number it is, for every integer |
| Slugs.CollapsedIsHyphenated | pi-web/pi_autoloop.py:149-151 | replacing runs of other characters by hyphens and trimming is joining the words of the text with single hyphens |
| Slugs.SlugQualifies | pi-web/pi_autoloop.py:149-151 | a slug is the title's words with single hyphens, whole when they fit in 40 characters, else their first 40 less a hyphen at the end; `ticket` when there are none; never empty, no edge or doubled hyphen |
| Slugs.KeptIsAlphanumeric | pi-web/pi_autoloop.py:150 | what is kept are the letters a to z and the digits |
| Slugs.SkillNameQualifies | pi-web/pi_agent_kit.py:175-180 | a skill name is the id's words with single hyphens, whole when they fit in 64 characters, else their first 64 less a hyphen at the end; no edge or doubled hyphen; empty exactly when the id has no words |
| Slugs.QualifiedNameStays | pi-web/pi_agent_kit.py:175-180 | an id that already qualifies is its own name |
| Autoloop.ClaimsDiffer | pi-web/pi_autoloop.py:145-146 | two issues share a claim ref only if they are the same |
| Autoloop.MarkerFindsItsOwn | pi-web/pi_autoloop.py:154-166 | the marker of issue i matches a branch of issue j, under any title, if and only if i = j |
| Autoloop.MarkedByAnyTail | pi-web/pi_autoloop.py:154-166 | any branch that begins with the issue's marker counts, whatever follows it |
| Autoloop.OnlyBranchesMark | pi-web/pi_autoloop.py:413-417 | pushing a branch marks its own ticket as worked and no other; a claim marks none |
| Autoloop.ShaIsHexadecimal | pi-web/pi_autoloop.py:358-359 | a commit is forty lower-case hexadecimal digits |
| Autoloop.OffersAreTheOpenTickets | pi-web/pi_autoloop.py:737-747 | a pass tries for exactly the tickets not yet worked, in the repositories whose commit it knows |
| Autoloop.PassConcat | pi-web/pi_autoloop.py:734-756 | a pass over two lists of tickets goes on to the second only when it worked none of the first, from the refs that left |
| Autoloop.PassWorksTheFirstOpen | pi-web/pi_autoloop.py:734-756 | a pass works the first ticket whose claim it could be granted and no other, and leaves behind only claims whose answer or release was lost |
| Autoloop.AnsweredPassCleansUp | pi-web/pi_autoloop.py:734-756 | with no answer lost, a pass leaves the refs as it found them |
| Autoloop.Remote.AcquireClaim | pi-web/pi_autoloop.py:356-377 | granted exactly on a clean, answered create under a 40-digit commit; a lost answer leaves the ref and grants nothing |
| Autoloop.Remote.ReleaseClaim | pi-web/pi_autoloop.py:380-381 | the claim is gone unless the request never arrived |
| Autoloop.Remote.TryTicket | pi-web/pi_autoloop.py:742-756 | one ticket: skipped, refused, or claimed, worked and given back |
| Autoloop.Remote.ScanTickets | pi-web/pi_autoloop.py:742-756 | one repository's tickets in order, up to the first that is worked |
| Autoloop.Remote.Tick | pi-web/pi_autoloop.py:734-756 | one pass over all repositories: at most one ticket, the one and the refs that `Pass` says |
| AutoloopRuns.StepKeepsExclusive | pi-web/pi_autoloop.py:356-381 | every step of any loop, lost or late request and kill keeps the lock's invariant |
| AutoloopRuns.EveryRunIsExclusive | pi-web/pi_autoloop.py:356-381 | with any number of loops, lost and late messages and kills at any step, at most one loop is inside `work_ticket` for an issue, and the issue's claim stands while it is |
| AutoloopRuns.ClaimIsGrantedWhenFree | pi-web/pi_autoloop.py:356-377 | an idle loop whose answer comes gets the ticket if and only if no claim stands |
| AutoloopRuns.ExactlyTheseOrphan | pi-web/pi_autoloop.py:356-381 | a claim is left with nobody to give it back if and only if its create was unanswered or late, its delete never arrived, or its loop was killed |
| AutoloopRuns.OrphanedTicketIsNeverWorked | pi-web/pi_autoloop.py:356-381 | such a claim stands for good: no later run works its ticket |
| Trainer.OldestQueued | wakeword-trainer/trainer.py:121-127 | the first queued row, if any |
| Trainer.Queue.ClaimQueuedRun | wakeword-trainer/trainer.py:111-140 | the oldest queued run becomes running and is returned; nothing changes when there is none or the database is unavailable |
| Trainer.Queue.FinishRun | wakeword-trainer/trainer.py:143-166 | that run's row becomes done or failed, unless the database is unavailable |
| Trainer.Queue.FailOrphanedRuns | wakeword-trainer/trainer.py:169-194 | every running row becomes failed, unless the database is unavailable |
| Trainer.ReapFailsTheRunning | wakeword-trainer/trainer.py:169-194 | a reap fails exactly the running rows |
| Trainer.Companion.Perform | wakeword-trainer/trainer.py:197-210 | commands run until one fails or a stop is seen at either end of one; file work does not look |
| Trainer.WorkIsHonest | wakeword-trainer/trainer.py:197-210 | a run ends as stopped only after a stop signal, and a signal is not forgotten |
| Trainer.BuiltMeansAllWentThrough | wakeword-trainer/trainer.py:197-210 | a model is built if and only if no job failed and no command ended with a stop asked for |
| Trainer.Companion.Poll | wakeword-trainer/trainer.py:302-307 | past the stop flag, the claim is the step the run model takes |
| Trainer.Companion.WorkRun | wakeword-trainer/trainer.py:308-335 | a claimed run is worked, its end written, and the loop left exactly on a stop |
| Trainer.Companion.Round | wakeword-trainer/trainer.py:302-335 | one turn of the loop is a sequence of the run model's own steps: the look at the flag, the claim, a signal, the end |
| TrainerRuns.StepKeepsOrder | wakeword-trainer/trainer.py:111-194 | every step keeps the order of claims, database errors included |
| TrainerRuns.EveryRunClaimsInOrder | wakeword-trainer/trainer.py:111-140 | claimed ids strictly increase over every run, so no run is taken twice; a row has left `queued` exactly when it was claimed |
| TrainerRuns.EveryRunMovesForward | wakeword-trainer/trainer.py:111-194 | statuses only move queued, running, done or failed; rows are only added |
| TrainerRuns.FinishSaysHowItEnded | wakeword-trainer/trainer.py:308-335 | the row of the run in hand ends done if and only if the model was built; no other row changes |
| TrainerRuns.RestartBeginsFresh | wakeword-trainer/trainer.py:290-302 | a restart begins at the check with no stop asked for, the running rows failed and no other touched |
| TrainerRuns.StaysTidyUnlessAWriteIsLost | wakeword-trainer/trainer.py:143-194 | a step leaves a row running that nobody works on if and only if a finish or a needed reap could not be written |
| TrainerRuns.OneRunAtATime | wakeword-trainer/trainer.py:290-335 | with no status write lost, at most one row is running, and none after a clean stop or the startup reap |
| TrainerRuns.LostFinishLeavesTwoRunning | wakeword-trainer/trainer.py:143-166 | one lost finish, and two rows are running at once |
| JsonStrings.LoadsDumps | pi-web/pi_agent_kit.py:156-172 | every string written as JSON is read back as itself |
| JsonStrings.ShortEscapes | pi-web/pi_agent_kit.py:216 | the one-letter escapes as they are written, and the slash that is only read |
| JsonStrings.UnicodeEscapeReads | pi-web/pi_agent_kit.py:156-172 | every character of the first plane reads back from its `\uXXXX`, in either case |
| JsonStrings.SurrogatePairReads | pi-web/pi_agent_kit.py:156-172 | every character beyond it from the two of its surrogates |
| JsonStrings.NoClosingQuote | pi-web/pi_agent_kit.py:156-172 | escaped text without its closing quote is no JSON string |
| JsonStrings.EscapeEscapesQuotes | pi-web/pi_agent_kit.py:216 | every quote in escaped text stands behind a backslash |
| AgentKit.ParseFrontmatter | pi-web/pi_agent_kit.py:136-153 | the fields of the head and the body behind it, or no fields and the whole text |
| AgentKit.HeadLineSets | pi-web/pi_agent_kit.py:150-152 | a line `key:value` sets the stripped key to the stripped and unquoted value; an indented line or one without a key sets nothing |
| AgentKit.LeadingNewlinesGo | pi-web/pi_agent_kit.py:149 | the newlines in front of the body go, and nothing else |
| AgentKit.OtherScalars | pi-web/pi_agent_kit.py:156-172 | a value not in quotes is its own text; one in double quotes that is no JSON string loses just these |
| AgentKit.SingleQuotedReadsBack | pi-web/pi_agent_kit.py:156-172 | a scalar in single quotes reads back, doubled quotes inside it included |
| AgentKit.Clip | pi-web/pi_agent_kit.py:132-133 | at most `limit` characters, unchanged when it fits, else an ellipsis behind a start of the text without blanks at its end, and nothing but blanks lost within the limit |
| AgentKit.Before | pi-web/pi_agent_kit.py:194 | the text in front of the first separator |
| AgentKit.DescriptionSays | pi-web/pi_agent_kit.py:183-195 | the description is what stands in `whenToUse` in front of the first dash, or the title when nothing does, whole up to 300 characters |
| SkillRoundTrip.SkillReadsBack | pi-web/pi_agent_kit.py:198-222 | the written head reads back as exactly its name and its description, and the body as what follows, for every description free of U+0085, U+2028 and U+2029 |
| SkillRoundTrip.DescriptionReadsBackIff | pi-web/pi_agent_kit.py:136-222 | the description read back is the one written if and only if it is free of them |
| SkillRoundTrip.RenderedText | pi-web/pi_agent_kit.py:198-222 | the file in full: head, name, description as JSON, notice with the id, and the entry's body without the blanks at its end |
| SkillRoundTrip.RenderedSkillReadsBack | pi-web/pi_agent_kit.py:198-222 | a skill is rendered exactly when there is a description, which has at most 300 characters; its name qualifies; and it reads back as just those two fields, with the notice and the entry's body behind them, if and only if the description is free of the three line ends |

## Left out

- Steps inside one function: every source function is one atomic step, so read-modify-write races between processes (`note_preset` against a release, a request arriving while a tick decides) are not modelled.
- Writing the lease file and arming the timer are taken to succeed; `lease_acquire`'s branch for a lease that could not be written is not part of the model, nor are failures of `systemctl`.
- Who may release: `lease_release` releases for any caller; the ownership check is in the Engine, which is not part of this model.
- Reading the lease file and the recorded household preset is taken to succeed. A request that cannot be read is a wake that did not come, an answer a session cannot read a look that did not happen; only the broker's reading of the status file needs its own case. Files are read and written in one step.
- Clocks are reals and never jump back where a lemma says so; the boundaries of float arithmetic are not modelled. The embeddings port is taken as configured and the GPU as present.
- KeeperTiming.WorkingSessionKeepsItsWindow: a renewal that could not be written is one that was not delivered in time.
- Fairness: a wish that is not lost can be answered, but nothing says that a broker is started on it; nor that a ticket is worked in the end.
- The household alias of the preset table is one constant, the same for hands, broker and proxy: the units hand the script only DATA_DIR and its ports, so the table is built around the default "gemma-4-e4b" there. A shell that sets LLAMA_MODEL_ALIAS for one hand alone is not modelled; a deploy changes the recorded household preset, not the table.
- WebSocketReader.ReceiveReadsTheMessage: opcodes other than ping and close count as data and the mask bit of a server frame is ignored, because the code does the same; pongs are empty whatever the ping carried, so only their number is claimed.
- WebSocketReader.Connection.Cmd: JSON is a parameter (`encode`, `decode`); a message that is no JSON is not modelled, and neither are the handshake and the authentication in front of it.
- NotifyConvergence.EntryIsInsideTheSection: does not say that the entry is a sibling of the top-level items, because the code takes the last item indent of the section, which may be a nested list's.
- NotifyConvergence.PatchConverges: the port is taken to hold no line end; preservation is by line, because `splitlines` does not keep which line end a line had.
- Writing the patched file and the rest of the `post-deploy` scripts: configuration, manifests, units, downloads, labels and wording.
- ProjectTokens.Acts.AddProject: the project's `AGENTS.md`, name validation and the listing are left out; a file's mode is only there as one more way a write can fail.
- Numbers with decimals, units, currency, and the regular expressions that find numbers in a text.
- `str.lower` and Unicode case: slugs and skill names take text already in lower case.
- AutoloopRuns.EveryRunIsExclusive: "a ticket is worked at most once" is not claimed, because `already_worked` is asked before the claim and reads an API error as "not worked"; hand-deleted claims are outside the model.
- Autoloop.Remote.Tick: an exception out of `work_ticket` is not distinguished from a return, since the claim is given back either way; the work itself, the clone, the gates and the pull request are left out.
- Trainer.Companion.Perform: a command that cannot be started counts as one that fails; which commands provisioning and training run is left out.
- Timestamps, results and model paths of training rows; a second trainer on one box.
- JsonStrings.LoadsDumps: an escape that stands for a lone surrogate is rejected here, because the model's characters have none; Python reads it as a string that cannot be encoded.
- Which catalog entries become skills, pruning, and the kit stamp.
