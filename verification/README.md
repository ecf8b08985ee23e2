# Verification of the exam platform's core

A Dafny model of the parts of the platform whose correctness is hardest to see in the code: the
exam client's delivery protocol, the egress filter, the time zone conversions, the camera watch,
the load generator, the onboarding mail lock, the merge of coding answers and the reading of
subdomains. Apart from the counterexamples, every statement is for all inputs, all interleavings
or all runs.

Where the original updates references in place, the model has a class whose methods are proved to
take exactly the step a pure specification takes; the run theorems are about that specification.

| files | what they model |
|---|---|
| `ExamAnswers`, `ExamLink`, `ExamRuns` | the exam hook as a transition system: answer queue and saves in flight, socket factory and reconnection, runs |
| `ExamEffects`, `ExamRecovery` | what each event sends, keeps, schedules and resets; queued answers go out, connections fill the budgets again |
| `ExamQueues`, `ExamReconnect`, `ExamPage` | wake-ups and violation order, bounds on reconnecting, the runs the exam page can produce |
| `ExamServer`, `ExamSessions` | agreement with the server, session by session |
| `ExamSplit`, `ExamExhaust` | the run in which a split loses an answer; runs that use up the bounds |
| `ExamSocket`, `Heartbeat` | the hook as one object with its callbacks; the heartbeat watchdog |
| `Ipv4`, `Ipv6Text`, `Ipv6Spelling`, `Ipv6` | parsing and classifying addresses, all spellings of an address, the lookup filter |
| `Timezone`, `Calendar`, `WallClock` | the two-pass conversion over any offset function, `Date.UTC`, the same on texts |
| `Proctoring` | the detector's timers, counters and cooldowns over all histories of frames |
| `Benchmark`, `Percentiles` | the worker pool under every interleaving, and the order statistics |
| `Onboarding` | the set-if-absent lock around sending a mail |
| `CodingAnswers` | merging answers by language |
| `Subdomain`, `OrgUrls` | the two readers of subdomains; the URL built for an organisation, and what is read from it |
| `Bits`, `Text`, `Numbers`, `Wrappers` | 32-bit operators, string operations, small helpers |

## What the proofs found

- A batch that the server refuses as too large is split and emitted again without the staleness
  test of the timeout path. If a key of it was answered again meanwhile, its old value goes out
  last, and a timeout of the newer save then drops the newer value for good
  (`ExamSplit.SplitLosesNewestAnswer`). `ExamAnswers.SplitStaysFreshIff` says exactly when this
  happens; the no-loss and agreement theorems hold of every key it has not happened to.
- An answer acknowledged under one session id is not sent again when the exam moves to another:
  the record of the new session lacks it although nothing is queued or in flight
  (`ExamSessions.NewSessionLacksAnswer`). The record of a session was last written by the newest
  answer for exactly those settled keys whose last save went out in it
  (`ExamSessions.SessionHasItsOwn`).
- The hook can be called so that a manual retry comes before the session id is known. That can
  leave a queued answer on a live socket with no timer, let a violation overtake an older one, and
  let the client report a session as failed that had connected, or create a thirteenth socket; the
  last only if the exam-auth marker is missing when the effect runs, the branch that redirects to
  the login page. `ExamQueues.StepStaysAwake`, `ExamQueues.StepKeepsOrder`,
  `ExamReconnect.ActivatedLink` and `ExamReconnect.StepStaysConnected` say exactly which steps do
  it; `ExamQueues` and `ExamExhaust` have the runs. These are properties of the hook's interface
  that the page does not reach: it offers the retry only in status `failed`, and `ExamPage` proves
  that none of this happens in such runs.
- For the two-pass time zone conversion it is not enough that transitions are further apart than
  the spread of the offsets: the first guess may lie past another transition
  (`Timezone.SpreadAloneIsNotEnough`). It is enough that they are further apart than the spread of
  the offsets together with UTC, and `Timezone.RightIffNotMisjudged` gives the exact condition in
  between.
- The tests for `::` and `::1` are never reached: both are blocked as IPv4-compatible addresses.
- The lock of the onboarding mail is deleted by whoever fails, not by whoever set it: a worker
  that outlives the lock deletes another's (`Onboarding.SlowFailureReleasesAnothers`), and
  `Onboarding.FailureReleasesItsOwn` says exactly when it deletes its own. Even so the mail goes
  out at most once for each lock that expired and once more (`Onboarding.SentOncePerLock`).
- A label with an at sign makes the URL of another organisation (`OrgUrls.AtSignExample`);
  `OrgUrls.ParseInvertsBuild` says exactly which labels come back from the URLs built for them.
  The reader is named for hosts or URLs, but from a whole URL with an ordinary path it reads no
  organisation (`OrgUrls.OrdinaryUrlNamesNone`).
- The languages configured for a coding question order its menu but do not restrict it: the menu
  lists the languages that have a template or, with no template, all the editor knows
  (`CodingAnswers.MenuIgnoresConfigured`).
- The comment on the detector's phone cooldown speaks of two seconds; the code waits five, and the
  model follows the code. Likewise the multiple-faces rule has no cooldown of its own: it waits
  for the phone's.

## Environment

The environment of the exam client chooses connects, drops, errors, acknowledgements, time-outs,
rejections, token resolutions and user actions, in any order; code between two awaits or callbacks
is one step. When props change, the registered cleanup runs first, then the references that
mirror props are updated, then the main effect runs. Clocks, face counts and phone sightings,
lookups and their failures, formatter offsets and the sort of the samples are inputs.

## Model

| member | source | states |
|---|---|---|
| `ExamRuns.NewestAnswerNeverLost` | frontend/hooks/useExamSocket.ts:188-237 | in every run without a kick, the newest answer the user gave for a key is queued, or is in the last save of that key, which is in flight or acknowledged, or was finally rejected; side condition: no split batch put an older value over it since |
| `ExamServer.SettledAnswersAgree` | frontend/hooks/useExamSocket.ts:188-237 | in every run of client and server, over a network that loses, delays and stores without acknowledging, and through any changes of session, each key that is neither queued nor in flight has its last answer on the server, in the session its last save went out in; unless there was a kick, or since that answer a final rejection of it or a split that put an older value over it |
| `ExamSessions.SessionHasItsOwn` | frontend/hooks/useExamSocket.ts:188-237 | the record of a session was last written by the save of a settled newest answer exactly when that save went out in the session; otherwise it has no value for the key, or that of an earlier save |
| `ExamSessions.OneSessionAgrees` | frontend/hooks/useExamSocket.ts:188-237 | while the props bring one session id alone, its record has every settled answer |
| `ExamSessions.NewSessionLacksAnswer` | frontend/hooks/useExamSocket.ts:508-539 | a run in which an answer is stored and acknowledged, the session changes, and the client sits on a live socket with nothing queued or on its way while the record of the new session lacks the answer |
| `ExamAnswers.SplitStaysFreshIff` | frontend/hooks/useExamSocket.ts:219-227 | splitting a rejected batch leaves a key fresh exactly when the staleness test that the timeout path makes, and this path does not, would have passed |
| `ExamSplit.SplitLosesNewestAnswer` | frontend/hooks/useExamSocket.ts:219-227 | a reachable run in which the split puts an old answer over a new one and the new one is then neither queued, in flight, acknowledged nor reported as rejected |
| `ExamSplit.SplitPutsOldOverNew` | frontend/hooks/useExamSocket.ts:224-227 | the state after that split: the old value is emitted last and recorded as the latest sent |
| `ExamSplit.TimeoutDropsNew` | frontend/hooks/useExamSocket.ts:199-204 | after it, the timeout of the newer save requeues nothing |
| `ExamAnswers.EmitKeeps` | frontend/hooks/useExamSocket.ts:190-197 | emitting newest values, or old ones of a key whose newest value stays queued, keeps every key fresh and carried |
| `ExamAnswers.FlushKeeps` | frontend/hooks/useExamSocket.ts:334-338 | sending the whole queue as one batch loses no key |
| `ExamAnswers.QueueAnswerKeeps` | frontend/hooks/useExamSocket.ts:554-566 | a new answer supersedes what is queued, sent or in flight for its key and leaves all other keys alone |
| `ExamAnswers.UnansweredKeeps` | frontend/hooks/useExamSocket.ts:201-217 | a timed-out save goes back to the queue only where nothing newer is queued or was sent |
| `ExamAnswers.AckedKeeps` | frontend/hooks/useExamSocket.ts:199 | an acknowledgement closes its save and keeps every key |
| `ExamAnswers.RejectedKeeps` | frontend/hooks/useExamSocket.ts:221-235 | a rejection, split or final, keeps every key that is not put down as overtaken or rejected |
| `ExamAnswers.EmitEachKeeps` | frontend/hooks/useExamSocket.ts:225-227 | re-emitting a split batch key by key keeps each key that is not stale, and repairs the one whose save was just closed |
| `ExamAnswers.EmitEachSends` | frontend/hooks/useExamSocket.ts:225-227 | with a session the split emits one save for each key, in order, on the socket of the batch, and touches nothing else |
| `ExamAnswers.EmitEachQueues` | frontend/hooks/useExamSocket.ts:190-195 | without a session the split values go back to the queue and nothing is emitted |
| `ExamEffects.QueuedAnswerGoesOut` | frontend/hooks/useExamSocket.ts:205-216 | in every run, an answer that waits while a socket is live goes out on that socket by the next time the retry timer fires, as long as the socket stays live, and then nothing waits |
| `ExamEffects.QueuedAnswersCanGo` | frontend/hooks/useExamSocket.ts:205-216 | in every run that strands nothing, answers that wait on a live socket have their timer enabled, and its firing sends all of them as one batch |
| `ExamEffects.RetrySends` | frontend/hooks/useExamSocket.ts:208-215 | the retry timer empties the queue into one batch on the live socket with a session, emits nothing otherwise, and is off afterwards |
| `ExamEffects.ConnectSends` | frontend/hooks/useExamSocket.ts:334-353 | a connection with a session empties the answer queue into one batch and reports all held violations in order, as late ones; without a session it sends nothing |
| `ExamEffects.AnswerSends` | frontend/hooks/useExamSocket.ts:554-566 | an answer goes out alone, unbatched, on a live socket with a session, and otherwise waits; older ones of its key wait no more; after a kick nothing happens |
| `ExamEffects.TimeoutRequeues` | frontend/hooks/useExamSocket.ts:200-216 | after a time-out exactly the values that are still the last sent and not queued wait again, and the timer runs; after a kick nothing happens |
| `ExamEffects.RejectionSplits` | frontend/hooks/useExamSocket.ts:219-235 | exactly the batches of two answers or more refused for one of the two reasons are sent again, one save an answer, in order; any other refused save is closed |
| `ExamEffects.LinkLeavesAnswers` | frontend/hooks/useExamSocket.ts:523-535 | no connection event but a connect touches the answers or violations, except that the cleanup stops the retry timer |
| `ExamEffects.ViolationSends` | frontend/hooks/useExamSocket.ts:570-593 | a violation is reported at once on a live socket with a session, else held behind at most 199 others, else dropped, as after a kick |
| `ExamEffects.LiveMeans` | frontend/hooks/useExamSocket.ts:210-211 | live is the current socket while it is connected |
| `ExamEffects.GivenIsLast` | frontend/hooks/useExamSocket.ts:554-566 | the history the theorems speak of holds the last answer given in the run for each key |
| `ExamEffects.OvertakenIff` | frontend/hooks/useExamSocket.ts:224-227 | a key counts as overtaken exactly when the split leaves an older value as its newest |
| `ExamEffects.RejectedIff` | frontend/hooks/useExamSocket.ts:229-235 | a key counts as rejected exactly when its newest answer was refused for good, until another is given |
| `ExamEffects.AckedIff` | frontend/hooks/useExamSocket.ts:199 | acknowledged are exactly the saves the server said it saved |
| `ExamRuns.StepKeepsKey` | frontend/hooks/useExamSocket.ts:188-237 | every event of the client keeps the freshness and the carrier of every key |
| `ExamRuns.StepKeepsPayloads` | frontend/hooks/useExamSocket.ts:188-237 | every event keeps what is queued or sent within what the user gave |
| `ExamRuns.AtMostOneLiveSocket` | frontend/hooks/useExamSocket.ts:242-305 | in every reachable state every socket but the current one was disconnected and lost its handlers, and no two sockets are open |
| `ExamRuns.SupersededCallCreatesNothing` | frontend/hooks/useExamSocket.ts:268-287 | a factory call whose generation was superseded creates no socket, however the run goes on |
| `ExamRuns.KickIsFinal` | frontend/hooks/useExamSocket.ts:242-243 | after a kick no socket is ever created, every save emitted carries only answers that were queued at the kick, and of the violations held at the kick either none was reported or all were, in order |
| `ExamRuns.KickedStepTakesNothing` | frontend/hooks/useExamSocket.ts:554-571 | no event after a kick puts an answer or a violation into a queue, or sends one that did not wait |
| `ExamLink.FactoryStaysValid` | frontend/hooks/useExamSocket.ts:268-305 | every connection event keeps the current socket the only one not disconnected |
| `ExamLink.OnlyTokensCreate` | frontend/hooks/useExamSocket.ts:285-305 | a socket is created by the token of the newest generation without a kick, and by nothing else |
| `ExamLink.KicksAreFinal` | frontend/hooks/useExamSocket.ts:242-243 | a kick is never undone and generations never go back |
| `ExamLink.FactoryEffect` | frontend/hooks/useExamSocket.ts:242-305 | exactly which change each event makes to sockets, generation and waiting calls, and which events start a call |
| `ExamLink.InactiveStaysQuiet` | frontend/hooks/useExamSocket.ts:523-535 | with the main effect inactive there is no socket, no reconnect timer and no factory call that may still create a socket, until exactly a manual retry that starts a call behind its back |
| `ExamLink.LiveOnlyByConnecting` | frontend/hooks/useExamSocket.ts:308-313 | a socket becomes live only by its connect event |
| `ExamLink.LiveKeepsSession` | frontend/hooks/useExamSocket.ts:508-539 | a socket that stays live keeps its session, except exactly when the props change it while no cleanup is registered |
| `ExamLink.Factory.TearDownKeeps` | frontend/hooks/useExamSocket.ts:289-293 | superseding and tearing down leaves no other socket open and no call that may create one |
| `ExamLink.Factory.ResumeKeeps` | frontend/hooks/useExamSocket.ts:285-305 | a resumed factory call replaces the current socket or does nothing |
| `ExamLink.Factory.HeardKeeps` | frontend/hooks/useExamSocket.ts:308-467 | only the current socket is heard, and a change of its phase keeps it the only open one |
| `ExamQueues.QueuedAnswersHaveWakeUp` | frontend/hooks/useExamSocket.ts:205-216 | with a live socket, a session and no kick, queued answers have the retry timer armed: in every state of a run exactly when no step of it strands them, that is, brings the first session id to a socket that is live already, with answers queued and no timer |
| `ExamQueues.RetryBeforeSessionStrandsAnswer` | frontend/hooks/useExamSocket.ts:612-618 | a reachable run whose last step strands an answer: a retry before the session id is known leads to a live socket with a queued answer and no timer |
| `ExamQueues.ActiveRetriesNeverStrand` | frontend/hooks/useExamSocket.ts:612-618 | no step strands an answer in a run whose manual retries all come while the main effect is active |
| `ExamQueues.EarlyRetryConnects` | frontend/hooks/useExamSocket.ts:612-618 | the reachable state that retry leads to |
| `ExamQueues.StepStaysAwake` | frontend/hooks/useExamSocket.ts:205-216 | a step puts queued answers to sleep exactly when it strands them |
| `ExamQueues.ViolationsDeliveredInOrder` | frontend/hooks/useExamSocket.ts:570-593 | violations are sent in the order raised throughout a run exactly when none of its steps overtakes, that is, sends one at once while a different one still waits |
| `ExamQueues.ViolationsAreDelivered` | frontend/hooks/useExamSocket.ts:570-593 | in every run each accepted violation was sent or still waits, once; at most 200 wait, and one is refused only after a kick or behind 200 others |
| `ExamQueues.ActiveRetriesNeverOvertake` | frontend/hooks/useExamSocket.ts:612-618 | nothing overtakes in a run whose manual retries all come while the main effect is active |
| `ExamQueues.RetryBeforeSessionReordersViolations` | frontend/hooks/useExamSocket.ts:583-586 | a reachable run in which a violation overtakes one raised before it |
| `ExamQueues.StepKeepsOrder` | frontend/hooks/useExamSocket.ts:342-353 | a step breaks the order of what was sent, followed by what waits, exactly when it overtakes |
| `ExamQueues.ViolationEffect` | frontend/hooks/useExamSocket.ts:342-353 | what each event does to the violations sent, waiting and accepted |
| `ExamReconnect.ReconnectionIsBounded` | frontend/hooks/useExamSocket.ts:474-503 | from any run of the main effect in any reachable state, without a connection, a manual retry or another run of the effect: at most 150 s of scheduled delay and 12 sockets, and one more when that run leaves both a factory call and a reconnect timer behind |
| `ExamExhaust.TwelveSockets` | frontend/hooks/useExamSocket.ts:474-503 | a run from a plain mount that creates all twelve |
| `ExamExhaust.ThirteenSockets` | frontend/hooks/useExamSocket.ts:612-618 | a run with a call and a timer left over by retries before the effect, which then finds no exam-auth marker, that creates thirteen |
| `ExamReconnect.FailureMeansNeverConnected` | frontend/hooks/useExamSocket.ts:479-484 | a session that has connected is known as connected throughout a run exactly when the run has no manual retry, no other session and no connection made without a session id; and then `failed` is not reported |
| `ExamExhaust.NamelessConnectionFails` | frontend/hooks/useExamSocket.ts:515-519 | a run in which `failed` is reported of a session that has connected, after a connection without a session id |
| `ExamReconnect.StepSpendsPotential` | frontend/hooks/useExamSocket.ts:448-503 | sockets created plus all that can still be created never grow: each attempt and each auth retry is paid for |
| `ExamReconnect.StepSpendsDelays` | frontend/hooks/useExamSocket.ts:495-502 | delays scheduled plus those still to come never grow |
| `ExamReconnect.AllDelays` | frontend/hooks/useExamSocket.ts:9-11 | all eight delays together are 150 000 ms |
| `ExamRecovery.DropsStartOver` | frontend/hooks/useExamSocket.ts:308-317 | for every n, a run of n drops by the server with a reconnection after each ends connected with full budgets, having waited 2 s for each drop |
| `ExamRecovery.LossAfterConnect` | frontend/hooks/useExamSocket.ts:310-311 | after any connection in any reachable state without a kick, a drop by the server is the first again: attempt 1, its timer set, 2000 ms |
| `ExamRecovery.ConnectRefills` | frontend/hooks/useExamSocket.ts:310-311 | a connection gives back all attempts and auth retries: eleven sockets more, and those of a timer and a call under way |
| `ExamRecovery.RefusalsAfterConnect` | frontend/hooks/useExamSocket.ts:453-460 | after any connection, a run with three refused tokens at most, and no kick by server or user, ends without a kick |
| `ExamRecovery.KickedIff` | frontend/hooks/useExamSocket.ts:367-461 | what kicks: the server, a manual disconnect, a fourth refused token in a row, and nothing else |
| `ExamRecovery.ActiveIff` | frontend/hooks/useExamSocket.ts:508-513 | the main effect gets past its guard exactly with exam, user and session, without a kick and with an exam that was found |
| `ExamRecovery.MirrorsNext` | frontend/hooks/useExamSocket.ts:79-87 | the mirrored ids are those of the last props |
| `ExamRecovery.AttemptsNext` | frontend/hooks/useExamSocket.ts:474-518 | each loss uses up one attempt; a connect, a manual retry and the effect give all back; nothing else changes them |
| `ExamRecovery.ScheduledNext` | frontend/hooks/useExamSocket.ts:495-502 | the delays are 2, 4, 8, 16, 30, 30, 30 and 30 s, one for each attempt, and nothing else is scheduled |
| `ExamRecovery.AuthRetriesNext` | frontend/hooks/useExamSocket.ts:449-460 | each refused token uses up one retry with a fresh one, and a connection gives all back |
| `ExamRecovery.TimerNext` | frontend/hooks/useExamSocket.ts:269-502 | exactly which events set and which clear the reconnect timer |
| `ExamRecovery.StatusNext` | frontend/hooks/useExamSocket.ts:315-520 | the status each event leaves, with `failed` exactly at a loss after the last attempt of a client that never connected |
| `ExamReconnect.ActivatedLink` | frontend/hooks/useExamSocket.ts:508-521 | a run of the effect resets the attempts and leaves room for 12 sockets, and for a thirteenth exactly when a call and a timer were left before it, no cleanup was registered to clear them and the marker is missing |
| `ExamPage.PageKeepsQueues` | frontend/app/(app)/exam/[slug]/page.tsx:2332-2357 | in every run whose retries come in status `failed` alone, as the page offers them, queued answers have their timer and violations keep their order throughout |
| `ExamPage.PageCreatesTwelve` | frontend/app/(app)/exam/[slug]/page.tsx:2332-2357 | in such runs every run of the effect is good for twelve sockets at most |
| `ExamPage.PageNeverFailsConnected` | frontend/app/(app)/exam/[slug]/page.tsx:2332-2357 | in such runs a session that has connected is not reported as `failed` while the props bring no other session id |
| `ExamPage.PageStaysActive` | frontend/app/(app)/exam/[slug]/page.tsx:2332-2357 | in such runs the main effect is active whenever the status is `failed`, so every retry meets an active effect |
| `ExamReconnect.StepStaysConnected` | frontend/hooks/useExamSocket.ts:515-519 | which events make the client forget that a session has connected, and no others |
| `ExamServer.EmitsOnLive` | frontend/hooks/useExamSocket.ts:188-236 | whatever a step emits goes out on the live socket, in the current session, behind everything emitted before |
| `ExamServer.DeliversOldest` | frontend/hooks/useExamSocket.ts:236 | with each socket delivering in order, the server always receives the oldest save on its way |
| `ExamServer.EventKeepsAgreeing` | frontend/hooks/useExamSocket.ts:188-237 | every event of client, network or server keeps the server's value for a key, in the record of every session, that of the last stored save of that session carrying it |
| `ExamServer.ClientStepKeepsTransport` | frontend/hooks/useExamSocket.ts:289-305 | every client event keeps the saves on their way in order, all on one socket, behind all that were stored |
| `ExamSocketHook.ExamSocket.constructor` | frontend/hooks/useExamSocket.ts:39-78 | a mounted hook is the initial state of the transition system |
| `ExamSocketHook.ExamSocket.EmitSave` | frontend/hooks/useExamSocket.ts:188-236 | the references after a save are those of the specification |
| `ExamSocketHook.ExamSocket.Requeue` | frontend/hooks/useExamSocket.ts:201-204 | the loop over the entries requeues exactly the values that are still the newest and not queued |
| `ExamSocketHook.ExamSocket.OnUnanswered` | frontend/hooks/useExamSocket.ts:201-217 | the acknowledgement callback without an answer |
| `ExamSocketHook.ExamSocket.OnRejected` | frontend/hooks/useExamSocket.ts:221-235 | the acknowledgement callback with a rejection, including the loop of the split |
| `ExamSocketHook.ExamSocket.OnRetryTimer` | frontend/hooks/useExamSocket.ts:208-215 | the save-retry timer, which does not look at the kick |
| `ExamSocketHook.ExamSocket.QueueAnswer` | frontend/hooks/useExamSocket.ts:554-566 | queueing or sending one answer |
| `ExamSocketHook.ExamSocket.RecordViolation` | frontend/hooks/useExamSocket.ts:570-593 | sending, holding or dropping one violation |
| `ExamSocketHook.ExamSocket.FlushViolations` | frontend/hooks/useExamSocket.ts:342-353 | the loop that sends all held violations, in order |
| `ExamSocketHook.ExamSocket.InitSocket` | frontend/hooks/useExamSocket.ts:242-274 | the part of the socket factory before its await |
| `ExamSocketHook.ExamSocket.OnToken` | frontend/hooks/useExamSocket.ts:285-305 | the part of the socket factory after its await |
| `ExamSocketHook.ExamSocket.OnConnect` | frontend/hooks/useExamSocket.ts:308-354 | the connect handler |
| `ExamSocketHook.ExamSocket.OnDisconnect` | frontend/hooks/useExamSocket.ts:416-445 | the disconnect handler, by reason |
| `ExamSocketHook.ExamSocket.OnConnectError` | frontend/hooks/useExamSocket.ts:448-467 | the connect error handler, with its fresh-token retries |
| `ExamSocketHook.ExamSocket.OnKick` | frontend/hooks/useExamSocket.ts:367-413 | auth errors, errors that end the session, and forced termination |
| `ExamSocketHook.ExamSocket.ScheduleReconnect` | frontend/hooks/useExamSocket.ts:474-503 | the reconnect scheduler |
| `ExamSocketHook.ExamSocket.CleanUp` | frontend/hooks/useExamSocket.ts:523-535 | the cleanup of the main effect |
| `ExamSocketHook.ExamSocket.OnPropsChange` | frontend/hooks/useExamSocket.ts:508-539 | cleanup, mirrors and main effect when the props change |
| `ExamSocketHook.ExamSocket.Disconnect` | frontend/hooks/useExamSocket.ts:600-608 | the manual disconnect |
| `ExamSocketHook.ExamSocket.RetryConnection` | frontend/hooks/useExamSocket.ts:612-618 | the manual retry |
| `ExamSocketHook.ExamSocket.Handle` | frontend/hooks/useExamSocket.ts:81-634 | every callback, dispatched by its event, takes exactly the step of the transition system the run theorems are about |
| `Heartbeat.RedirectWindow` | frontend/hooks/useExamSocket.ts:137-181 | with ticks every 30 s on a connected socket, the redirect comes more than 95 s after the last acknowledgement, and until it comes the last one is at most 125 s old |
| `Heartbeat.RedirectDelay` | frontend/hooks/useExamSocket.ts:148-162 | the delay is exact: so many ticks after an acknowledgement that came so late after a tick |
| `Heartbeat.AdvanceKeepsCount` | frontend/hooks/useExamSocket.ts:148-162 | the missed count is a function of the age of the last acknowledgement |
| `Heartbeat.BeatIs` | frontend/hooks/useExamSocket.ts:148-177 | what counts as a miss, connected or not, and what the third one does |
| `Heartbeat.OutageRedirects` | frontend/hooks/useExamSocket.ts:165-177 | ticks on a socket that is down redirect exactly at the third miss |
| `Heartbeat.Watchdog.OnTick` | frontend/hooks/useExamSocket.ts:148-177 | one tick, connected or not, does what the specification says |
| `Heartbeat.Watchdog.OnHeartbeatAck` | frontend/hooks/useExamSocket.ts:357-362 | an acknowledgement resets the watch |
| `Heartbeat.Watchdog.StartHeartbeat` | frontend/hooks/useExamSocket.ts:137-146 | starting the watch resets it |
| `Ipv4.Ipv4ToInt` | backend/src/common/safe-http.ts:52-63 | the parsing loop computes the specified value, or none |
| `Ipv4.QuadTextParses` | backend/src/common/safe-http.ts:52-63 | four texts of one to three digits up to 255, joined by dots, parse to their base-256 value |
| `Ipv4.ParsedTextIsQuad` | backend/src/common/safe-http.ts:52-63 | nothing else parses |
| `Ipv4.ParsesExactly` | backend/src/common/safe-http.ts:52-63 | a text parses exactly when it is four texts of one to three digits, 255 at most, with dots between; its value is theirs in base 256 |
| `Ipv4.PrintedQuadParses` | backend/src/common/safe-http.ts:52-63 | printing four octets and parsing the text gives their value, below 2^32 |
| `Ipv4.MaskIsHighOnes` | backend/src/common/safe-http.ts:71 | the shifted and truncated mask is 2^32 - 2^(32-bits) |
| `Ipv4.MaskTestIsRange` | backend/src/common/safe-http.ts:68-73 | the 32-bit mask test holds exactly on the interval of the block, for every network and prefix length |
| `Ipv4.BlockedIffInRange` | backend/src/common/safe-http.ts:65-74 | an address is blocked exactly when it does not parse or its value lies in one of the fourteen intervals |
| `Ipv6Text.ParseGroupsLoop` | backend/src/common/safe-http.ts:99-107 | the loop over the groups of a segment computes the specified groups, or none |
| `Ipv6Text.Expand` | backend/src/common/safe-http.ts:80-120 | the expander, with its reassignments and early returns, computes the specified groups, or none |
| `Ipv6Spelling.SpellingExpands` | backend/src/common/safe-http.ts:80-120 | every spelling of section 2.2 of RFC 4291 (full, double colon, IPv4 tail; any case, with or without a zone) expands to exactly its eight hextets |
| `Ipv6Spelling.PrintedAddressExpands` | backend/src/common/safe-http.ts:80-120 | printing eight hextets and expanding the text gives them back |
| `Ipv6Spelling.ExpandedIsSpelling` | backend/src/common/safe-http.ts:80-120 | whatever expands is such a spelling once trimmed, in lower case, without its zone and with its IPv4 tail written as groups |
| `Ipv6Spelling.SubstitutesTail` | backend/src/common/safe-http.ts:85-94 | an IPv4 tail becomes the two groups of its value, and a text without one is unchanged |
| `Ipv6.GroupsVerdict` | backend/src/common/safe-http.ts:122-165 | the verdict of the branches and bit masks is the one on numeric ranges |
| `Ipv6.EmbeddedVerdict` | backend/src/common/safe-http.ts:137-156 | printing an embedded address and parsing it again gives the verdict on its 32-bit value |
| `Ipv6.EmbeddedAgrees` | backend/src/common/safe-http.ts:126-156 | every spelling of an IPv4-mapped, IPv4-compatible, NAT64 or 6to4 form of a.b.c.d gets exactly the IPv4 verdict on it |
| `Ipv6.SpellingsAgree` | backend/src/common/safe-http.ts:122-165 | all spellings of one address get the same verdict |
| `Ipv6.ExpandedIsAddress` | backend/src/common/safe-http.ts:122-124 | what expands has eight 16-bit groups, so the verdict depends on them alone |
| `Ipv6.LoopbackTestsUnreached` | backend/src/common/safe-http.ts:158-159 | `::` and `::1` are blocked by the IPv4-compatible branch, before the tests written for them |
| `Ipv6.UniqueLocalTest` | backend/src/common/safe-http.ts:160 | the mask test is the range fc00 to fdff |
| `Ipv6.LinkLocalTest` | backend/src/common/safe-http.ts:161 | the mask test is the range fe80 to febf |
| `Ipv6.MulticastTest` | backend/src/common/safe-http.ts:162 | the mask test is ff00 and above |
| `Ipv6.LookupIsSafe` | backend/src/common/safe-http.ts:205-247 | for address literals and resolved names alike: the lookup hands out exactly the candidates that may be dialled by the numeric rules, in their order, or the first of them alone; it is refused exactly when none may be, and names the first candidate |
| `Ipv6.BlockedExactly` | backend/src/common/safe-http.ts:168-173 | the exported verdict blocks exactly the texts that are no address, the IPv4 addresses that do not parse or lie in the fourteen intervals, and the IPv6 addresses that do not parse, carry such an IPv4 address, or are unique-local, link-local or multicast |
| `Ipv6.KeptAt` | backend/src/common/safe-http.ts:234 | filtering keeps exactly what is not bad, in order |
| `Timezone.OccurringWallConverts` | frontend/lib/timezone.ts:107-122 | in a zone whose transitions are further apart than the reach of its offsets (their spread together with UTC), every wall clock that occurs converts to an instant that shows it |
| `Timezone.SkippedWallIsOffByGap` | frontend/lib/timezone.ts:107-122 | with transitions further apart than the spread of the offsets, a wall clock skipped by one converts to an instant whose display is off by exactly the gap, later when the first estimate falls before the transition and earlier when after |
| `Timezone.SkippedWallFollowsGuess` | frontend/lib/timezone.ts:107-122 | with UTC among the offsets it is earlier when the guess falls before the transition and later when after |
| `Timezone.RoundTrip` | frontend/lib/timezone.ts:107-144 | in a zone spaced by the reach of its offsets, an instant on the minute, shown and converted back, is itself or its twin across an overlap, exactly the overlap away |
| `Timezone.RoundTripIffNotMisjudged` | frontend/lib/timezone.ts:107-144 | spaced by the spread alone, it comes back to the same wall clock exactly when that is not misjudged, and then is itself or its twin |
| `Timezone.SameWallOverlaps` | frontend/lib/timezone.ts:128-144 | with transitions further apart than the spread of the offsets, two instants show the same wall clock only across one that moves clocks back, and are the overlap apart |
| `Timezone.RightIffNotMisjudged` | frontend/lib/timezone.ts:117-121 | with transitions only further apart than the spread of the offsets, the result is right exactly when the first estimate falls on the right side of every transition |
| `Timezone.SpreadAloneIsNotEnough` | frontend/lib/timezone.ts:117-121 | a zone spaced that way with a wall clock that occurs and converts an hour wrong |
| `Timezone.RightIffThirdPassAgrees` | frontend/lib/timezone.ts:117-121 | in any zone the result is right exactly when a third correction would change nothing |
| `Timezone.OffsetIsRead` | frontend/lib/timezone.ts:75-99 | the offset read back from whole seconds and rounded is the offset of the zone |
| `Timezone.OneTransitionInWindow` | frontend/lib/timezone.ts:114-120 | a stretch of time no longer than the space between transitions sees one at most |
| `Timezone.WallIsMinute` | frontend/lib/timezone.ts:128-144 | the wall clock shown is the clock of the zone without the seconds |
| `Timezone.WallToInstant` | frontend/lib/timezone.ts:118-120 | the guess and its two corrections, reassigned in place |
| `Calendar.FieldsGiveTime` | frontend/lib/timezone.ts:90-97 | every time has valid calendar fields, and `Date.UTC` arithmetic on them gives it back, to the second |
| `Calendar.TimeGivesFields` | frontend/lib/timezone.ts:90-97 | valid fields are the fields of their own time: no two valid dates are the same time |
| `Calendar.DateUTCIsTime` | frontend/lib/timezone.ts:90-97 | `Date.UTC` is that time exactly when the year is not one of 0 to 99 |
| `WallClock.TextRoundTrip` | frontend/lib/timezone.ts:107-144 | on texts: an instant shown as a date input text and converted back is itself or its twin, and shows the same text |
| `WallClock.TextRoundTripIffNotMisjudged` | frontend/lib/timezone.ts:107-144 | the same for zones spaced by the spread alone: the text comes back exactly when its wall clock is not misjudged |
| `WallClock.DateInputConverts` | frontend/lib/timezone.ts:107-122 | every valid date and time from the year 101 on, as a date input writes it with a year of at least four digits, is converted as the local time it stands for |
| `WallClock.DateAloneIsMidnight` | frontend/lib/timezone.ts:109-111 | a date without a time is read as its midnight |
| `WallClock.OffsetFromParts` | frontend/lib/timezone.ts:86-98 | the offset computed from the formatter's parts is the offset of the zone, whether midnight is shown as 00 or 24 |
| `WallClock.WallTextIsRead` | frontend/lib/timezone.ts:109-117 | the text of a local time is read back as that time, to the minute |
| `WallClock.Collect` | frontend/lib/timezone.ts:87-88 | the loop that fills the map keeps the value of each kind that occurs once |
| `WallClock.ReadOffset` | frontend/lib/timezone.ts:75-99 | the offset from the formatter's list, in any order |
| `WallClock.ShowWallClock` | frontend/lib/timezone.ts:128-144 | the text from the formatter's list, in any order |
| `Proctoring.NoFaceReported` | frontend/hooks/useProctoringAI.ts:228-247 | over all histories: no-face is reported at exactly the empty checks that end an unbroken run of empty ones longer than 5 s, with no such report in the last 10 s |
| `Proctoring.MultipleFacesReported` | frontend/hooks/useProctoringAI.ts:249-271 | several faces are reported at exactly the crowded checks with five or more others before, no other check and no such report between, and no phone noted in the last 5 s |
| `Proctoring.MultipleFacesApart` | frontend/hooks/useProctoringAI.ts:249-271 | two such reports are at least 3600 ms apart |
| `Proctoring.HeadTurnReported` | frontend/hooks/useProctoringAI.ts:274-321 | a turned head is reported at exactly the turned checks more than 20 s after another one, with no frontal check between and no report since the last frontal one |
| `Proctoring.PhoneReported` | frontend/hooks/useProctoringAI.ts:346-359 | a phone is noted at exactly the object checks that see one, with none noted in the last 5 s |
| `Proctoring.ChecksAreSpaced` | frontend/hooks/useProctoringAI.ts:218-328 | which frames have a face check or an object check, in terms of the earlier ones only; never both |
| `Proctoring.EmptyRunIsKept` | frontend/hooks/useProctoringAI.ts:228-244 | the start time is that of the first check of the present empty run |
| `Proctoring.TurnIsKept` | frontend/hooks/useProctoringAI.ts:301-320 | the start time is that of the first turned check since the last frontal one |
| `Proctoring.WarningIsKept` | frontend/hooks/useProctoringAI.ts:306-320 | the warned flag says that a report was made since the last frontal check |
| `Proctoring.CrowdIsCounted` | frontend/hooks/useProctoringAI.ts:249-271 | the counter is the number of crowded checks since any other check or report |
| `Proctoring.ReportTimesAreKept` | frontend/hooks/useProctoringAI.ts:235-351 | the cooldown times are those of the last report of each kind |
| `Proctoring.Detector.PredictWebcam` | frontend/hooks/useProctoringAI.ts:207-366 | one frame updates the references and reports as specified, and extends a history that the theorems above speak of |
| `Proctoring.Detector.OnFaces` | frontend/hooks/useProctoringAI.ts:222-322 | the three rules of a face check, on the references in place |
| `Benchmark.EverythingIsAccountedFor` | backend/stress-tests/benchmark-engine.ts:39-82 | when a run is over, each index in [0, total) was sent once and settled once and the five counters add up to the total, exactly when there was a worker or nothing to send; each counter is the number of requests whose status lies in its range, and the latencies are theirs |
| `Benchmark.CountersCount` | backend/stress-tests/benchmark-engine.ts:58-77 | at every point of every run each counter is the number of settled requests with 200 to 299, 429, 500 and more, any other status, or a throw |
| `Benchmark.RecordsResults` | backend/stress-tests/benchmark-engine.ts:57-77 | the requests recorded as settled are those that settled, with their outcomes and times, in that order |
| `Benchmark.ConcurrencyIsReached` | backend/stress-tests/benchmark-engine.ts:81-82 | min(concurrency, total) requests can be outstanding at once |
| `Benchmark.AtMostConcurrencyOutstanding` | backend/stress-tests/benchmark-engine.ts:49-58 | in every interleaving no index is sent twice and at most min(concurrency, total) requests are outstanding |
| `Benchmark.RunsFinish` | backend/stress-tests/benchmark-engine.ts:81-82 | a run never gets stuck, and takes at most one step for each worker and each request |
| `Benchmark.NextConserves` | backend/stress-tests/benchmark-engine.ts:49-79 | every worker step keeps the books: sent in order, settled once or held by one worker, a latency and a count for each settled one |
| `Benchmark.Run.On` | backend/stress-tests/benchmark-engine.ts:49-79 | every worker step, dispatched by its event, takes exactly the step of the pool |
| `Benchmark.Run.TakeNext` | backend/stress-tests/benchmark-engine.ts:51-54 | the loop head on the shared counter |
| `Benchmark.Run.Settle` | backend/stress-tests/benchmark-engine.ts:56-77 | a settled request, in place: latency, counter, next index |
| `Percentiles.PercentileIsOrderStatistic` | backend/stress-tests/benchmark-engine.ts:92-96 | the percentile is one of the samples, at least p percent of them are at or below it and at most p percent strictly below, for every p from 0 to 100 |
| `Percentiles.PercentileIsGreatest` | backend/stress-tests/benchmark-engine.ts:92-96 | of the samples that have that property it is the greatest, which fixes the choice between two |
| `Percentiles.FiguresArePercentiles` | backend/stress-tests/benchmark-engine.ts:109-117 | p50, p90, p95 and p99 are the percentiles they are named after, of the samples as measured |
| `Percentiles.FiguresAreOrdered` | backend/stress-tests/benchmark-engine.ts:109-117 | min <= p50 <= p90 <= p95 <= p99 <= max, and min and max are the least and the greatest sample |
| `Percentiles.CountsOfPermutation` | backend/stress-tests/benchmark-engine.ts:88 | sorting changes no count |
| `Percentiles.ReportIgnoresOrder` | backend/stress-tests/benchmark-engine.ts:88-117 | the figures do not depend on the order in which requests settled |
| `Onboarding.SentOncePerLock` | backend/src/services/onboarding-email.processor.ts:51-64 | in every interleaving of any number of workers, and whenever locks expire, at most one worker sends the mail of a key, and one more for each lock that expired; it goes out once more for each send that threw although it went out |
| `Onboarding.SettledForLifetime` | backend/src/services/onboarding-email.processor.ts:59-64 | once a worker has sent or skipped the mail, and while the lock lives, it does not go out again and nobody is at work on it |
| `Onboarding.FailureReleasesItsOwn` | backend/src/services/onboarding-email.processor.ts:142-145 | a worker that got the lock of its key and fails deletes the lock it set and no other, exactly when that lock neither expired nor was deleted since; the next job for the key then gets the lock in any case |
| `Onboarding.OwnsRun` | backend/src/services/onboarding-email.processor.ts:52-58 | a worker owns the lock of its key exactly as long as it had it and no event freed that key |
| `Onboarding.WorkersInTimeOwn` | backend/src/services/onboarding-email.processor.ts:142-145 | when a lock expires only while no worker of its own key is at work, each one at work owns the lock it would delete |
| `Onboarding.SlowFailureReleasesAnothers` | backend/src/services/onboarding-email.processor.ts:142-145 | a reachable failure after the lock was freed: a worker that outlives its lock deletes that of another at work |
| `Onboarding.NextAccounts` | backend/src/services/onboarding-email.processor.ts:51-145 | every step keeps the workers that hold on to a lock within the lock there is and those that expired |
| `Onboarding.OwnersStep` | backend/src/services/onboarding-email.processor.ts:52-58 | one step of the same, for one key |
| `Onboarding.KeyOfIff` | backend/src/services/onboarding-email.processor.ts:38-49 | a job asks for the lock of an organisation and stage exactly when it has the right name, names the organisation once trimmed, and has that stage |
| `Onboarding.ArrivalTakesLock` | backend/src/services/onboarding-email.processor.ts:38-64 | the arrival of a job takes the lock it asks for, and that alone, if it is free, and goes on; otherwise nothing is set |
| `Onboarding.EveryStageIsTaken` | backend/src/services/onboarding-email.processor.ts:51-64 | jobs for different stages of one organisation whose locks are free all go on, each with its own lock |
| `Onboarding.RecipientIff` | backend/src/services/onboarding-email.processor.ts:94-113 | who is written to: the billing address or else the admin's, trimmed, of an organisation that is found and active |
| `Onboarding.PhaseNext` | backend/src/services/onboarding-email.processor.ts:67-145 | where each worker goes next: on to send, skipped, sent, or failing and then done with or without the lock deleted |
| `Onboarding.DeliveriesAreCounted` | backend/src/services/onboarding-email.processor.ts:122-144 | the deliveries the bounds speak of are the mails that went out in the run |
| `Onboarding.DedupeKeysDiffer` | backend/src/services/onboarding-email.processor.ts:33-35 | two keys have the same lock name only if organisation and stage are the same, whatever the organisation is called |
| `Onboarding.Processor.Process` | backend/src/services/onboarding-email.processor.ts:37-64 | validation and the atomic set-if-absent |
| `Onboarding.Processor.Expire` | backend/src/services/onboarding-email.processor.ts:52-58 | the end of a lock after its 180 days |
| `Onboarding.Processor.OnLookup` | backend/src/services/onboarding-email.processor.ts:67-113 | the checks after the lookup: skip, go on to send, or fail |
| `Onboarding.Processor.OnMailed` | backend/src/services/onboarding-email.processor.ts:122-144 | the outcome of sending |
| `Onboarding.Processor.OnDeleted` | backend/src/services/onboarding-email.processor.ts:142-145 | the deletion of the lock by a failing worker |
| `CodingAnswers.LastCodeIsRead` | frontend/app/components/CodingQuestionRenderer.tsx:123-142 | after any sequence of merges, reading a language under any spelling gives the code written to it last |
| `CodingAnswers.EntryAfterMerges` | frontend/app/components/CodingQuestionRenderer.tsx:144-164 | a language has exactly what was written to it, later fields over earlier ones and over what it had; one never written to keeps its entry |
| `CodingAnswers.TopLevelIsLastWrite` | frontend/app/components/CodingQuestionRenderer.tsx:149-154 | the answer itself carries the language, code and results of the last write |
| `CodingAnswers.UnwrittenReadsNothing` | frontend/app/components/CodingQuestionRenderer.tsx:137-141 | a language with no entry and no write reads nothing |
| `CodingAnswers.OldAnswerIsRead` | frontend/app/components/CodingQuestionRenderer.tsx:123-142 | an answer from before there were entries by language is read whole, in its own language under any spelling and in no other |
| `CodingAnswers.OldEntryIsRead` | frontend/app/components/CodingQuestionRenderer.tsx:133-135 | an entry from before ids were normalised is still read under its own id after any sequence of merges to other languages |
| `CodingAnswers.MergeOnce` | frontend/app/components/CodingQuestionRenderer.tsx:155-162 | one merge changes the entry of its own language only |
| `CodingAnswers.NormalizeTwice` | frontend/app/components/CodingQuestionRenderer.tsx:64-71 | a normalised language id is its own normal form |
| `CodingAnswers.NormalizedIs` | frontend/app/components/CodingQuestionRenderer.tsx:64-71 | which ids are C++, JavaScript and Python in any case, and that no other id changes but in case |
| `CodingAnswers.PlainAnswers` | frontend/app/components/CodingQuestionRenderer.tsx:123-125 | an empty answer reads nothing and a text is the code in every language |
| `CodingAnswers.ThrowsIff` | frontend/app/components/CodingQuestionRenderer.tsx:123-142 | reading throws exactly when no entry is found and the language id of the answer is neither a text nor empty |
| `CodingAnswers.MergeKeepsOthers` | frontend/app/components/CodingQuestionRenderer.tsx:149-154 | a merge keeps every other field of the answer unless the write has it |
| `CodingAnswers.ConfiguredLanguagesFirst` | frontend/app/components/CodingQuestionRenderer.tsx:84-99 | with configured languages, those with a template come first in their order and exactly the languages with a template are offered, once each; with no template nothing is, not even the editor's own list |
| `CodingAnswers.UnconfiguredLanguages` | frontend/app/components/CodingQuestionRenderer.tsx:84-99 | with nothing configured, exactly the languages with a template are allowed, each once, or the editor's list |
| `CodingAnswers.MenuIgnoresConfigured` | frontend/app/components/CodingQuestionRenderer.tsx:385 | whatever is configured, the menu lists exactly the languages with a template, or all the editor knows when there is none |
| `OrgUrls.ParseInvertsBuild` | frontend/lib/domain.ts:40-119 | a URL is built unless label or root domain is empty, and reading its host gives back the label exactly when that is not reserved and has none of ".", "/", "?", "#" and "@", and the root domain reads back; the URL ends in the path asked for, and starts with https except on localhost |
| `OrgUrls.AtSignNamesAnother` | frontend/lib/domain.ts:103-119 | a label with an at sign makes the URL of the organisation named behind the sign |
| `OrgUrls.AtSignExample` | frontend/lib/domain.ts:103-119 | the URL built for the label `x@y` is read as one of the organisation `y` |
| `OrgUrls.NormalRootReadsBack` | frontend/lib/domain.ts:13-15 | a root domain configured in its normal form, without those marks, reads back behind every label |
| `OrgUrls.DefaultRoot` | frontend/lib/domain.ts:13-15 | without a configured domain the root domain is mentrily.com |
| `Subdomain.ReservedIff` | frontend/lib/domain.ts:3 | the four reserved names |
| `Subdomain.LabelIs` | frontend/lib/domain.ts:104-106 | a label is the text between the spaces, in lower case |
| `Subdomain.HostIs` | frontend/lib/domain.ts:5-11 | a host with or without a port, between spaces and in any case, is normalised to the host in lower case |
| `Subdomain.HostOfUrlIs` | frontend/lib/domain.ts:5-11 | and so it is behind either scheme |
| `OrgUrls.WholeUrlParses` | frontend/lib/domain.ts:40-69 | given a whole built URL instead of its host, the reader names the organisation exactly when the normalised path makes the text end in a dot and the root domain, or in .localhost |
| `OrgUrls.OrdinaryUrlNamesNone` | frontend/lib/domain.ts:40-69 | so whole URLs with a path without dots name no organisation, whatever the label |
| `Subdomain.ReadersAgree` | frontend/app/(app)/layout.tsx:32-76 | both readers agree on every host and every root domain, except on localhost itself when the simulation cookie names an organisation |
| `Subdomain.BuiltHostNormalized` | frontend/lib/domain.ts:5-11 | normalising a built host strips a scheme from its label and nothing else but what its end loses |
| `Subdomain.SchemeIsLost` | frontend/lib/domain.ts:5-11 | a host that starts with a scheme is never read back |
| `Subdomain.SuffixOfHost` | frontend/lib/domain.ts:56-60 | a suffix that starts with a dot cannot reach into a label without dots |

## Left out

- Rendering, toasts, redirect URLs, cookies and snapshots: user interface. A redirect is an abstract event; the exam-auth marker is a Boolean; of the review flag only its key, a key like any other, is left.
- Answer values are known up to `===` only, so a NaN, which is never requeued, is not part of this model; nor are keys named like members of `Object.prototype`.
- ExamServer.SettledAnswersAgree: assumes that each socket delivers in order and delivers nothing once its replacement has connected, and that the server files a save under the session the save names, as the server is not part of this model.
- ExamRuns.NewestAnswerNeverLost: excludes keys that a split batch has overtaken, because the code loses them (see `ExamSplit.SplitLosesNewestAnswer`).
- After a kick the save-retry timer still sends what waits, because it does not look at the kick; `ExamRuns.KickIsFinal` says what it can be.
- The second effect that starts the heartbeat again for the same socket: it only resets the watch, and may start it before the connect handler does.
- Heartbeat.RedirectWindow: ticks are ideal, 30 s apart; timers delayed by the browser are not part of this model.
- Lower-casing is modelled on ASCII letters. Strings are sequences of Unicode scalar values; unpaired surrogates are not part of this model.
- `isIP`, the resolver, the HTTP agents and the URL check are library calls; the lookup filter takes what they answer.
- A double colon that stands for no group at all is expanded by the code although section 2.2 of RFC 4291 has it stand for at least one; the spellings here include it, as the code does.
- `Intl` is an offset that changes at listed transitions; offsets of less than a minute are not part of this model. `zoneLabel` and the display formats are formatting.
- WallClock.ZonedWallClockToUtc: reads texts of digits; other texts that `Number` reads, such as signs, spaces, exponents and hexadecimal, give None here, as do the invalid dates the platform throws on.
- WallClock.TextRoundTrip: holds from the year 101 on, because `Date.UTC` takes the years 0 to 99 as 1900 to 1999; the upper end of `Date` is not modelled.
- Models, camera and canvas of the detector: what they see is the input of a frame. The two-second delay before a phone is reported is not part of this model; its report is placed where it is noted.
- Rounding of floating-point numbers: times of the detector and latencies are real numbers. `toFixed`, the mean, the rate and the printed report are formatting or plain arithmetic.
- `sort` is a library call: the figures are proved of any sorted permutation of the samples. Responses of a load test are objects with a numeric status.
- The texts and arguments of the onboarding mail; only who may send it when is modelled. Retries by the queue are arrivals of the same job.
- Local drafts, templates' contents, editor and submission of the coding question: storage and interface. Languages named `__proto__` are not part of this model.
- OrgUrls.ParseInvertsBuild: the host is that of section 3.2 of RFC 3986; what browsers do besides, such as reading a backslash as a slash or rejecting a host, is not part of this model.
- OrgUrls.WholeUrlParses: for labels without a dot, as the builder is given; `OrgUrls.OrdinaryUrlNamesNone` holds of every label.
- ExamPage.PageStaysActive: a page that was unmounted makes no more retries; runs after an unmount are those of `ExamRuns`.
- `getCookieDomain` and `getCurrentSubdomain`: the cookie scope for a host, and the browser's own location and storage.
- Plan limits, role guards and option lists: finite tables and single branches.
