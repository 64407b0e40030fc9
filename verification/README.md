# A verified model of the phone firmware's call, battery and parsing logic

The firmware recreates the behaviour of a classic handset on new hardware. This
project models the parts of it where a mistake is hardest to see, in Dafny, and
proves what they guarantee for every input and every run.

- **Calls** (`Call*.dfy`). The display session of `calls_app.c`: a primary slot, a
  held slot and a waiting overlay, followed by polling a network that moves on its
  own. `CallsApp` is the session updated in place, every method proved to make
  exactly what the matching function of `CallSession` says; `CallEvents` is the step
  relation of polls and keys. Over those functions: the display refines a network of
  two legs, whoever else is waiting (`CallDisplay`); call time is conserved through
  every change of role (`CallDuration`) and over every run of polls and keys outside
  the named paths that drop it (`CallConservation`); a waiting caller is recognised
  and settled by its own leg alone (`CallIdentity`) and entered in the register at
  most once (`CallWaiting`), and over every run the register grows by exactly the
  entries owed (`CallRegister`); each key asks for exactly the requests named, and a
  call that came to nothing is entered with its cause (`CallOutcomes`); a held
  survivor is retrieved when it can be, at most once per intent and never too early
  (`CallSurvivor`). `CallProjection` is the call model's projector, the two passes
  over its leg table in place; `CallRows` says by the legs and transactions alone
  which row it publishes, and `CallPublication` that it is the status the display is
  proved against and that suspicion alone never changes it.
- **Stack budget** (`CallGraph`, `StackBudget`). The build gate that bounds the
  deepest direct call chain: the depth-first search with its memo and active list,
  proved to find the heaviest of all walks, or a real cycle or unbounded frame.
- **Calculator** (`Decimals`, `CalculatorText`, `Calculator`, `CalculatorFormat`,
  `CalculatorRoundTrip`). The number printer with its carry running back through a
  character buffer, and the reader: what is printed, how far it is from the number,
  and that it reads back and prints the same.
- **Battery** (`BatteryEvidence`, `BatteryEndpoint`, `BatteryRuntime`,
  `BatteryRuns`, `BatterySafety`, `BatteryReadings`). The supervision of an empty
  battery over runs of polls with arbitrary readings, and what it does told by those
  readings alone.
- **Modem text and flow** (`CStrings`, `Clcc`, `ClccRoundTrip`, `ClccRows`, `AtCsv`,
  `AtLines`, `DecimalX100`, `UartFlow`). The call-list parser of section 7.18 of
  3GPP TS 27.007, the comma-separated field reader and quoter, the fixed-point
  reader in 32-bit arithmetic, and the receive flow control.
- **Storage** (`Crc32`, `CrcCollision`, `Journal`, `JournalSafety`). The two-slot
  journal: records written in place by a device whose power may fail at any byte, and
  what is read afterwards.
- **Menus** (`CircularMenu`, `GamesMenu`). A circular three-row list over a menu
  some of whose rows are hidden.

`Timebase` holds the unsigned 32-bit words and the wrapping millisecond clock that
several of these share: times are unbounded integers, and the code sees them wrapped.
`Wrappers` holds the optional value.

## What the proofs found

- When the last party has hung up, the poll that finds it ends and settles the session
  exactly when a call screen is up and no waiting caller is still recorded
  (`PollRefinesNetwork`). Otherwise it settles at most one leg: the one on display,
  when both were up and the held one took its place. What is left over is not settled
  by any number of idle polls (`IdlePollsNeverSettle`); the end key does settle it,
  with all the time up to the key (`EndKeySettlesLeftover`).
- The first party of a new-call attempt that hangs up during dialling
  (`src/apps/calls_app.c:773-795`) is also charged the seconds since dialling began,
  on top of those it was charged when it was put on hold. The conservation theorem
  counts these as due to it.
- A set-up torn down at `src/apps/calls_app.c:1173` or `src/apps/calls_app.c:1184`, and
  a waiting caller who takes the session over, drop a held party uncharged and
  unclosed exactly when there is one with time or an entry (`TeardownDrops`,
  `TakeoverDrops`); a direct incoming call drops the running leg as well
  (`IncomingDrops`). `Discards` names every such event, and `EventTotals` proves
  conservation over all runs without them.
- A waiting caller whose number or name changes is presented anew, and the register
  has no entry for it under the old one; nor has a caller answered by key whose call
  falls idle before it is connected. `RunRegister` counts neither as owed.
- A survivor retrieve can come sooner than 500 ms after it was armed: every blocked
  poll replaces the 500 ms by 250 ms from itself.
- A comment (`src/app_status_runtime.c:101-105`) names charger insertion as the way
  out of an armed countdown; the code asks for verified positive charging, and so
  does the model. Once armed, neither a healthy nor an absent reading can disarm it.
- A tenth character that is the decimal point is cut, not rounded, so numbers of
  nine integer digits are truncated: `PrintingError` separates the two cases at 10^8.
- With one byte more than 127 after a pause the full receive ring reads as empty and
  resumes; `BoundIsTight` is the run that gets there, so the 127 of `NeverOverflows`
  cannot be raised.
- A journal write cut short leaves the old record or the new one exactly when the
  checksum of the torn payload differs from that of the whole one (`OldOrNew`). There
  are payloads for which it does not: five bytes, cut after the header, read back as
  five bytes that were never written (`CollisionExists`).
- On a device that is not erased before a write, which the code allows, a cut inside
  the sequence word can bring the older of the two records back as the newest
  (`StaleComesBack`, with the exact condition). The phone's flash is erased.

## Model

| member | source | states |
|---|---|---|
| Timebase.TimeDiffExact | src/services/timebase.c:24-26 | the signed 32-bit difference of two clock words is the true difference whenever that is below 2^31 ms, through any wrap |
| CallStore.AddSeconds | src/apps/calls_app.c:1435-1456 | adding seconds keeps all three totals equal to the saturated sums of the charges since the last clear |
| CallStore.ClearTimers | src/apps/call_register_app.c:528-537 | clearing keeps that relation |
| CallStore.Settle | src/apps/calls_app.c:1479-1518 | closing a leg keeps that relation |
| CallSession.FinalizePrimary | src/apps/calls_app.c:1479-1501 | closing the primary slot keeps the totals equal to the charges |
| CallSession.FinalizeHeld | src/apps/calls_app.c:1503-1518 | so does closing the held slot |
| CallSession.PromoteHeld | src/apps/calls_app.c:1857-1876 | and promoting the held party |
| CallSession.ReconcileTwoCall | src/apps/calls_app.c:728-769 | and following the network between two calls, which changes nothing but slots, survivor and store |
| CallSession.OriginalReleased | src/apps/calls_app.c:773-795 | and dropping the first party during a new call's set-up |
| CallSession.CaptureWaiting | src/apps/calls_app.c:630-665 | capturing an identity changes only the id, generation and episode of the waiting caller |
| CallsApp.WaitingLegByRefLoop | src/apps/calls_app.c:602-628 | the two loops over the legs find the first leg with the captured reference, or else the only one of the captured episode |
| CallsApp.CandidateLoop | src/apps/calls_app.c:643-655 | the loop over presenting legs finds the only one that fits, or reports none or several |
| CallsApp.CaptureWaitingLoop | src/apps/calls_app.c:630-665 | the waiting identity after the loops is that of the one leg that can be the caller |
| CallsApp.App.CallAccountingAdd | src/apps/calls_app.c:1435-1456 | the store after adding a call's seconds, with saturation at 2^32 - 1 |
| CallsApp.App.FinalizeCallRecord | src/apps/calls_app.c:1479-1501 | the whole session after the primary leg is charged and its record closed |
| CallsApp.App.FinalizeHeldCall | src/apps/calls_app.c:1503-1518 | the same for the held leg |
| CallsApp.App.SwapCallDisplaySlots | src/apps/calls_app.c:1694-1718 | the whole session after the roles flip, timers back-dated |
| CallsApp.App.PromoteHeldLegToActive | src/apps/calls_app.c:1857-1876 | the whole session after the primary leg ended and the held one took over |
| CallsApp.App.EstablishTwoCallFromWaiting | src/apps/calls_app.c:1632-1651 | the whole session after the waiting party was answered |
| CallsApp.App.RecordReceivedCall | src/apps/calls_app.c:1466-1477 | the session after an answered call is entered in the register |
| CallsApp.App.CallSessionReset | src/apps/calls_app.c:2270-2323 | the session with nothing in it |
| CallsApp.App.ConnectCall | src/apps/calls_app.c:1380-1393 | the session once the call is through |
| CallsApp.App.OpenIncomingCall | src/apps/calls_app.c:1520-1533 | the session for a caller who rings |
| CallsApp.App.EndCallNow | src/apps/calls_app.c:1395-1430 | the session after an end, with the reason recorded and the missed call logged |
| CallsApp.App.CallNewcallSnapshot | src/apps/calls_app.c:1223-1241 | what is kept of the live call and the waiting caller before a second party is dialled |
| CallsApp.App.CallNewcallRestoreHeld | src/apps/calls_app.c:1243-1262 | the session with that call put on hold |
| CallsApp.App.StartOutgoingCall | src/apps/calls_app.c:1264-1332 | the session after dialling, refused, failing later, or under way |
| CallsApp.App.DialSecondParty | src/apps/dialogs_app.c:541-553 | the session after a second party is dialled from a live call |
| CallsApp.App.RollbackFailedNewCall | src/apps/calls_app.c:1883-1908 | the session after the second party failed to connect |
| CallsApp.App.CancelNewCallSetup | src/apps/calls_app.c:1764-1814 | the session after the user gave up dialling it |
| CallsApp.App.AnswerIncomingCall | src/apps/calls_app.c:1922-1948 | the session after an answer was asked for |
| CallsApp.App.RejectIncomingCall | src/apps/calls_app.c:1950-1969 | the session after a rejection, the call logged missed once |
| CallsApp.App.AnswerWaitingCall | src/apps/calls_app.c:1607-1626 | nothing but the request and its marks changes until the network confirms |
| CallsApp.App.RejectWaitingCall | src/apps/calls_app.c:1653-1667 | the same for rejecting |
| CallsApp.App.SwapTheCalls | src/apps/calls_app.c:1669-1687 | the same for swapping: the slots wait for the network |
| CallsApp.App.HoldOrRetrieve | src/apps/calls_app.c:480-496 | a manual hold disarms the survivor intent |
| CallsApp.App.ReleaseForegroundLeg | src/apps/calls_app.c:1740-1762 | one release of the foreground leg at a time, with its retry deadline |
| CallsApp.App.EndThis | src/apps/calls_app.c:507-522 | which of the three releases ending this call means |
| CallsApp.App.EndAll | src/apps/calls_app.c:523-539 | the session after ending all calls, the waiting caller rejected too |
| CallsApp.App.FollowTwoCall | src/apps/calls_app.c:717-771 | the session after the display followed the network's two legs |
| CallsApp.App.DropReleasedOriginal | src/apps/calls_app.c:773-795 | the session after the first party left during set-up |
| CallsApp.App.RetrieveHeldSurvivor | src/apps/calls_app.c:797-867 | the survivor intent and requests after one poll |
| CallsApp.App.WaitingSurvivorState | src/apps/calls_app.c:667-693 | what became of the waiting caller, from its reference, episode and the legs |
| CallsApp.App.PresentWaitingCall | src/apps/calls_app.c:890-920 | the overlay opened for a new caller, or refined in place |
| CallsApp.App.SettleWaiting | src/apps/calls_app.c:921-977 | the session after the caller stopped waiting, in each of its cases |
| CallsApp.App.HandoffWaitingToIncoming | src/apps/calls_app.c:1816-1828 | the waiting caller becomes the incoming one |
| CallsApp.App.HandoffWaitingToConnected | src/apps/calls_app.c:1830-1851 | the waiting caller turns out to be connected, and is logged received |
| CallsApp.App.HandleActive | src/apps/calls_app.c:1047-1135 | the session after a poll that sees an active call |
| CallsApp.App.HandleIdle | src/apps/calls_app.c:1137-1178 | the session after a poll that sees none |
| CallsApp.App.PollCallRuntime | src/apps/calls_app.c:695-1194 | one whole poll, stage by stage, is the poll the theorems are about |
| CallDisplay.PollRefinesNetwork | src/apps/calls_app.c:717-977 | after any number of swaps and releases between two polls, whoever is waiting unless that caller takes over: the slots name exactly the surviving parties in their roles if and only if a party is left or the poll closes the session, and the store is exactly that of settling the legs named, with a gone caller logged missed |
| CallDisplay.RunRefinesNetwork | src/apps/calls_app.c:717-977 | over any run of such polls the slots name the survivors, and the entries closed are those of exactly the legs no longer there, each once |
| CallDisplay.AnsweredIsShown | src/apps/calls_app.c:921-934 | when the waiting caller was answered the poll makes a shown two-call session of the sole one, the caller active and the other party held |
| CallDisplay.IdlePollsNeverSettle | src/apps/calls_app.c:1137-1178 | no number of idle polls on any screens charges or closes anything of a session whose end went unnoticed |
| CallDisplay.EndKeySettlesLeftover | src/apps/calls_app.c:1395-1430 | the end key settles it, charging the time up to the key |
| CallDuration.TimerReading | src/apps/calls_app.c:1223-1241 | the running timer shows the whole seconds of a leg's time as primary, short by at most one for each stamp that hit the reserved 0 |
| CallDuration.StepConserves | src/apps/calls_app.c:1395-1518 | swap, promote, answer, snapshot and restore, drop, end and clear each keep every leg's charge equal to the whole seconds it was due, charged once |
| CallDuration.OriginalReleasedConserves | src/apps/calls_app.c:773-795 | with the dialling seconds counted as due, so does losing the first party during set-up |
| CallDuration.RunConserves | src/apps/calls_app.c:1632-1876 | over any run of role changes below 2^31 ms a leg the books stay balanced |
| CallDuration.TotalsConserve | src/apps/calls_app.c:1435-1456 | after any run ALL, RECEIVED and DIALLED are the saturated sums of what the ended legs were due since the last clear, less at most a second per missed stamp |
| CallDuration.ConservedTotals | src/apps/calls_app.c:1435-1456 | balanced books bound the three totals by what the ended legs were due |
| CallDuration.FreshConserved | src/apps/calls_app.c:2270-2323 | an idle phone with cleared timers is where such runs start |
| CallConservation.ReconcilePerforms | src/apps/calls_app.c:717-888 | the stages that never end a poll perform one of drop, promote, swap and loss of the first party, or none |
| CallConservation.ConcludePerforms | src/apps/calls_app.c:890-1194 | outside the discarding paths the stages that may end it perform only the role changes named |
| CallConservation.CommandPerforms | src/apps/calls_app.c:405-596 | so do the keys that end or start a call |
| CallConservation.EventConserves | src/apps/calls_app.c:405-1194 | every poll and key outside the discarding paths keeps every leg's charge equal to what it was due |
| CallConservation.EventTotals | src/apps/calls_app.c:1435-1456 | over any run of such polls and keys the three totals are the saturated sums of what the ended legs were due since the last clear, less at most a second per missed stamp |
| CallConservation.TeardownDrops | src/apps/calls_app.c:1173-1187 | a torn-down set-up drops a held party exactly when it has seconds or an entry |
| CallConservation.TakeoverDrops | src/apps/calls_app.c:1816-1851 | so does a waiting caller who takes over, ringing or connected |
| CallConservation.IncomingDrops | src/apps/calls_app.c:1037-1044 | a direct incoming call drops the running leg too |
| CallProjection.IsTentative | src/services/modem_call_model.c:567-578 | the loop tells whether an unconfirmed dial may own the leg |
| CallProjection.FindNewCallSetup | src/services/modem_call_model.c:587-595 | the loop finds the first second-party setup that dominates |
| CallProjection.FirstPass | src/services/modem_call_model.c:685-712 | the first pass counts the legs that hold each role themselves and knows the last one's id |
| CallProjection.SecondPass | src/services/modem_call_model.c:713-741 | the second fills a role from the first leg that keeps it when none holds it, and counts all that keep it |
| CallProjection.CountsHold | src/services/modem_call_model.c:744-757 | the counts leave each role to one leg, to none, or in clash |
| CallProjection.CallModel.PublishRoles | src/services/modem_call_model.c:834-856 | each leg that is not going remembers the role it was published as |
| CallProjection.CallModel.ProjectCalls | src/services/modem_call_model.c:645-859 | the table and row after the projection, unchanged on a clash or while the last leg is going |
| CallRows.PublishedSays | src/services/modem_call_model.c:760-832 | with nobody connected the row says Answering if and only if an answer is in set-up, else Ringing with the ring on if and only if a caller alerts or a leg rings or one on its way out did, else Dialing if and only if a dial is in set-up or a leg dials, else Idle; with somebody connected it carries the id of the active leg or else of the held one, Answering or Dialing by the first confirmed second call, or else Active with hold, second party and waiting caller exactly as the legs have them |
| CallRows.NothingNewExactly | src/services/modem_call_model.c:744-818 | nothing new is published exactly when two legs contest a role or all that is left is a leg on its way out |
| CallRows.ContestedExactly | src/services/modem_call_model.c:744-757 | a role is in clash exactly when two legs hold it themselves, or none does and two on their way out kept it |
| CallRows.RolesSay | src/services/modem_call_model.c:834-856 | after a publication every leg remembers its own state, an active leg that may be an unconfirmed dial none, and one on its way out what it remembered before |
| CallPublication.PublishedIsConsistent | src/services/modem_call_model.c:760-832 | every row published is one of the protocol's: two calls are active and not on hold, hold and waiting only beside an active call, an id only with a call |
| CallPublication.SettledProjects | src/services/modem_call_model.c:645-859 | a table of exactly the legs of a network, in any order and with any callers waiting, publishes the status the display refinement assumes |
| CallPublication.SuspicionChangesNothing | src/services/modem_call_model.c:645-859 | after a publication, finding any legs to be going, one or all of them, leaves the next publication the same |
| CallWaiting.FirstLegMeaning | src/apps/calls_app.c:606-614 | the first loop's answer is the first leg with the property, absent exactly when there is none |
| CallWaiting.OnlyLegMeaning | src/apps/calls_app.c:618-627 | the second loop's is the one such leg, ambiguous exactly when there are two |
| CallWaiting.AbsentExactly | src/apps/calls_app.c:602-628 | a waiting caller's leg is absent exactly when no leg carries its reference or its episode |
| CallWaiting.GoneExactly | src/apps/calls_app.c:667-693 | the caller is gone exactly when the snapshot is whole, no leg carries its reference or episode, and the episode before ids does not match |
| CallIdentity.SurvivalByLegs | src/apps/calls_app.c:667-693 | on a whole snapshot the caller still rings if and only if the leg with its reference, or else the only one of its episode, is incoming or waiting and not being removed, or no leg carries either and the pending episode matches; it is connected if and only if that leg is active or held and not being removed; otherwise it is gone or unresolved |
| CallIdentity.WaitingLoggedOnlyWhenDue | src/apps/calls_app.c:921-977 | received is logged exactly when the caller joined the running call or its leg is active or held, missed exactly when no leg and no alert is left of it, otherwise nothing |
| CallIdentity.CallerSettledByPoll | src/apps/calls_app.c:921-977 | the poll that no longer sees the caller waiting makes a two-call session of it, goes live with it on display, rings on its own screen, enters it as missed or leaves it waiting, by the state of its leg alone |
| CallIdentity.CapturedExactly | src/apps/calls_app.c:630-665 | on a whole snapshot the caller is tied to its own leg while that alerts, or to the only alerting leg of no other episode, and to no leg otherwise; a snapshot cut short changes nothing |
| CallRegister.IncomingSettled | src/apps/calls_app.c:1112-1154 | a poll connects an unanswered incoming session exactly when the network shows the answered call active, and then its leg is charged as received, has an entry exactly when the number is known, and the register grows by that received entry; a caller who rang out unanswered adds exactly one missed entry; any other poll adds none |
| CallRegister.RingPresents | src/apps/calls_app.c:1037-1044 | a ring opens the ringing screen for a new caller under the number and name reported |
| CallRegister.RingRefreshes | src/apps/calls_app.c:1011-1036 | while it rings the same caller stays, its number and name corrected by later reports |
| CallRegister.WaitPresents | src/apps/calls_app.c:890-920 | a caller beside a live call waits under the number and name reported, as a new one exactly when there was none or these changed |
| CallRegister.AnswerKeyConnects | src/apps/calls_app.c:1922-1948 | a caller answered by key is connected by the first poll that finds the call active, and one found gone enters nothing |
| CallRegister.StepOwes | src/apps/calls_app.c:405-1194 | every poll and key adds exactly the entries owed for it |
| CallRegister.RunRegister | src/apps/calls_app.c:1112-1154 | over any run the register grows by exactly the entries owed: one received for each caller connected with a known number, one missed for each who rang out, was rejected or gave up waiting, none else, and no presentation has two |
| CallWaiting.PollTidy | src/apps/calls_app.c:695-1194 | every poll keeps one register entry at most for each presented caller, missed or received |
| CallWaiting.StepTidy | src/apps/calls_app.c:405-596 | so does every key |
| CallWaiting.RunTidy | src/apps/calls_app.c:1593-1605 | so does every run: no presentation is ever entered twice |
| CallSurvivor.PollTracks | src/apps/calls_app.c:797-867 | a poll toggles hold only for the exact held survivor with nothing else pending, 250 ms after the last blocked poll or 500 ms after arming, and uses the intent up |
| CallSurvivor.KeyTracks | src/apps/calls_app.c:1764-1814 | keys arm, disarm or leave the intent and send no automatic toggle |
| CallSurvivor.RunTracks | src/apps/calls_app.c:1883-1908 | over any run of polls and keys there are no more automatic toggles than intents armed, each one entitled |
| CallSurvivor.TogglesExactly | src/apps/calls_app.c:841-856 | a poll sends the toggle if and only if it finds the exact survivor held with nothing in the way, its time has come and the service admits it |
| CallSurvivor.IntentFate | src/apps/calls_app.c:797-867 | the intent is kept exactly until its time has come, and longer only while its leg is held and something stands in the way or another party is held too |
| CallSurvivor.PromotionArms | src/apps/calls_app.c:728-769 | the party left on hold when the other hangs up is to be retrieved, half a second later at the earliest; an active one is not |
| CallSurvivor.HoldTakesOver | src/apps/calls_app.c:480-496 | after a manual hold no run toggles more often than its own later steps arm |
| CallOutcomes.KeyAsksExactly | src/apps/calls_app.c:405-596 | every key sends exactly the requests named, with the leg each is about: only the active leg is released by its id, an answer is asked for once, and a set-up is abandoned only when any party that took over can be released |
| CallOutcomes.KeyLeavesParties | src/apps/calls_app.c:1607-1687 | answering, rejecting, swapping and holding bring back the call screen and move no party; one that asks for nothing does nothing |
| CallOutcomes.FailedCallShown | src/apps/calls_app.c:1160-1187 | a set-up the network has taken up fails exactly when a failure is reported or the modem falls idle after the call was seen; its entry is closed with the cause reported, nothing charged |
| CallOutcomes.ActiveConnects | src/apps/calls_app.c:1103-1123 | a sole call on the call screen is connected by a poll that finds it active 250 ms after the first that did |
| CallOutcomes.UnplacedDialFails | src/apps/calls_app.c:979-1003 | a dial without a SIM is refused after 480 ms, one without a network after 1200 ms and entered as such, through clock wrap; until then the set-up stays as it was |
| CallOutcomes.SecondGivenUp | src/apps/calls_app.c:1061-1103 | a second party is given up when its failure is reported, when it was active and is no more, or after a minute, each with its own cause; the held party is back live, to be retrieved when still on hold |
| CallOutcomes.DialOpens | src/apps/calls_app.c:1264-1332 | a dial admitted shows the party under its number and name, entered exactly when there is a SIM; one refused changes the screen alone |
| CallOutcomes.SecondDialKeeps | src/apps/dialogs_app.c:541-553 | dialling a second party holds the first with the time it shows and keeps whoever waits |
| CallOutcomes.CancelRestores | src/apps/calls_app.c:1764-1814 | giving up the second party brings the held one back live, closes the entry uncharged and means to retrieve the first; a release not admitted changes nothing |
| CallOutcomes.EndKeyCloses | src/apps/calls_app.c:1395-1430 | the end key closes what is on display and then what is held, a caller it turns away as rejected |
| CallOutcomes.AnswerKeyHolds | src/apps/calls_app.c:1607-1667 | a caller answered or rejected by key stays as it is while the network still reports it waiting |
| CallOutcomes.MarkClears | src/apps/calls_app.c:886-888 | the mark of that key is gone after the first poll without a waiting caller |
| CallOutcomes.ReleasedOncePerMinute | src/apps/calls_app.c:1740-1762 | the leg on display is asked to be released at most once a minute while it stays active with another caller waiting |
| CallOutcomes.StaysHungUp | src/apps/calls_app.c:1007-1010 | a call the user ended or rejected is not presented again by any number of polls that still report it ringing |
| CallOutcomes.IdleForgets | src/apps/calls_app.c:1137-1140 | once the modem has been idle the next ring is a new caller again |
| CallOutcomes.HoldIsShown | src/apps/calls_app.c:711-716 | a sole live call is shown on hold exactly when the network has it so |
| CallEvents.PollKeepsTotals | src/apps/calls_app.c:695-1194 | every poll keeps the totals equal to the saturated sums of the charges |
| CallEvents.RunKeepsTotals | src/apps/calls_app.c:1435-1456 | so does every run of polls and keys |
| StackBudget.Search.Visit | tools/check_stack_budget.py:88-118 | a visit returns the heaviest walk from its node and keeps the memo true, or reports a real cycle or unbounded frame; it ends because the active list grows |
| StackBudget.Search.VisitCallees | tools/check_stack_budget.py:102-113 | the loop over callees keeps the best of those done |
| StackBudget.MaximumPath | tools/check_stack_budget.py:84-120 | it succeeds exactly when no cycle and no unbounded frame is reachable; then the size is the maximum over all walks and the path a simple one that attains it; else the error names a reachable closed walk or frame |
| StackBudget.UnsoundHasEvidence | tools/check_stack_budget.py:88-100 | whenever the search must fail there is something to name |
| StackBudget.ReachableEdgeCounts | tools/check_stack_budget.py:123-143 | the worklist counts exactly the reachable functions with indirect calls and the reachable edges to unknown functions |
| StackBudget.ResolveRoot | tools/check_stack_budget.py:74-81 | a root resolves exactly when one frame bears its name |
| StackBudget.SplitRootMeaning | tools/check_stack_budget.py:179-183 | a root specification is split at its first equals sign, and refused when it has none |
| StackBudget.CheckRoot | tools/check_stack_budget.py:179-194 | one root's report is true, and its margin is not negative exactly when every chain fits |
| StackBudget.CheckRoots | tools/check_stack_budget.py:177-194 | the loop over roots fails exactly when some root does not fit |
| StackBudget.Gate | tools/check_stack_budget.py:163-202 | the gate passes exactly when the sizes make sense and every root fits what the reserves leave |
| StackBudget.PassingGateFitsStack | tools/check_stack_budget.py:163-202 | behind a passing gate every direct call chain from every root plus both reserves fits the stack |
| Calculator.TrimDecimalText | src/apps/calculator_app.c:694-709 | the buffer afterwards holds the text with trailing fractional zeros and a bare point removed |
| Calculator.CarryCharacter | src/apps/calculator_app.c:750-762 | one turn of the carry loop keeps what is still to be carried, or absorbs it |
| Calculator.CarryBack | src/apps/calculator_app.c:747-769 | the carry loop leaves the text one unit higher in its last place, asking for a new leading 1 when all digits were nines |
| Calculator.RoundDisplayText | src/apps/calculator_app.c:711-770 | nine characters, rounded half up on the tenth when it is a digit and cut when it is the point |
| Calculator.CalculatorNumber | src/apps/calculator_app.c:593-617 | the reader returns the decimal its digits denote, however many |
| CalculatorText.CarryFixed | src/apps/calculator_app.c:750-769 | carrying into a printed decimal and trimming prints the next decimal |
| CalculatorText.TrimFixed | src/apps/calculator_app.c:694-709 | trimming a printed decimal gives its shortest numeral |
| CalculatorText.FixedAssembled | src/apps/calculator_app.c:651-679 | putting the point into the digit string prints the decimal |
| CalculatorText.PipelineText | src/apps/calculator_app.c:681-690 | rounding and trimming the raw text keep eight digits around the point, the last rounded half up |
| CalculatorFormat.ScaleUp | src/apps/calculator_app.c:632-638 | the scaling loop multiplies by a power of ten until the threshold or nine times |
| CalculatorFormat.StripIntegerZeros | src/apps/calculator_app.c:644-647 | dropping trailing zeros keeps the value |
| CalculatorFormat.AssembleRaw | src/apps/calculator_app.c:648-679 | the raw text prints the scaled integer with its point |
| CalculatorFormat.MagnitudePrinted | src/apps/calculator_app.c:632-683 | whatever the scaling loop stopped at, the text is that of the number rounded to its kept decimals |
| CalculatorFormat.FormatNumber | src/apps/calculator_app.c:619-692 | it succeeds exactly up to 999999999 and writes the text of the number, cut to the buffer |
| CalculatorRoundTrip.TrimKeepsValue | src/apps/calculator_app.c:694-709 | trimming keeps the value the reader sees |
| CalculatorRoundTrip.TextReads | src/apps/calculator_app.c:593-617 | a printed text reads back as the printed number, with and without sign |
| CalculatorRoundTrip.ReadBackError | src/apps/calculator_app.c:593-770 | for every number in range, of either sign, what is printed and read back is within half a unit of the last kept decimal below 10^8, and is the number cut to its integer part from there on |
| CalculatorRoundTrip.PrintAndRead | src/apps/calculator_app.c:593-692 | printing into eleven or more characters and reading gives that number, and printing it again the same text |
| CalculatorRoundTrip.FormatRoundTrip | src/apps/calculator_app.c:593-692 | reading a printed text and printing it again gives exactly that text |
| CalculatorRoundTrip.MagnitudeShape | src/apps/calculator_app.c:681-690 | at most nine characters, canonical: no leading zero, trailing point or trailing fractional zero |
| CalculatorRoundTrip.FormatShape | src/apps/calculator_app.c:684-690 | a sign adds one character and never stands before 0 |
| BatteryEvidence.CollapseEvidence.Update | src/apps/battery_status_logic.c:12-51 | the evidence after a sample, and whether it confirms |
| BatteryEvidence.RecentMeaning | src/apps/battery_status_logic.c:21-33 | what counts is the longest end of the history whose samples are valid and share one threshold |
| BatteryEvidence.ConfirmedMeaning | src/apps/battery_status_logic.c:12-51 | it confirms exactly when that end, adjacent repeats of a sequence number dropped, ends in two samples below the threshold; the counter is the number of them, at most 255 |
| BatteryEvidence.RepollIsIdle | src/apps/battery_status_logic.c:34-38 | polling a cached sample again changes nothing |
| BatteryEndpoint.Endpoint.Step | src/apps/battery_status_logic.c:64-162 | the endpoint state and decision after one poll's signs |
| BatteryEndpoint.UntrustedEndpoint | src/apps/battery_status_logic.c:86-146 | without trusted charge exactly the four physical signs end the run, always as a natural EMPTY |
| BatteryEndpoint.CallWithTrustedCharge | src/apps/battery_status_logic.c:86-146 | in a call with trusted charge only the confirmed floor ends it, and teaches nothing |
| BatteryEndpoint.IdleWithTrustedCharge | src/apps/battery_status_logic.c:86-146 | outside a call the floor ends it, or a valid EMPTY reading with no sag latched |
| BatteryEndpoint.SagHolds | src/apps/battery_status_logic.c:86-103 | a latched sag stays until it is cleared and leaves only the floor outside a call to teach EMPTY |
| BatteryRuntime.Supervisor.CancelEmptyCountdown | src/app_status_runtime.c:106-114 | the countdown is off and its notice gone |
| BatteryRuntime.Supervisor.PollBattery | src/app_status_runtime.c:125-432 | one whole poll is the poll the theorems are about |
| BatteryRuns.RescuedPoll | src/app_status_runtime.c:307-311 | verified charging and power-off end any countdown |
| BatteryRuns.CountingPoll | src/app_status_runtime.c:312-412 | anything else leaves a running countdown alone until it is due, then turns the phone off |
| BatteryRuns.IdlePoll | src/app_status_runtime.c:312-360 | with none running, one starts exactly on a shutdown decision, offering EMPTY exactly when that is to be learned |
| BatteryRuns.LowPoll | src/app_status_runtime.c:361-387 | exactly when a poll warns of a low battery, and when the next warning is due |
| BatterySafety.DueAt | src/app_status_runtime.c:355-358 | the deadline word is that of an instant 2056 ms after arming, or 2057 when the word would be 0 |
| BatterySafety.CountdownFate | src/app_status_runtime.c:278-412 | from arming on, for any number of polls with any readings, calls and screens and however far apart: the countdown is untouched up to the first poll that brings charging or power-off or is due by its clock; that one cancels it or turns the phone off, never before 2056 ms, through clock wrap |
| BatterySafety.PunctualPoll | src/app_status_runtime.c:406-412 | a poll is due exactly at or after the deadline when it comes less than 2^31 ms after one before it |
| BatterySafety.TurnOffNeedsCountdown | src/app_status_runtime.c:406-412 | the phone is turned off by nothing but a countdown that is due |
| BatterySafety.RunOffers | src/app_status_runtime.c:325-360 | over any run EMPTY is offered exactly once for each countdown armed for a natural endpoint, when it is armed, and never for an emergency |
| BatterySafety.OfferIsLegitimate | src/app_status_runtime.c:312-346 | never while a countdown runs, never in a call with trusted charge, never without a physical sign |
| BatterySafety.CallLatchesSag | src/apps/battery_status_logic.c:86-103 | an EMPTY reading in a call with trusted charge is latched as a sag and not offered |
| BatterySafety.SagTeachesNothing | src/apps/battery_status_logic.c:86-136 | from then on, for as long as charge stays trusted and nothing clears it, a run offers EMPTY only if the floor is confirmed outside a call |
| BatterySafety.FloorMeaning | src/app_status_runtime.c:262-270 | over a run of polls the floor is confirmed exactly by two distinct low samples at the end of what was sampled |
| BatterySafety.SpellCadence | src/app_status_runtime.c:361-387 | over one spell of low battery the second warning is at least 61 s after the first, later ones at least 614 s apart, through clock wrap |
| BatterySafety.DueWarningShown | src/app_status_runtime.c:361-387 | a poll of the spell warns exactly when it sees LOW, the screen is free and the time has come |
| BatteryReadings.FloorByReadings | src/apps/battery_status_logic.c:12-56 | after any run of polls the floor is confirmed if and only if the usable samples since the last unusable one or the last start or end of a call, adjacent repeats dropped, end in two below 1800 mV in a call or below 2100 mV outside one |
| BatteryReadings.ArmsExactly | src/app_status_runtime.c:262-360 | over any run a poll arms a countdown if and only if none runs, nothing rescues and its readings end the run; it offers EMPTY then, and only then, unless in a call with trusted charge |
| BatteryReadings.SagByReadings | src/apps/battery_status_logic.c:86-103 | a sag is held exactly when some poll of the run saw it and none since has shown it over |
| BatteryReadings.CallSagNeverArms | src/app_status_runtime.c:256-360 | while every usable sample of a call shows 1800 mV or more no poll of it with trusted charge arms a countdown, whatever gauge and rails say and whatever came before |
| BatteryReadings.IdleCollapseArms | src/app_status_runtime.c:256-360 | two different samples below 2100 mV in two polls running outside a call arm one, whatever the gauge says |
| BatteryReadings.LowByReadings | src/app_status_runtime.c:297-305 | a poll is in the low zone exactly when no countdown runs or starts and a valid reading says low, empty, exhausted or a collapsed supply; it holds the schedule exactly when there is no valid reading |
| BatteryReadings.WarnsByReadings | src/app_status_runtime.c:361-387 | in a spell of low battery a poll warns exactly when its sample is valid, nothing is on the screen and the time has come: at once, after 61 s, then every 614 s |
| BatteryReadings.KindByReadings | src/apps/battery_status_logic.c:105-162 | the endpoint reported is that of the countdown while one runs and otherwise what the readings come to; a disagreement is a predicted end that no voltage agrees with |
| BatteryReadings.RescueRestores | src/app_status_runtime.c:106-114 | charging that comes while the empty notice is up brings back what it covered |
| BatteryReadings.PollLog | src/app_status_runtime.c:211-412 | everything one poll asks of the services and shows, in order, by its readings: charging, full, low and empty notices, the release of the charging floor, the offer of EMPTY and the turn-off |
| Clcc.ParseUint | include/services/modem_call_at.h:14-44 | accepts exactly a digit run whose number is in range, with what must follow it, in 32 bits without overflow; otherwise the cursor stays |
| Clcc.ParseNumber | include/services/modem_call_at.h:46-87 | the buffer holds the number, quoted or bare, cut to what fits; exactly when a type in range follows |
| Clcc.RowSlot.ParseClccRow | include/services/modem_call_at.h:89-139 | the caller's row is the parsed one, and is untouched when the line is refused |
| ClccRoundTrip.RowRoundTrip | include/services/modem_call_at.h:89-139 | every row in range, with no number, a quoted or a bare one and any fields after it, parses to what it says |
| ClccRows.RowReads | include/services/modem_call_at.h:89-139 | a row printed by the code of each direction, mode, flag and state parses to that row, its number cut to 32 characters |
| ClccRows.AcceptedFields | include/services/modem_call_at.h:89-139 | any accepted line is the prefix and five numbers between commas, and each field of its row is what the number in its place means |
| ClccRoundTrip.AcceptedRow | include/services/modem_call_at.h:97-139 | every accepted row has an id from 1 to 7 and at most 32 characters of number |
| ClccRoundTrip.UintAcceptsByValue | include/services/modem_call_at.h:21-43 | a digit run of any length is accepted exactly when its number is at most the limit |
| AtCsv.CopyField | include/services/modem_at_util.h:53-68 | the copying loop stops at the end of the field and keeps what fits |
| AtCsv.NextField | include/services/modem_at_util.h:36-77 | the buffer holds the next field, the cursor strictly advances; false exactly at the end, the buffer untouched |
| AtCsv.AppendQuoted | include/services/modem_at_util.h:147-166 | the quoted text for every buffer size from 1 on |
| AtCsv.ReadFields | include/services/modem_at_util.h:36-77 | asking for fields until refused gives all of them, as the buffer keeps them |
| AtCsv.WriteAndRead | include/services/modem_at_util.h:36-166 | what the quoter wrote into buffers and was joined by commas, the reader gives back from buffers: exactly those fields, and then nothing more |
| AtCsv.CsvRoundTrip | include/services/modem_at_util.h:36-77 | any list of fields quoted and joined by commas reads back, double quotes made single, and then nothing more |
| AtLines.LineReads | include/services/modem_at_util.h:36-77 | a line of quoted and bare fields, with any spaces before a field and after a closing quote, reads as the texts between the quotes and the commas |
| AtLines.LastEmptyLost | include/services/modem_at_util.h:36-47 | an empty bare field at the very end is not read at all |
| DecimalX100.ParseWhole | include/services/modem_at_util.h:98-105 | the clamp keeps the whole part at most 327679 and exact while that matters |
| DecimalX100.ParseFraction | include/services/modem_at_util.h:106-119 | the fraction is its first two digits, padded |
| DecimalX100.HundredthsSplit | include/services/modem_at_util.h:106-120 | for a fraction of any length those two digits decide the whole hundredths |
| DecimalX100.ParseDecimalX100 | include/services/modem_at_util.h:88-125 | sign times the smaller of 32767 and the whole hundredths of the number, with every step inside a 32-bit int |
| UartFlow.OccupancyExact | include/hal/modem_uart_flow_logic.h:32-35 | occupancy is bytes produced minus consumed through the wrap of 32-bit counters while that fits the ring |
| UartFlow.IndexOccupancyExact | include/hal/modem_uart_flow_logic.h:32-35 | the same for indices that wrap at the ring size |
| UartFlow.NeverOverflows | include/hal/modem_uart_flow_logic.h:37-46 | over any run in which at most 127 bytes follow a pause the ring never fills, pauses and resumes alternate, and 384 net bytes are drained between them |
| UartFlow.SwitchesExactly | include/hal/modem_uart_flow_logic.h:37-46 | an unpaused link pauses on exactly the first event that leaves 896 bytes held, a paused one resumes on exactly the first that leaves at most 512 |
| UartFlow.BoundIsTight | include/hal/modem_uart_flow_logic.h:32-46 | a run that keeps the rule up to its last byte fills the ring with the 128th late byte, and the full ring reads as empty and resumes |
| Crc32.UpdateLoop | src/storage/storage_journal.c:238-247 | the byte and bit loops compute the remainder |
| Crc32.UpdateConcat | src/storage/storage_journal.c:192-202 | checking a payload in pieces gives the checksum of the whole |
| CrcCollision.SameChecksum | src/storage/storage_journal.c:238-247 | two payloads of five bytes with one checksum, one of them all erased |
| Journal.Device.ReadSlot | src/storage/storage_journal.c:163-211 | a slot reads as its record exactly when header, length and checksum are right |
| Journal.Device.ReadLatest | src/storage/storage_journal.c:63-84 | the newer valid record, when it fits |
| Journal.Device.BuildImage | src/storage/storage_journal.c:118-129 | the buffer holds the record's image |
| Journal.Device.Program | src/storage/storage_journal.c:131-147 | the slot holds as many bytes of the image as the power lasts for, over erased or old ones |
| Journal.Device.ChooseTarget | src/storage/storage_journal.c:97-116 | the older slot and the number after the newer's, skipping 0 |
| Journal.Device.Write | src/storage/storage_journal.c:86-154 | the two slots after a write that gets through any number of bytes, and when it reports success |
| JournalSafety.TornReads | src/storage/storage_journal.c:163-211 | what a slot reads as after a write cut at any byte over an erased slot |
| JournalSafety.CutWrite | src/storage/storage_journal.c:63-154 | from any contents of both slots the newest record stays, or is the torn payload under the next number exactly when that passes the checksum |
| JournalSafety.OldOrNew | src/storage/storage_journal.c:63-154 | the newest record is the old one or the new one if and only if no torn payload has the checksum of the whole |
| JournalSafety.CollisionExists | src/storage/storage_journal.c:188-205 | there is one that has |
| JournalSafety.WholeWrite | src/storage/storage_journal.c:86-154 | a record that got through is read back |
| JournalSafety.ReadsLastThrough | src/storage/storage_journal.c:63-154 | over any number of writes each cut at any byte, what is read is the last payload that got through, through the wrap of the sequence number |
| JournalSafety.StaleComesBack | src/storage/storage_journal.c:132-147 | without erasing, a cut up to the end of the sequence word brings the older record back as the newest exactly when the mixed number is after the newer's |
| JournalSafety.StaleExample | src/storage/storage_journal.c:132-147 | records 5 and 6 and a write cut after byte 13 |
| CircularMenu.StepShows | include/ui/ui.h:93-128 | from any stored state one step puts the selection inside the window |
| CircularMenu.StepIsLazy | include/ui/ui.h:109-127 | the window moves exactly when the selection stood on the edge it moves over |
| CircularMenu.UpUndoesDown | include/ui/ui.h:115-125 | a step up undoes a step down |
| CircularMenu.List.Step | include/ui/ui.h:93-128 | the stored bytes after a step, with the selection shown |
| GamesMenu.CountVisible | src/apps/games_app.c:56-64 | the loop counts the visible rows |
| GamesMenu.RawAtVisible | src/apps/games_app.c:66-78 | the loop finds the stored row of a visible position |
| GamesMenu.VisibleIndex | src/apps/games_app.c:80-88 | the loop finds the visible position of a stored row |
| GamesMenu.GatedCounts | src/apps/games_app.c:48-54 | six games with the gate open, four with it shut |
| GamesMenu.VisibleThenRaw | src/apps/games_app.c:66-88 | stored to visible and back is the identity on visible rows |
| GamesMenu.RawThenVisible | src/apps/games_app.c:66-88 | so is visible to stored and back |
| GamesMenu.Menu.Open | src/apps/games_app.c:107-112 | the menu opens on a visible game that its window shows |
| GamesMenu.Menu.Press | src/apps/games_app.c:119-127 | so does every UP and DOWN, from any stored state and whatever the gate has become |
| GamesMenu.FullTurn | src/apps/games_app.c:119-127 | as many DOWN presses as there are visible games return to the start |
| GamesMenu.NoneTwice | src/apps/games_app.c:119-127 | no game is met twice on the way |
| GamesMenu.EachMet | src/apps/games_app.c:119-127 | every visible game is met |

## Left out

- The IEEE rounding of `double` in the calculator: numbers are exact reals, so a
  not-a-number argument does not arise either.
- CalculatorRoundTrip.ReadBackError: measures the error in units of the last kept
  decimal, through repeated multiplication by ten.
- CallDisplay.PollRefinesNetwork: leaves out the polls on which a waiting caller takes
  the session over (`HandsOver`); the poll that finds that caller answered is
  `AnsweredIsShown`.
- CallConservation.EventTotals: leaves out the events of `Discards`, which drop time,
  and legs that reach 2^31 ms.
- CallDuration.OriginalReleasedConserves: counts the dialling seconds the code adds
  as due to the held party.
- CallProjection.CallModel.ProjectCalls: leaves out the caller's number and its
  marks, the departure journal and the reason bits but the one for a clash; the
  transactions are those the projection reads.
- CallIdentity.CallerSettledByPoll: takes statuses that show a second held party only
  beside an active call, as every published row does (`PublishedIsConsistent`).
- CallRegister.RunRegister: takes polls with such statuses.
- CallOutcomes.UnplacedDialFails: takes an idle modem that reports no failure.
- BatteryReadings.IdleCollapseArms: takes a repeated sample number for the same sample.
- UartFlow.NeverOverflows: states the gate over produced and consumed counts; the
  interrupt handler, FIFO, error flags and re-arming of the UART driver are not part
  of this model.
- GamesMenu.Menu.Press: takes any gate that shows the first row; the phone has the
  two of `ExtraRows`.
- Journal.Device.Write: a cut erase, device errors and write alignment are not part of
  this model; the device is its two slots.
- JournalSafety.StaleComesBack: cuts after the sequence word, over a slot that is not
  erased, are left out.
- The rest of the call model (transactions, reconciliation with the call list,
  scheduling), the vendor adapter, the battery learner, gauge and charge supervisor:
  their answers are arbitrary inputs of a poll, and what is asked of them is a log.
- Failing writes of the store, the life timer and the eviction of register entries
  beyond twenty.
- Number and name buffers of equal size, so that copying between them never cuts.
- Whether charging is verified, a completed charge and the anchored remaining charge
  are single inputs of a battery poll; flushing the store is not modelled.
- BatterySafety.CountdownFate: takes a clock that never goes back.
- Rendering, tones, volume, vibration, the dirty flag and what handlers return to
  the key dispatcher; the battery bars and their charging animation.
- Parsing of call-graph files, command-line handling and report writing of the stack
  gate, and the recursion limit of its interpreter: it starts from a built graph.
- The order in which a Python set yields callees: the search takes them in any order.
- Calculator entry, operators, exchange rates and their menus; call-register menus,
  call-divert dialogs, alarms, power-up: they would only add easy members.
