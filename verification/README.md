# Verified model of the charger firmware

A Dafny model of three parts of the firmware in `src/app`, with proofs about all their inputs and runs.
`dafny verify dfyconfig.toml` checks everything.

**The charging session** (`taskcharge.c`, `connector.c`, `interface_diag.c`). Each connector has an eleven-state machine,
and three debounced diagnosis machines (voltage, current, frequency) run beside it in another task. They share event bits
and drive one output relay. `ChargeSpec` says what one pass of the charging task and one call of each diagnosis function
do; `ConnectorTask` holds the connector as an object updated in place, proves every method against `ChargeSpec`, and
shows that each call of a task keeps the invariant of all runs.
`Runs` lets passes, calls, samples, timers and the other tasks follow one another in any order from power-up; the modules
after it prove what all such runs have in common: `Session` (relay against voltage, relay against state, retries),
`Authorisation`, `LockOut`, `CurrentHistory`, `OvercurrentStop`, `StopPhase`, `DebounceHistory`, `Delays`, `PilotHistory` and
`SocketB`. `PassLaws`, `Limits` and `DiagBits` say of single passes and calls, in bits, volts, hertz and readings, what
`ChargeSpec` computes. `TimerHistory` is the timer argument the histories share; `PowerUp` is a run of either socket up to
charging, from which the runs that go wrong start.

**Time-of-use billing** (`order.c`). `Ledger` is the ledger of periods as functions, `Billing` the order updated in place.
`Accounting`, `Readings`, `Timekeeping`, `Calendar`, `SkippedVisits` and `Rounding` relate the ledger and the shown
totals to the full sequence of meter readings and clock readings; `Reentry` is a session that is billed too much.

**Stores and queues** (`interface_remote.c`, `cfg_order.c`, `cfg_parse.c`, `file_op.c`): `RemoteQueue` and
`RemoteIsolation`, `OrderLog`, `KeyText` and `ConfigTree`, `WorkList`, with shared list lemmas in `Lists` and
the numbering of connectors in `Numbering`.

## What the proofs show about the code

- A type B connector can come back to IDLE with its relay commanded closed (`SocketB.IdleWithRelayClosed`): ERROR lets go
  on an open latch alone. For every socket `Session.RelayConfinedExactly` gives the exact condition, the guard of that
  branch. In UNLOCK a type B connector whose lock bit is already clear waits until the latch reads closed again: after a
  voltage trip while charging, which opens the latch, a stop hangs there (`SocketB.HangsInUnlock`).
  `SocketB.StopPhaseEndsB` says exactly how long UNLOCK lasts and where it ends.
- A connector whose pilot is found in PWM by every pass of STOPCHARGE is never told to open its relay: it gives up with
  the relay commanded closed (`StopPhase.GivesUpClosedExactly`, `PowerUp.GivesUpClosed`). On type C it stays so until an
  ERROR pass reads the relay open (`Session.GivenUpLasts`), and then it is let go to RETURN with the relay still
  commanded closed (`Session.LetGoClosed`).
- The comment at `src/app/interface_diag.c:442` expects the connector to have left CHARGING before the current machine
  reaches its error state. The code does not arrange that: the alarm that ends the charge is raised on reaching it
  (`OvercurrentStop.ChargesUntilLockOut`), and a connector can be charging then (`OvercurrentStop.ChargesInErrorState`).
  The model follows the code.
- `StartCharge` is documented to report a failed start, but always returns ERR_NO, so a pass that is allowed to start
  always enters CHARGING.
- The limit of 85800 s at `src/app/taskdata.c:159` does not keep a session from coming back to a period it left, and then
  the time away is billed (`Reentry.LongSessionOverbills`). `Readings.EnergyConservedByReadings` says exactly when the
  ledger is right; `Calendar.ShortSessionsDoNotReenter` gives a limit that suffices.
- A period left before its first visit is recorded with the whole time since the epoch, as in a session made in the last
  second of an hour (`SkippedVisits.SkipsFirstPeriod`). `SkippedVisits.TimesRightIffVisited` says exactly when the
  recorded times are right.
- The late bit of a command is taken by whichever connector polls first (`RemoteIsolation.PollsCommute`).
- An overflow of the order log removes every other one of the oldest twenty orders, and an unreadable record stops the
  upload of unpaid orders for good (`OrderLog.OverflowRemovesEveryOther`, `OrderLog.UploadEnds`).
- `parse_flist` reports success without reading anything for a path that holds neither "json" nor "nosj", and leaves an
  installed boot loader behind the last pending file marked with status 1 (`WorkList.ListFile.ParseFlist`,
  `WorkList.DrainLeavesNone`).

## Model

| member | source | states |
|---|---|---|
| Session.VoltageRelayAgreement | src/app/interface_diag.c:147-308 | in every interleaving, while a connector is in CHARGING: relay commanded closed, VoltOK set, and voltage status in {OK, LOWER_Dummy, UPPER_Dummy} are equivalent |
| Session.RunSound | src/app/taskcharge.c:136-590 | the joint invariant of charging task and voltage diagnosis holds at every point of every run |
| Session.RetriesBounded | src/app/taskcharge.c:455-528 | stop_try is 0 before a stop, strictly between 0 and 5 only in STOPCHARGE, never above 5; unlock_try never above 5 and 0 on type C; dev_err clear before a stop |
| Session.StartOkSpansSession | src/app/taskcharge.c:306-310 | StartOK is set exactly in CHARGING, in STOPCHARGE, and after a stop that gave up until RETURN has been left |
| Session.RelayConfinedExactly | src/app/taskcharge.c:529-570 | for any socket: the relay is commanded closed only in CHARGING, STOPCHARGE or UNLOCK/ERROR/DEV_ERROR with stop_try = 5 throughout a run iff no ERROR pass lets a connector go with it closed |
| Session.RelayConfined | src/app/taskcharge.c:455-590 | for type C with a relay that may weld but never reads open while commanded closed, that confinement holds in every run |
| Session.GivenUpLasts | src/app/taskcharge.c:529-579 | a type C connector that gave up stopping with its relay commanded closed stays so, without charging, iff no ERROR pass reads the relay open and lets it go |
| Session.GivenUpForGood | src/app/taskcharge.c:529-579 | so it stays so for ever if no ERROR pass reads the closed relay open |
| Session.LetGoClosed | src/app/taskcharge.c:551-558 | the pass that lets it go takes it to RETURN with the relay still commanded closed |
| PowerUp.GivesUpClosed | src/app/taskcharge.c:471-481 | a run of a type C connector that gives up stopping with its relay commanded closed, no pass reading the closed relay open |
| SocketB.UnlockWaits | src/app/taskcharge.c:514-517 | type B: UNLOCK with the lock bit clear is left only after a diagnosis call that reads the latch closed |
| SocketB.OpenLatchHangs | src/app/taskcharge.c:514-517 | type B: UNLOCK with the lock bit clear and the latch not read closed lasts until a reading finds the latch closed |
| SocketB.UnlockLasts | src/app/taskcharge.c:483-518 | type B: a connector stays in UNLOCK iff fewer than five passes in all have found the lock bit set, none of them with a device error and none reading the latch open |
| SocketB.StopPhaseEndsB | src/app/taskcharge.c:455-528 | type B: UNLOCK within five StopCharge passes; it lasts exactly as long as UnlockLasts says; it is left for RETURN iff the pass read the latch open, some StopCharge returned ERR_NO and there was no device error, else for ERROR |
| SocketB.HangsInUnlock | src/app/taskcharge.c:514-517 | a run of a type B connector that, after a stop that succeeded, is in UNLOCK with the latch open and the lock bit clear, and stays there however it goes on until a reading finds the latch closed |
| SocketB.IdleWithRelayClosed | src/app/taskcharge.c:559-568 | a run of a type B connector, no pass of which reads the relay open while it is commanded closed, that ends in IDLE with the relay commanded closed |
| Authorisation.GrantBefore | src/app/taskcharge.c:281-310 | from a state without authorisation, a session starts only after a grant |
| Authorisation.FreshAuthorisation | src/app/taskcharge.c:580-589 | between two entries to CHARGING lie a RETURN pass, which clears the authorisation, and after it a new grant |
| Authorisation.SessionsWithinGrants | src/app/taskcharge.c:281-310 | in every run the entries to CHARGING never outnumber the grants |
| LockOut.OvercurrentLockOut | src/app/interface_diag.c:410-458 | between an overcurrent lock-out and the next session, in this order: plug seen gone with current not over limit, init delay started, init delay expired, current sampled in limits; CurrOK clear up to there |
| CurrentHistory.LockOutHistory | src/app/interface_diag.c:354-436 | a lock-out looks back on two delays of 2000 ms in which every call but the one between them sampled over 1.1 times the rated current |
| CurrentHistory.LockOutLasts | src/app/interface_diag.c:335-353 | the init delay between release and the next session has run at least 500 ms |
| CurrentHistory.OverLimitLocksOut | src/app/interface_diag.c:354-436 | conversely, samples that stay over 1.1 times the rated current lock the connector out: at the latest by the first call after the timer task found the second delay of 2000 ms expired |
| CurrentHistory.CurrentEffects | src/app/interface_diag.c:316-459 | what a current call does to its two alarms, CurrOK and the pilot, by status, due bit and current |
| OvercurrentStop.ChargesUntilLockOut | src/app/taskcharge.c:399-405 | through both delays, 4000 ms in all, no pass records an overcurrent stop: a connector charging at their start charges until the lock-out iff every pass meets the condition of PassLaws.ChargingGoesOn; only the lock-out raises the alarm |
| OvercurrentStop.ChargesInErrorState | src/app/interface_diag.c:442-454 | a run that is in CHARGING with the relay closed when the current machine is in its error state |
| StopPhase.StopPhaseEnds | src/app/taskcharge.c:455-528 | type C: the stop phase ends within five StopCharge passes and one UNLOCK pass, in RETURN iff some StopCharge returned ERR_NO and there was no device error, else in ERROR |
| StopPhase.StopPassesEnd | src/app/taskcharge.c:455-482 | for any socket: from STOPCHARGE at most five StopCharge passes lead to UNLOCK, with stop_try 0 iff one of them returned ERR_NO |
| StopPhase.RelayThroughStop | src/app/connector.c:1021-1052 | for any socket: through STOPCHARGE the relay stays commanded closed iff it was on entry and no pass finds the pilot out of PWM |
| StopPhase.GivesUpClosedExactly | src/app/taskcharge.c:455-482 | a stop phase gives up with the relay commanded closed iff the relay was commanded closed on entry and no pass found the pilot out of PWM |
| DebounceHistory.ClearedByTrip | src/app/interface_diag.c:179-204 | VoltOK and FreqOK are cleared only by a trip of their machine, and by every trip |
| DebounceHistory.TripHistory | src/app/interface_diag.c:179-234 | before a trip every call from the timer start up to the expiring one sampled above voltUpper (51 Hz) or every one below voltLower (49 Hz), for 3000 ms (1000 ms), and the machine is left on that side |
| DebounceHistory.RecoverHistory | src/app/interface_diag.c:239-305 | before a recovery every call over 5000 ms (1000 ms), the expiring one excepted, sampled at least 10 V (0.5 Hz) inside the limits; it leaves the machine in order with its OK bit set |
| DebounceHistory.OutHasNoBit | src/app/interface_diag.c:235-305 | a channel that tripped and has not recovered has its OK bit clear |
| DebounceHistory.RecoveredBetween | src/app/interface_diag.c:263-305 | a tripped channel is back in order only through a recovery |
| DebounceHistory.RestoredByRecovery | src/app/interface_diag.c:263-283 | after a trip the OK bit is set again only after a recovery |
| DebounceHistory.TripsApart | src/app/evse_config.h:58-62 | two trips of a channel lie at least one recovery delay and one trip delay apart |
| DebounceHistory.VoltageTripsApart | src/app/evse_config.h:58-59 | two voltage trips lie at least 8000 ms apart |
| Delays.OutOfLimitsTrips | src/app/interface_diag.c:147-234 | a channel in order whose samples stay beyond one limit trips: at the latest at the first call after the timer task found the delay expired its bit is cleared, and a charging connector has its relay commanded open |
| Delays.WellInsideRecovers | src/app/interface_diag.c:235-305 | a tripped channel whose samples stay well inside the limits recovers in the same way, and a charging connector has its relay commanded closed |
| Limits.VoltageCall | src/app/interface_diag.c:132-308 | status, timer, due bit and VoltOK after one call, by the sample in volts and the configured limits |
| Limits.VoltageOutput | src/app/interface_diag.c:188-283 | a call switches relay and type B latch of a charging connector off on a trip and on on a recovery, and at no other time |
| Limits.VoltageAlarms | src/app/interface_diag.c:149-262 | the two voltage alarms after a call, by status and sample |
| Limits.FrequencyCall | src/app/interface_diag.c:724-876 | status, timer, due bit and FreqOK after one call, by the sample in hertz |
| Limits.FrequencyAlarm | src/app/interface_diag.c:724-876 | the frequency alarm after a call, by status and sample |
| PilotHistory.PilotFilter | src/app/connector.c:300-368 | with b bad samples since the last good one: CP_ERR and the CP fault iff b >= 3, else the state the voltage of the last good sample and the pilot output then stand for; the counter is b mod 3 |
| PilotHistory.PlugByPilot | src/app/connector.c:471-519 | after a good sample: PLUG iff b < 3, that sample lay within 7.8 to 9.8 V or 5.2 to 6.8 V and, on type B, the last poll found the contact closed |
| PilotHistory.PlugBeforeGood | src/app/connector.c:471-519 | before any good sample: PLUG iff there were one or two bad ones since the last error and, on type B, the last poll found the contact closed |
| PassLaws.ChargingGoesOn | src/app/taskcharge.c:317-454 | from CHARGING a pass stays iff no fault (a failed card reader aside on a remote start), none of the seven demands, no overcurrent alarm, no scram, plug in, S2 not open, and all fifteen bits set or VoltOK clear; else it turns to STOPCHARGE; outputs, event bits and timers stay |
| PassLaws.FirstDemandTaken | src/app/taskcharge.c:342-398 | else exactly the first demand set, in the order listed, leaves the exception bits, and exactly its own reason is recorded |
| PassLaws.ReasonRecorded | src/app/taskcharge.c:399-453 | without a demand: the one reason recorded, by alarm, scram, plug, S2 and the two temperature bits |
| PassLaws.FromIdle | src/app/taskcharge.c:138-150 | the next state and what else changes |
| PassLaws.FromPluged | src/app/taskcharge.c:151-203 | the pilot goes to PWM once the twelve bits are set; PRECONTRACT iff it then reads 9 V or 6 V PWM with the plug in |
| PassLaws.FromPrecontract | src/app/taskcharge.c:204-236 | the next state by plug, supply and S2; a lost plug starts one second |
| PassLaws.FromLosePlug | src/app/taskcharge.c:237-255 | back when the plug is, RETURN when the second is over |
| PassLaws.FromStarting | src/app/taskcharge.c:256-316 | the relay closes and StartOK is set iff all fifteen bits are set; a type B latch is commanded closed when authorised and not yet locked |
| PassLaws.FromStopping | src/app/taskcharge.c:455-482 | pilot, relay, authorisation, retry count and next state of a stopping pass, by pilot state and relay reading |
| PassLaws.FromUnlocking | src/app/taskcharge.c:483-528 | latch, lock bit, retry count and next state of an unlocking pass, by socket and latch reading |
| PassLaws.FromFaulted | src/app/taskcharge.c:529-570 | where an ERROR pass leads, by device flag, readings and retry counts |
| PassLaws.FaultsShown | src/app/taskcharge.c:529-570 | which faults an ERROR pass shows, by readings and retry counts |
| PassLaws.FromDevFaulted | src/app/taskcharge.c:571-579 | DEV_ERROR is left for ERROR iff no fault of connector or station is left |
| PassLaws.FromReturning | src/app/taskcharge.c:580-589 | RETURN clears the authorisation, the counters and the load share and ends in IDLE |
| PassLaws.OneWorkBit | src/app/taskcharge.c:14-44 | exactly the work bit of the state is shown, the signal bits of the other tasks stay |
| DiagBits.PlugBits | src/app/interface_diag.c:877-903 | plug and S2 bits and their signals by plug and pilot state, and nothing else changes |
| DiagBits.LockBits | src/app/interface_diag.c:904-924 | the lock bit and its signal by socket and latch reading, and nothing else changes |
| DiagBits.ReadingsStored | src/app/connector.c:819-969 | which passes read the relay; what they read is stored and shown on both lines |
| DiagBits.LoadSet | src/app/connector.c:381-405 | a new load share is stored and switches the pilot, the old one again does nothing |
| ConnectorTask.Connector.CONCreate | src/app/connector.c:1107-1180 | a new connector is in the initial state of every run |
| ConnectorTask.Connector.GetCPState | src/app/connector.c:265-377 | the pilot state, error counter, fault and pilot output after a sample |
| ConnectorTask.Connector.GetPlugState | src/app/connector.c:471-519 | the plug state after a sample, by socket type |
| ConnectorTask.Connector.SetBTypeSocketLock | src/app/connector.c:585-621 | commands the latch, then stores its reading |
| ConnectorTask.Connector.GetRelayState | src/app/connector.c:819-874 | stores the relay reading and shows it in the signal word |
| ConnectorTask.Connector.SetRelay | src/app/connector.c:882-969 | commands the relay, then stores its reading |
| ConnectorTask.Connector.StartCharge | src/app/connector.c:978-998 | closes the relay and returns ERR_NO whatever it reads |
| ConnectorTask.Connector.StopCharge | src/app/connector.c:1008-1069 | returns ERR_NO iff the pilot has left PWM and the relay reads open; opens the relay only in the first case |
| ConnectorTask.Connector.SetCONSignalWorkState | src/app/taskcharge.c:14-44 | exactly one of the four work bits remains |
| ConnectorTask.Connector.PassStarting | src/app/taskcharge.c:256-316 | the pass of STARTCHARGE |
| ConnectorTask.Connector.UserStopped | src/app/taskcharge.c:342-398 | the first of the seven demands to stop is consumed and recorded |
| ConnectorTask.Connector.ConditionStopped | src/app/taskcharge.c:399-453 | the stops for alarm, full, unplugged and lost condition, voltage loss excepted |
| ConnectorTask.Connector.PassCharging | src/app/taskcharge.c:317-454 | the pass of CHARGING, with the device faults before all other causes |
| ConnectorTask.Connector.PassStopping | src/app/taskcharge.c:455-482 | the pass of STOPCHARGE and its retry count |
| ConnectorTask.Connector.PassUnlocking | src/app/taskcharge.c:483-528 | the pass of UNLOCK for both sockets |
| ConnectorTask.Connector.RecheckOutputs | src/app/taskcharge.c:551-568 | the readings of an ERROR pass and what they clear |
| ConnectorTask.Connector.PassFaulted | src/app/taskcharge.c:529-570 | the pass of ERROR |
| ConnectorTask.Connector.PassReturning | src/app/taskcharge.c:580-589 | the pass of RETURN |
| ConnectorTask.Connector.ChargePass | src/app/taskcharge.c:131-590 | one turn of the task for a connector, whatever its state |
| ConnectorTask.Connector.SwitchOutput | src/app/interface_diag.c:188-195 | the output of a charging connector follows a trip or a recovery |
| ConnectorTask.Connector.VoltInOrder | src/app/interface_diag.c:149-178 | the call in status OK |
| ConnectorTask.Connector.VoltTripping | src/app/interface_diag.c:179-234 | the call while a trip is pending, the expired timer before the sample |
| ConnectorTask.Connector.VoltTripped | src/app/interface_diag.c:235-262 | the call after a trip, on the band narrowed by 10 V |
| ConnectorTask.Connector.VoltRecovering | src/app/interface_diag.c:263-305 | the call while a recovery is pending |
| ConnectorTask.Connector.DiagVoltageError | src/app/interface_diag.c:132-308 | one voltage diagnosis |
| ConnectorTask.Connector.FreqTripping | src/app/interface_diag.c:768-814 | the frequency call while a trip is pending |
| ConnectorTask.Connector.FreqRecovering | src/app/interface_diag.c:839-871 | the frequency call while a recovery is pending |
| ConnectorTask.Connector.DiagFreqError | src/app/interface_diag.c:724-876 | one frequency diagnosis |
| ConnectorTask.Connector.DiagCurrentError | src/app/interface_diag.c:316-459 | one current diagnosis, with the release check after the machine |
| ConnectorTask.Connector.DiagPlugError | src/app/interface_diag.c:877-903 | plug and S2 bits follow plug and pilot state |
| ConnectorTask.Connector.DiagLockError | src/app/interface_diag.c:904-924 | the lock bit follows the latch; type C is always locked |
| Billing.IsSegInclude | src/app/order.c:44-59 | finds the first period of a segment that covers the hour |
| Billing.JudgeSegState | src/app/order.c:69-80 | finds the first slot that covers the hour, else the default segment |
| Billing.OrderData.constructor | src/app/order.c:281-290 | a fresh order is idle with a blank ledger |
| Billing.OrderData.PeriodUpdate | src/app/order.c:94-123 | one update of the ledger, and the period it worked on |
| Billing.OrderData.Close | src/app/order.c:168-171 | the FINISH call ends the period just worked on |
| Billing.OrderData.SumSegment | src/app/order.c:176-186 | energy and closed time of a segment, the time on 32 bits |
| Billing.OrderData.SumSegments | src/app/order.c:173-191 | all segment totals |
| Billing.OrderData.SumAll | src/app/order.c:193-207 | all grand totals, truncated where the code truncates |
| Billing.OrderData.SegmentUpdate | src/app/order.c:132-208 | one call updates the ledger, then shows exactly its totals |
| Billing.OrderData.MakeOrder | src/app/order.c:210-247 | MAKE, UPDATE and FINISH: ledger, totals and the recorded times |
| Accounting.EnergyAccounting | src/app/order.c:94-123 | over any session: ledger energy = meter increments over the steady calls + what the meter counted while re-entered periods were away |
| Accounting.IncrementsSplit | src/app/order.c:94-123 | increments at steady, switch and first calls make up the whole meter difference |
| Accounting.EnergyConserved | src/app/order.c:94-123 | without re-entry: ledger energy = steady increments, never above the metered energy of a rising meter, short by exactly the increments at switch and first calls |
| Accounting.EnergyConservedExactly | src/app/order.c:101-113 | with a rising meter, ledger energy = steady increments iff the meter stood still whenever a period visited again had been away |
| Readings.BilledAtLastVisit | src/app/order.c:110-121 | a started period holds the meter reading of the last call that found it current at the call before too |
| Readings.ReentersIffVisited | src/app/order.c:102-109 | a call re-enters a period iff it comes from another one and some earlier call was a visit there |
| Readings.EnergyConservedByReadings | src/app/order.c:94-123 | the same iff said of clock and meter readings only: the meter stood still whenever the session was away from a period it came back to stay in |
| Accounting.StaysWithinMeter | src/app/order.c:110-113 | no period is ever billed beyond the current reading |
| Calendar.SlotCovers | src/app/order.c:22-81 | on tables that partition the day the slot found is the one period that covers the hour |
| Calendar.ShortSessionsDoNotReenter | src/app/order.c:94-109 | a session no longer than a day less its longest period re-enters nothing |
| Calendar.StaysInTables | src/app/order.c:94-123 | periods outside the tables stay blank, so the totals see all of the ledger |
| Calendar.BilledEnergyExact | src/app/order.c:173-188 | in such a session the billed energy before truncation is exactly the steady increments |
| Calendar.SegmentEnergyExact | src/app/order.c:173-188 | so is that of each segment: the increments over the steady calls made in it |
| Calendar.FirstSlotFound | src/app/order.c:22-81 | on any tables the slot found is the first, by segment and position, whose hours hold the second of the day, the first of the default segment when none does |
| Reentry.LongSessionOverbills | src/app/taskdata.c:159-159 | a session within the time limit is billed 17 units where the meter counted 12 |
| Timekeeping.TimeAccounting | src/app/order.c:102-123 | over any session: recorded times at FINISH = session length - first-call time - skipped time + away time of re-entered periods + epoch time of periods still skipped |
| Timekeeping.SegTimesExact | src/app/order.c:168-191 | on tables that partition the day, in a short session with every entered period visited, the five ulSegTotalTime sum to tStopTime - tStartTime less the first-call time |
| Timekeeping.SkippedVisitCountsEpoch | src/app/order.c:101-105 | a period left before its first visit is recorded with the time since the epoch |
| SkippedVisits.EpochsRecorded | src/app/order.c:101-105 | in a short session the never visited periods record the time spent in each and the time of its entry since the epoch |
| SkippedVisits.SkipsIffUnvisited | src/app/order.c:102-121 | without re-entry a period is skipped iff two calls in a row find another period than the call before |
| SkippedVisits.TimesRightIffVisited | src/app/order.c:102-121 | on tables that partition the day, in a short session: recorded times = session length - first-call time iff of any two calls in a row one finds the period of the call before it |
| SkippedVisits.SegTimesRightIffVisited | src/app/order.c:174-191 | the five ulSegTotalTime: the exact sum with every 32-bit wrap; right when every stay was visited, and, when no total wraps, only then |
| SkippedVisits.SkipsFirstPeriod | src/app/order.c:101-105 | a session of 22 seconds that skips its first period and records more than a day |
| Rounding.TotalsClose | src/app/order.c:187-207 | without 32-bit overflow: each segment's shown energy below the exact one by less than 0.01, the shown energy by less than 0.05; each shown fee below the sum of energy times price over the five segments by less than 0.01, the total fee by less than 0.02 |
| Rounding.FeesByTariff | src/app/order.c:94-207 | in a short session on tables that partition the day: the shown fees are the meter increments over the steady calls, each at the price of the segment the clock was in, less than 0.01 below (the total fee 0.02) |
| Rounding.UniformTariff | src/app/order.c:94-207 | at one price in all segments they are the steady increments at that price, less than 0.01 below |
| Rounding.SegmentFeesByPrice | src/app/order.c:187-206 | the fee of a segment is its energy times its own price, for energy and for service; shown energy is the sum of the five segments', the shown total the sum of the two fees |
| Rounding.ShownInHundredths | src/app/order.c:187-206 | energies and fees are shown in whole hundredths |
| Rounding.TotalsNeverFall | src/app/order.c:173-207 | with a rising meter and fixed nonnegative prices no energy or fee ever falls in a session |
| RemoteQueue.Command.TakeFor | src/app/interface_remote.c:58-81 | the cursor walk keeps exactly the unexpired messages of other connectors and leaves the newest of its own in the buffer |
| RemoteQueue.Command.TakeLast | src/app/interface_remote.c:133-152 | the newest message is copied out and every message deleted |
| RemoteQueue.EchProtocol.DropAwaiting | src/app/interface_remote.c:85-101 | exactly the sent entries of the command and connector go |
| RemoteQueue.EchProtocol.RecvWithCON | src/app/interface_remote.c:41-117 | result, buffer, received and sent list after a poll for one connector |
| RemoteQueue.EchProtocol.DropFirst | src/app/interface_remote.c:156-172 | the first sent entry of the command goes |
| RemoteQueue.EchProtocol.Recv | src/app/interface_remote.c:119-188 | result, buffer, received and sent list after a poll for the station |
| RemoteIsolation.PollLeaves | src/app/interface_remote.c:58-81 | a poll leaves exactly the unexpired messages of the other connectors, in order |
| RemoteIsolation.PollNewest | src/app/interface_remote.c:54-112 | a poll answers with the newest message for its connector no older than 20 seconds, with nothing iff there is none; its result is the time-out iff the late bit was set, else ERR_NO iff there is such a message, else ERR_REMOTE_NODATA |
| RemoteIsolation.PollSettles | src/app/interface_remote.c:83-104 | the sent entries of the command and connector go iff a message was found; the others keep their order |
| RemoteIsolation.FirstGoes | src/app/interface_remote.c:156-172 | of the sent entries the one goes that is of the command and has none of it before it, and none goes when there is none |
| RemoteIsolation.PollsCommute | src/app/interface_remote.c:54-112 | polls of two connectors at one instant give the same queues and messages in either order, and the same results iff no late bit was waiting |
| RemoteIsolation.Undisturbed | src/app/interface_remote.c:54-81 | whatever others poll, a connector still finds everything that was there or came for it |
| RemoteIsolation.AnswersNewestSince | src/app/interface_remote.c:54-112 | between two polls of a connector, others polling at will, the second answers with the newest message that came for it since the first and is no older than 20 seconds, with nothing iff none came, and its result says which |
| RemoteIsolation.StillAwaited | src/app/interface_remote.c:83-104 | polls of others settle no sent command of this connector |
| OrderLog.ReadBack | src/app/cfg_order.c:32-85 | what the fields of a record hold; an order read back from its record is the order logged but for the default segment; its connector comes back iff its number fits the remote numbering |
| OrderLog.OverflowRemovesEveryOther | src/app/cfg_order.c:96-118 | an overflow removes exactly positions 0, 2, .., 18, the rest keep their order, the new order comes last |
| OrderLog.LogBounded | src/app/cfg_order.c:105-114 | from at most 101 orders the log never exceeds 101 |
| OrderLog.StaysForNext82 | src/app/cfg_order.c:96-118 | every logged order stays for the next 82 |
| OrderLog.GoneAfter83 | src/app/cfg_order.c:96-118 | and 82 cannot be raised |
| OrderLog.RoundMarksFound | src/app/cfg_order.c:277-361 | marking the number of the order found marks that very order and no other iff it is readable and no earlier one of the number is neither unpaid nor paid |
| OrderLog.UploadDrains | src/app/taskremote.c:355-388 | on a log whose orders are all unpaid or paid, k rounds, each with a verdict of the platform, pay exactly the first k unpaid orders in array order, and the search fails iff k has reached their number |
| OrderLog.UploadEnds | src/app/taskremote.c:355-388 | on any log, with a verdict in each round, the upload ends iff every record can be read, and then within as many rounds as there are records not marked paid |
| OrderLog.UploadSettles | src/app/taskremote.c:367-399 | the same when the platform does not answer every attempt: only the verdicts count |
| OrderLog.UnreadableStalls | src/app/cfg_order.c:298-320 | an unreadable record found first makes every further round change nothing |
| OrderLog.OrderArray.AddOrderCfg | src/app/cfg_order.c:96-118 | the log after adding an order |
| OrderLog.OrderArray.GetOrderByPayStatus | src/app/cfg_order.c:277-320 | stops at the first record that is unreadable or has the status, with the order holding the last record read |
| OrderLog.OrderArray.SetOrderPaid | src/app/cfg_order.c:322-361 | marks the first record of the number that is not paid, unless an unreadable one comes before it |
| KeyText.DecimalReads | src/app/cfg_parse.c:79-79 | atoi reads back every decimal numeral |
| KeyText.AtoiReads | src/app/cfg_parse.c:79-79 | an index is read past blanks, with its sign, up to the first character that is no digit; without digits it is 0 |
| KeyText.DigitsConcat | src/app/cfg_parse.c:79-79 | digits are read as a decimal number |
| KeyText.JoinReads | src/app/cfg_parse.c:59-103 | a key written from components whose names hold no '.' and ':' is read as those components |
| ConfigTree.Cut | src/app/cfg_parse.c:59-78 | the string at a position is cut in place at the first delimiter, and both parts are what they should be |
| ConfigTree.GetObjectItem | src/app/cfg_parse.c:80-80 | the child whose name differs from the key at most in the case of letters and that none such precedes; none iff no child has such a name |
| ConfigTree.GetArrayItem | src/app/cfg_parse.c:87-87 | the child at a position, none for a negative or too large one |
| ConfigTree.PathLeads | src/app/cfg_parse.c:59-103 | a path to n and a name lead to the first child of n of that name, with an index to the child of that one at the index, else nowhere |
| ConfigTree.WalkExtends | src/app/cfg_parse.c:59-103 | a longer path leads on from where the shorter one leads |
| ConfigTree.EnterText | src/app/cfg_parse.c:66-102 | one turn of the scan enters the component the text spells |
| ConfigTree.Scan | src/app/cfg_parse.c:50-104 | the destructive tokeniser ends, reaches the node of the step-by-step walk, and only turns dots and colons into NULs |
| ConfigTree.Get | src/app/cfg_parse.c:106-146 | the value read by type, or the error with the receiving variable untouched |
| ConfigTree.Set | src/app/cfg_parse.c:147-185 | only the node the key leads to changes, every path leads where it led, a failure changes nothing |
| ConfigTree.FetchStored | src/app/cfg_parse.c:118-175 | a value in range read with the type it was written with is the value written; a text written changes nothing else |
| ConfigTree.NumberReadAs | src/app/cfg_parse.c:118-172 | a number written with one type and read with another: whole part within 32 bits, low bits, or what an unsigned integer keeps |
| ConfigTree.SetThenGet | src/app/cfg_parse.c:106-185 | a read after a write delivers what was written where both keys lead to one node, elsewhere what was there |
| WorkList.HandOutFewer | src/app/file_op.c:75-95 | every call that hands out a file lowers the number of entries with status 1 |
| WorkList.DrainExact | src/net/user/tasknetwork.c:224-224 | calls repeated until one fails hand out, each once and in list order, exactly the entries with status 1 but boot loaders whose checksum is the installed one; statuses are taken back up to the last of them and no further |
| WorkList.DrainLeavesNone | src/app/file_op.c:75-95 | after the drain no listed entry has status 1 iff none behind the last one handed out had it; what is left is an installed boot loader |
| WorkList.ContainsIff | src/app/file_op.c:41-79 | a name or path contains a part iff it is the part with something before and something behind |
| WorkList.InstalledStays | src/app/file_op.c:79-86 | a list on which an installed boot loader stays marked |
| WorkList.FindPending | src/app/file_op.c:60-96 | the loop finds the first pending entry, with the statuses up to it cleared, or ends holding the last entry it read |
| WorkList.ListFile.ParseFlist | src/app/file_op.c:35-106 | what a call hands out, returns and leaves in the file, by path, errors included |

## Left out

- A charging pass and a diagnosis call are one step each. The charging task sleeps inside `SetRelay` while the state is
  still STARTCHARGE (src/app/connector.c:966); a voltage trip in that window is not modelled, nor is a stop between the
  two halves of a voltage recovery.
- Timers are ideal: deleting one also cancels its callback. Event groups are sets; mutexes are always granted.
- The loop that opens relays and latches at power-up (src/app/taskcharge.c:110-128): runs start with the relay commanded
  open.
- `manual_charge`: its effect on a run is the setting and clearing of the authorisation, which any task may do at any time.
- Session.VoltageRelayAgreement: each connector has a relay of its own. On a single-phase station `SetRelay` of connector
  0 also drives the N relay that is connector 1's output (src/app/connector.c:905-952), and `GetRelayState` reads relay 0
  for both (src/app/connector.c:846-851); two connectors that share relays are not modelled.
- Session.RelayConfined: the same; and the same holds of every other result about the commanded relay.
- The wait of three seconds for S2 in `StopCharge` has no effect on what follows and takes no time here.
- Temperature and station diagnosis: one step that sets their own bits at will.
- Meter, relay, latch, pilot and contact readings are arbitrary inputs; the debug builds are not modelled.
- Voltages, currents, energies and fees are real numbers; rounding of `double` and `float` is not modelled.
- Rounding.TotalsClose: assumes what the conversion to `uint32_t` needs, values below 2^32 hundredths; outside, the
  conversion of C is undefined and the model holds it at the bounds.
- Rounding.FeesByTariff: the same.
- `localtime` is a fixed offset from the epoch's zone; a change of the zone or of the tables during a session is not
  modelled.
- The TMP state of `makeOrder` and the copying of card and limit fields.
- OrderLog.UploadDrains: a round is an attempt on which the platform gave its verdict. Whether it ever does is not
  modelled; attempts without one leave the log as it is (`OrderLog.UploadSettles`).
- OrderLog.UploadEnds: the same.
- Orders logged while the upload of unpaid ones runs.
- RemoteQueue.EchProtocol.RecvWithCON: the clock is read once a call, and every message is long enough to hold the
  connector number and fits the caller's buffer.
- The fields of the `RemoteIF_` messages, and CRC, AES and FTP.
- Order numbers above 2^53, which a `double` does not hold; records without a number or a payment status, of which the
  code reads leftovers.
- ConfigTree.Get: reading text from a node that has none is undefined in the code; the sizes of receiving buffers, the
  198 characters a key may have and indices beyond 32 bits are not modelled.
- Parsing, printing and freeing of cJSON documents; names and texts are compared as ASCII.
- WorkList.ListFile.ParseFlist: the list is a sequence of entries that have all their fields but perhaps the file name;
  what a failed write leaves is an input.
- Runs of a connector and sessions of an order are separate: the call times and meter readings of a session are arbitrary.
