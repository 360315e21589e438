# Verified model of the post office simulation

The repository simulates a post office with System V processes: one director, one ticket
dispenser, any number of operators and any number of users.  They share a memory segment (a
table of desks, a ticket queue threaded through an array, a statistics block), four sets of
semaphores, two message queues, a pipe and signals.  This project models that machinery and proves
what its documentation promises: every permit finds its ticket or desk, no update is lost, days start
clean, a run ends on the right day.  Where a promise is broken it proves the input that breaks it and
exactly when it holds.

`dafny verify dfyconfig.toml` checks everything.

## How the model is built

**Data structures.**  `TicketQueue.dfy`, `DeskTable.dfy` and `Statistics.dfy` hold the imperative
code as classes over arrays, with the loops of the source.  Their methods are proved against the
functions of `Office.dfy`: append, remove the first ticket of a service, reserve, release, reassign,
one completed service, daily reset, close.  `QueueRuns.dfy` and `Averages.dfy` follow those functions
over any sequence of calls and of days; `Layout.dfy` is the arithmetic of the segment.

**Protocol.**  `Processes.dfy` gives the director, the dispenser and `n` operators program counters.
Every step is one action on shared memory or on one semaphore; a `semop` that would block leaves the
state as it is, so a run is any sequence of steps.  The steps on queue, desks and statistics are the
same functions the classes refine.  A signal is first pending, then delivered between two calls
or inside a blocking call whose failure the program handles.  Updates of the statistics are split into
a read and a write, so a missing lock would lose increments.  `Log`, `History`, `DayRecord` and `Trace`
are records of what happened; no step depends on them.

The proof is one inductive invariant in layers: what a single step does (`Effects.dfy`, `Tallies.dfy`,
`Frames.dfy`, `Director.dfy`), the day barrier (`Barrier.dfy`), mutual exclusion and ownership (`Core.dfy`),
the balances of a day (`Books.dfy`), services and days (`Days.dfy`), the end of the run (`Ends.dfy`), all of it
for every run (`Invariant.dfy`).  `Theorems.dfy` and `Outcomes.dfy` state what follows for every reachable
state; `Races.dfy` the accesses that can meet, `DayEnd.dfy` and `Told.dfy` who is signalled, when, and what
becomes of the signal, `Winding.dfy` how processes wind down, `Standstill.dfy` when nobody can go on,
`Starters.dfy` the users' start, `Seats.dfy` and `Occupations.dfy` the desks operators serve at, `Pauses.dfy`
the limit on pauses, `TicketPermits.dfy` the ticket semaphores and `Ledger.dfy` the tickets of a whole run.
`Calls.dfy` and `Sums.dfy` join the protocol to the data structures: the calls on the ticket list and the
updates of the statistics in any of its runs, in the order in which they happen, are runs of `QueueRuns.dfy`
and days of `Averages.dfy`; `Figures.dfy` says what the numbers of the statistics block then mean.
`Runs.dfy` builds runs, and `Witnesses.dfy` shows with them that the exceptions stated elsewhere are real.

**Messages.**  `Handshake.dfy` is a second transition system with any number of users and operators: a
day's messages between users, dispenser and operators.  A user is astray once it has read a ticket as
another answer, or asked again after an interruption with something of its first request left; what is
proved of a user that is not astray holds whatever the others do.  `Misread.dfy` shows which tickets lead
astray.  `Evening.dfy` sends the end-of-day signals into the exchange, in the director's order, with
everything the processes then drop, and begins the next day with what is left; `Receipts.dfy` says which
ticket and which message every call to receive takes, `Resend.dfy` what holds over all days and
`Crossing.dfy` what an interrupted wait leads to.

Semaphores and message queues behave as `semop` and `msgrcv` do in the System Interfaces volume of
IEEE Std 1003.1.  Floating-point numbers are modelled as reals.

## Where the code and its promises differ

- `serveTicket` returns a `size_t`, the operator stores it in an `int` (src/operatori.c:254 and 382).  The
  "errore coda ticket" exit is never taken for a missing ticket, but it is taken for a ticket whose
  identifier is a multiple of 2^32: `Theorems.ErrorExitExactly`.  Runs get there: `Witnesses.ErrorExitHappens`.
- After 2^64 tickets the counter is 0, and a slot filled with identifier 0 looks free:
  `TicketQueue.TicketQueue.Insert` states exactly what happens then.
- `MAX_PAUSE` is the maximum number of pauses per day (src/operatori.c:40-41), but an operator tests it without a
  mutex and is counted later (src/operatori.c:199-212), so the limit can be exceeded: `Witnesses.LimitIsExceeded`.
  `Pauses.PauseBound` says by how much, `Pauses.LimitHoldsExactly` when it holds.  That test is the only
  access to shared data that can meet an update: `Races.ConflictsExactly`.
- A user reads the identifier of its ticket with `atoi` into an `int` (src/utente_op.c:186-196, src/utente.c:157) and
  takes -2 for a full queue and -1 for a service not on offer.  Ticket 2^32 - 2 makes it ask again, ticket 2^32 - 1
  give up, while the ticket waits: `Misread.ReadsAsFull`, `Misread.ReadsAsRefused`.  Users keep to one claim
  exactly on days that issue no such identifier: `Misread.OneClaimExactly`, `Handshake.PlainExactly`.
- `msg_read` returns -2 for an interrupted wait, and -2 is also the dispenser's answer when the
  queue is full (src/utente.c:156-168).  A user whose wait is interrupted by the end of the day sends its
  request a second time.  All others keep to one claim (`Resend.AtMostOneClaim`, `Resend.WhoIsAstray`); the interrupted
  user does exactly when nothing is left of its first request that can become a ticket or an answer read
  as -2 (`Resend.ResendDoublesClaim`); without the end of the day to stop the others, exactly when
  its answer was already in the queue (`Handshake.ResendDoublesClaim`).  Two claims can become two sessions
  at once and a user that takes the second call for its fine (`Crossing.SessionsCross`).  If the dispenser has
  already stopped, the user waits for an answer for ever (`Crossing.WaitsForever`, `Crossing.UsersAreStranded`)
  and with it the director, which waits for all users before the next day (src/Direttore.c:235).
- Every day is meant to end with the signal of the director (src/Direttore_op.c:1438-1451).  An operator tests its
  flag and then waits for a ticket (src/operatori.c:352-357), and before it waits for a desk it does not test it
  (src/operatori.c:300-303); a signal noticed in between is never seen by the wait, and one noticed before the flag
  is cleared (src/operatori.c:294) is lost.  Then the dispenser waits for the operator, the director for the
  dispenser, and the day never ends: `Standstill.DayCanHang`.  The dispenser loses the end of the simulation in the
  same way (src/erogatore_ticket.c:354-357): `Standstill.EndCanHang`.  These, and operators that have left
  with an error, are the only things a run of the protocol can come to a standstill on: `Standstill.StandstillExactly`,
  `Standstill.HangsOnlyOnLostSignals`.
- The comment on `current_day` says it starts at 1 (include/ufficio.h:77); the code starts it at 0, as the model does.
- The halving in the per-service averages (src/erogatore_ticket.c:256-259) never takes effect, because the
  daily reset clears the values it tests: `Averages.HalvedExactly`, `Sums.SumsNeverHalved`, `Sums.RunAveragesAreMeans`.
- The averages over all services, "in the simulation" (include/ufficio.h:66-68), are halved every day but the first
  (src/erogatore_ticket.c:194-197) and then divided by the days all the same, so they are the means of the
  daily averages only for runs of one day, or when all of those are 0: `Sums.RunOverallExactly`.  What they
  are instead is `Figures.RunningAverages`.
- `total_pauses`, "in the simulation" (include/ufficio.h:74), counts each pause when it is taken (src/operatori.c:213)
  and again at the close of the day (src/erogatore_ticket.c:200): `Sums.PausesCountedTwice`.

## Model

| member | source | states |
|---|---|---|
| `Office.FoundIffCounted` | src/ufficio.c:110-139 | A search from the head for a service succeeds exactly when a ticket of that service waits |
| `Office.CountWithout` | src/ufficio.c:117-138 | Removing a ticket lowers the count of its own service by one and of no other |
| `Office.CountsCoverQueue` | src/erogatore_ticket.c:221-231 | The per-service counts of waiting tickets add up to the length of the queue |
| `Office.ReservedCounts` | src/ufficio.c:176-183 | A reservation takes one free desk of exactly the requested service and counts one occupation, or finds none and changes nothing |
| `Office.ReleasedCounts` | src/ufficio.c:210-216 | A release frees one desk of that desk's service exactly when the caller owns it; occupations never change |
| `Office.ReassignedCounts` | src/Direttore_op.c:912-921 | With all desks free, a new assignment leaves as many free desks of a service as it names |
| `Office.VacatedCounts` | src/Direttore_op.c:1374-1376 | Clearing the daily occupations brings their sum to 0 and leaves every count of free desks |
| `Office.WalkCounts` | src/erogatore_ticket.c:219-231 | The closing walk adds to each service exactly its waiting tickets, to the totals the queue length, and touches nothing else |
| `Office.RowSum` | src/erogatore_ticket.c:208-217 | A row of ratios sums to occupations over active operators, 0 without active operators |
| `Office.RatioEntry` | src/erogatore_ticket.c:208-217 | Entry k of a row, times the active operators, is the number of occupations of desk k; 0 without active operators |
| `TicketQueue.FreeSlotExists` | src/ufficio.c:66-77 | Fewer occupied than existing slots leave a free one |
| `TicketQueue.AppendKeepsLinked` | src/ufficio.c:51-66 | Linking a slot behind the tail keeps both chains of links, occupancy and order, and appends to the queue |
| `TicketQueue.UnlinkKeepsLinked` | src/ufficio.c:117-135 | Bridging a slot's neighbours and blanking it keeps links, occupancy and order of the rest |
| `TicketQueue.TicketQueue.constructor` | src/Direttore_op.c:634-653 | A new queue is valid and empty |
| `TicketQueue.TicketQueue.Insert` | src/ufficio.c:45-88 | Full: nothing changes and 0 is returned. Otherwise the ticket is appended, the next identifier returned and one permit of its service released; the 64-bit wrap to identifier 0 is the only input that breaks the list, and then no permit is released |
| `TicketQueue.TicketQueue.PlaceAtTail` | src/ufficio.c:51-66 | Fills the slot at the cursor and makes it the tail; the links stay consistent unless the identifier is 0 |
| `TicketQueue.TicketQueue.ScanForFree` | src/ufficio.c:67-77 | The circular scan ends within as many probes as slots, at the first free slot in cyclic order |
| `TicketQueue.TicketQueue.Serve` | src/ufficio.c:103-150 | The first ticket of the service leaves, the order of the rest is kept; without one nothing changes, not even the caller's variables |
| `TicketQueue.TicketQueue.Detach` | src/ufficio.c:117-138 | Removes exactly the given position and keeps the representation valid, cursor included |
| `TicketQueue.TicketQueue.Clear` | src/Direttore_op.c:1360-1373 | Empties the queue from any state and makes the representation valid |
| `DeskTable.DeskTable.constructor` | src/Direttore_op.c:614-624 | All desks free, without a service, never occupied |
| `DeskTable.DeskTable.Reserve` | src/ufficio.c:165-190 | The first free desk of the service goes to the caller, with one more occupation, its identifier is returned and every other desk stays; or no desk of the service is free, nothing changes and 0 is returned |
| `DeskTable.DeskTable.Free` | src/ufficio.c:203-219 | Only the owner's release frees that one desk and posts one permit to the desk's own service; identifier 0 and foreign desks change nothing |
| `DeskTable.DeskTable.Choose` | src/Direttore_op.c:912-921 | Every desk gets its entry of the choice, nothing else changes |
| `DeskTable.DeskTable.Apply` | src/Direttore_op.c:935-955 | Each semaphore becomes the number of desks assigned to its service |
| `DeskTable.DeskTable.ClearOccupied` | src/Direttore_op.c:1374-1376 | Only the daily occupations become 0 |
| `DeskTable.PermitYieldsDesk` | src/operatori.c:300-324 | With table and semaphores in agreement, a permit always yields a free desk of the service, and they agree again afterwards |
| `DeskTable.ReleaseUndoesReserve` | src/ufficio.c:203-219 | A release undoes the reservation except for the occupation count; a second release by the same process is void whoever owns the desk then |
| `DeskTable.ApplyAgrees` | src/Direttore_op.c:935-955 | Choosing and applying services with all desks free makes table and semaphores agree |
| `Statistics.StatsBlock.constructor` | src/Direttore_op.c:664-695 | A zero-filled block: all counters and averages 0 |
| `Statistics.StatsBlock.ServiceDone` | src/operatori.c:173-181 | One completed service: the service's own entry gets one more session today and in all and the session's times, every other entry stays, and each total and the second counter of services grow by one |
| `Statistics.StatsBlock.CountActive` | src/operatori.c:336 | The day's active operators grow by one, as the protocol's step says |
| `Statistics.StatsBlock.CountPause` | src/operatori.c:212-213 | The pauses of the day and of the run grow by one, as the protocol's step says |
| `Statistics.StatsBlock.ResetDaily` | src/erogatore_ticket.c:290-310 | Daily counters, sums and averages become 0, the overall ones included; totals and running averages stay |
| `Statistics.StatsBlock.WriteRatios` | src/erogatore_ticket.c:208-217 | Writes exactly the current day's row: entry k, times the active operators, is the number of occupations of desk k, and 0 without active operators |
| `Statistics.StatsBlock.CountWaiting` | src/erogatore_ticket.c:219-231 | The walk along the links takes exactly as many steps as tickets wait and counts each once under its service |
| `Statistics.StatsBlock.AverageServices` | src/erogatore_ticket.c:234-261 | The loop with its two carried values computes, per service, the daily means and the sum, halved exactly when the carried value is not 0 |
| `Statistics.StatsBlock.AverageOverall` | src/erogatore_ticket.c:173-206 | The overall averages are the day's totals over its sessions, blended into the running ones by halving on every day but the first; the day's operators and pauses are added to their totals |
| `Statistics.StatsBlock.CloseDay` | src/erogatore_ticket.c:167-263 | All counters, overall averages, ratio row and per-service averages after a close, from the linked queue and the desk table |
| `Statistics.StatsBlock.Finish` | src/erogatore_ticket.c:270-282 | Divides the overall and every service's running averages by the number of days, or changes nothing on day 0 |
| `Statistics.AveragedFigures` | src/erogatore_ticket.c:234-261 | After a close, for each service: averages per day times the days are its services provided and not provided, and the day's averages are the means over its sessions of the day |
| `Statistics.OverallFigures` | src/erogatore_ticket.c:173-206 | After a close: averages per day times the days are the totals, the day's averages the means over all its sessions, pauses per active operator, and twice the running average, from the second day on, is the old one plus the day's |
| `Dispenser.ServiceAvailable` | src/erogatore_ticket.c:149-157 | True exactly for the services in the day's array |
| `Averages.CleanDay` | src/erogatore_ticket.c:234-261 | A day that starts from reset daily values adds its own means to the running sums, without halving |
| `Averages.FinalAveragesAreMeans` | src/erogatore_ticket.c:270-282 | Over any sequence of days, each service's final averages are the means over all days of the daily averages |
| `Averages.FiguresOfDays` | src/erogatore_ticket.c:234-261 | After any number of days, per service: totals over all days, averages per day that times the days give them, and daily averages that are the means of the last day's sessions |
| `Averages.BlendClosedForm` | src/erogatore_ticket.c:192-197 | After n days the running average over all services is the first daily average divided by 2^(n-1) plus, for every later day i, its daily average divided by 2^(n-i+1), counting days from 1 |
| `Averages.OverallMeanExactly` | src/erogatore_ticket.c:192-197 | The overall averages end as the mean of the daily ones if and only if there is one day or all daily averages are 0; from two days on they are at most half of it |
| `Averages.WaitsAddUp` | src/erogatore_ticket.c:177-183 | The loop over the services adds up the times of all the day's sessions |
| `Averages.HalvedExactly` | src/erogatore_ticket.c:256-259 | A waiting-time or service-time sum is halved if and only if the last service up to it that served anybody still carries a non-zero average from before |
| `QueueRuns.RunsAreOk` | src/ufficio.c:45-150 | Over any sequence of inserts, serves and day-end clears: queue and issued tickets in increasing order within the day's range of identifiers, and per service issued = served, then waiting |
| `QueueRuns.QueueInOrder` | src/ufficio.c:45-88 | Identifiers of waiting tickets increase strictly from head to tail |
| `QueueRuns.IdsNeverRepeat` | src/ufficio.c:29 | No identifier is issued on two days, today among them: a later day's are all larger |
| `QueueRuns.ServedInOrder` | src/ufficio.c:103-150 | On every day, today among them, and per service: served tickets are the beginning and waiting or discarded ones the end of the issued ones, and are served in increasing order of identifier |
| `QueueRuns.NeverOverfull` | src/ufficio.c:50 | The queue never exceeds its capacity |
| `Effects.CallsTakeEffect` | src/ufficio.c:45-150 | In a run: an insert appends the call's ticket with the next identifier unless the queue is full, a serve removes the first ticket of its service, a clear all of them |
| `Layout.StaysInRegion` | src/Direttore_op.c:563-579 | Every entry of every array lies in its own region, and the last region ends where the allocation ends |
| `Layout.EntriesApart` | src/Direttore_op.c:563-603 | No two different entries of the segment overlap and none leaves the allocated size |
| `Tallies.GateAccounts` | src/operatori.c:104-125 | Waiting at the start moves no ticket and no desk |
| `Tallies.DeskAccounts` | src/operatori.c:300-324 | What leaves the desk semaphore is a permit of the operator until a desk is reserved or the permit returned |
| `Tallies.CountAccounts` | src/operatori.c:325-346 | Becoming active turns an uncounted occupation into a counted one |
| `Tallies.TicketAccounts` | src/operatori.c:352-381 | What leaves the ticket semaphore is a permit of the operator until it is spent or returned |
| `Tallies.ServeAccounts` | src/operatori.c:382-402 | A permit is exchanged for the first ticket of the service |
| `Tallies.StatAccounts` | src/operatori.c:167-188 | A ticket in hand becomes one service counted as provided |
| `Tallies.PauseAccounts` | src/operatori.c:197-209 | A desk given up for a pause is posted back to its service |
| `Tallies.CloseAccounts` | src/operatori.c:455-464 | A desk given up at the close is posted back to its service |
| `Tallies.OpAccounts` | src/operatori.c:286-474 | Whatever an operator's step takes from tickets, desks and semaphores it adds to the operator's own account, and conversely |
| `Frames.OpSync` | src/operatori.c:286-474 | An operator moves the day's gates only by joining and closing, mutexes only at its locks, and leaves only after SIGUSR1 |
| `Frames.OpData` | src/operatori.c:286-474 | The only ways an operator changes queue, statistics and desks |
| `Frames.DispFrame` | src/erogatore_ticket.c:352-475 | The only ways the dispenser changes queue, semaphores, statistics and mutexes |
| `Frames.DispFlow` | src/erogatore_ticket.c:352-475 | The dispenser's control flow, its choice of path in the morning, and the way of the day's services from the pipe into its array |
| `Director.DirStep` | src/Direttore.c:201-407 | The director's control flow, its decisions, and what it never touches |
| `Effects.TicketIsIssued` | src/ufficio.c:45-88 | The dispenser appends the request as a ticket with the next identifier while there is room, and then raises the semaphore of its service by one; a full queue stays as it is |
| `Effects.TicketIsServed` | src/ufficio.c:103-150 | An operator removes the first ticket of its own service and no other and keeps its identifier; without one the queue stays and the identifier is 0 |
| `Effects.PermitIsTaken` | src/operatori.c:300-366 | Waiting for a desk or a ticket takes exactly one permit of the operator's own service |
| `Effects.DeskIsGivenBack` | src/ufficio.c:203-219 | A release frees the operator's desk if and only if it owns it and changes no other |
| `Effects.PermitIsPosted` | src/ufficio.c:210-216 | The post that follows raises the semaphore of that desk's service by one |
| `Effects.DayIsReset` | src/erogatore_ticket.c:290-310 | The daily counters become 0 and nothing else changes |
| `Effects.DayIsPrepared` | src/Direttore_op.c:912-955 | Clearing empties the queue and every desk's count, each desk gets its entry of the choice, each semaphore the number of desks of its service |
| `Effects.GatesAreSet` | src/Direttore_op.c:1389-1416 | What the director does to each of the five gates of the day: all are reset, whatever was left of them, and it moves one at a time |
| `Barrier.OpKeepsBarrier` | src/operatori.c:104-125 | Every operator step keeps the day barrier |
| `Barrier.DispKeepsBarrier` | src/erogatore_ticket.c:352-475 | Every dispenser step keeps the day barrier |
| `Barrier.DirKeepsBarrier` | src/Direttore.c:201-407 | Every director step keeps the day barrier |
| `Barrier.ResetKeepsClosing` | src/Direttore_op.c:1389-1401 | Raising simSem[2] before refilling simSem[0] keeps the barrier |
| `Core.OpKeepsCore` | src/operatori.c:286-474 | Every operator step keeps mutual exclusion, exact updates, desk ownership and the order of tickets |
| `Core.DispKeepsFresh` | src/erogatore_ticket.c:356-365 | The unlocked daily reset and the closing walk meet no operator in the middle of an update |
| `Core.DispKeepsCore` | src/erogatore_ticket.c:352-475 | The same invariant for every dispenser step |
| `Core.DirKeepsCore` | src/Direttore.c:201-407 | The same invariant for every director step, the unlocked clearing and reassignment among them |
| `Books.OpKeepsBooks` | src/operatori.c:286-474 | Every operator step keeps the balances of permits, tickets, occupations and desks |
| `Books.DispKeepsBooks` | src/erogatore_ticket.c:352-475 | Every dispenser step keeps them |
| `Books.OpeningBalances` | src/Direttore.c:223-248 | When the gate opens every account is 0 |
| `Books.DirKeepsBooks` | src/Direttore.c:201-407 | Every director step keeps them |
| `Days.DispKeepsServices` | src/erogatore_ticket.c:318-422 | Tickets enter the queue only for services of the array the director wrote for this day |
| `Days.DirKeepsServices` | src/Direttore.c:201-384 | At most one assignment is in the pipe and it is today's; a new one is chosen only with an empty queue |
| `Days.DirKeepsDays` | src/Direttore.c:223-248 | Opening a day finds exactly the participants who have joined it |
| `Ends.DispKeepsRun` | src/erogatore_ticket.c:456-469 | A closed day is recorded once, with its row of ratios and its unserved users |
| `Ends.DirKeepsRun` | src/Direttore.c:374-390 | The decision to go on or to stop looks at the day just closed |
| `Invariant.PermitFindsDesk` | src/operatori.c:300-324 | A desk permit guarantees a free desk of the service |
| `Invariant.PermitFindsTicket` | src/operatori.c:352-392 | A ticket permit guarantees a waiting ticket of the service |
| `Invariant.ReachableInv` | src/Direttore.c:201-407 | All invariants hold in every state of every run, for any number of operators and any interleaving |
| `TicketPermits.PermitAccount` | src/Direttore_op.c:1417-1423 | In every reachable state: semaphore + permits taken and not spent + a ticket not yet announced <= waiting tickets, with equality except, exactly, between the reset of the semaphores and the clearing of the queue |
| `Theorems.ServeFindsTicket` | src/operatori.c:382 | serveTicket always finds a ticket of the operator's service |
| `Theorems.ErrorExitExactly` | src/operatori.c:393-397 | The error exit is taken exactly when the removed ticket's identifier is a multiple of 2^32 |
| `Witnesses.CountsUpTo` | src/operatori.c:286-452 | For every n up to 2^32 a run issues and serves the tickets before n and brings the operator back to the top of its loop, at its desk, with an empty queue |
| `Witnesses.ErrorExitHappens` | src/operatori.c:382-397 | Some run leads an operator with ticket 2^32 to the error exit |
| `Theorems.NoErrorBelowWrap` | src/operatori.c:393-397 | With fewer than 2^32 tickets in a run no operator ever errs |
| `Theorems.QueueInIdOrder` | src/ufficio.c:45-88 | In every reachable state waiting tickets stand in the order of their identifiers |
| `Theorems.DaySeparation` | src/operatori.c:286-299 | An operator in its serving loop works between the director's start of that day and its wait for statistics, on the same day as everybody else |
| `Theorems.NobodyAhead` | src/operatori.c:104-125 | Nobody is a day behind, and a day ahead only behind the closed gate |
| `Theorems.HandoversNeverMeet` | src/Direttore.c:213-277 | Each wait on simSem[4] can be ended only by its own partner's post, both directions |
| `Theorems.DeskAccount` | src/ufficio.c:165-219 | Semaphore + permits in use + desks being posted = free desks of the service; nothing is being posted while the desk mutex is free |
| `Theorems.ReserveFindsDesk` | src/operatori.c:312-324 | A reservation after a permit always gets a free desk of the service |
| `Theorems.DesksHaveOneOwner` | src/ufficio.c:176-183 | A desk has at most one owner, an operator at most one desk, and the services match |
| `Theorems.SecondReleaseIsVoid` | src/operatori.c:455-463 | The release at the close frees the operator's own desk, or changes nothing after a pause, whoever owns the desk now |
| `Theorems.UpdatesAreExact` | src/operatori.c:167-188 | Every read-modify-write of the statistics adds exactly one to the current values: a session to the counters of the operator's own service and to the totals, a reservation to the operators, a pause to the pauses, and nothing else changes |
| `Theorems.DayOpensClean` | src/erogatore_ticket.c:290-310 | Each day opens with zero daily counters, an empty queue, empty semaphores, free desks and empty hands |
| `Starters.AllUsersStart` | src/Direttore.c:223-248 | In every reachable state simSem[1] plus the users that have started since its last reset is the number of users; when the gate opens, and throughout the day, all of them have started |
| `Starters.ResetCountsUsers` | src/Direttore_op.c:1402-1406 | Every reset makes simSem[1] the number of users, new users raise both, and no other step of the director touches either |
| `Occupations.Reserving` | src/ufficio.c:165-190 | A reservation takes the first free desk of the operator's service, counts one occupation of that desk and leaves all others |
| `Occupations.CountsAreReservations` | src/ufficio.c:176-183 | In every reachable state each desk's count is the number of its reservations since the last clearing |
| `Occupations.RowsAreReservations` | src/erogatore_ticket.c:208-217 | Every entry of every closed day's row, times the operators active that day, is the number of times that desk was reserved that day |
| `Theorems.TotalsAlwaysAgree` | src/operatori.c:173-181 | Per-service sums equal the overall counters whenever no update is half written |
| `Races.WritersAreListed` | src/operatori.c:286-474 | No process changes queue, desks or statistics outside the program points listed as writing them |
| `Races.OpIgnores` | src/operatori.c:286-474 | What an operator's step does depends on none of the three data it is not listed to use |
| `Races.DispIgnores` | src/erogatore_ticket.c:352-475 | The same for the dispenser |
| `Races.DirIgnores` | src/Direttore.c:201-407 | The same for the director |
| `Races.ConflictsExactly` | src/operatori.c:197-213 | Two processes are at conflicting accesses of the same data if and only if one is an operator testing the pause limit and the other an operator updating the statistics, although four more of the accesses take no mutex |
| `Witnesses.TestMeetsUpdate` | src/operatori.c:199-212 | Some run leads to that conflict |
| `Pauses.PauseBound` | src/operatori.c:199-212 | Pauses counted and to be counted exceed the day's limit by less than the number of operators; with limit 0 there are none |
| `Pauses.LimitHoldsExactly` | src/operatori.c:199-212 | Throughout a run the pauses taken stay within the limit if and only if nobody passes the test once those counted and those to be counted have reached it |
| `Pauses.LimitHoldsOneAtATime` | src/operatori.c:199-212 | In particular the limit holds when nobody passes the test while another pause is still to be counted |
| `Witnesses.LimitIsExceeded` | src/operatori.c:199-212 | Some run with two operators and a limit of one pause takes two |
| `Outcomes.CloseConserves` | src/erogatore_ticket.c:456-469 | At the close, per service: issued = provided + waiting + removed but not served, the last at most one per operator of the service |
| `Outcomes.CloseConservesInAll` | src/erogatore_ticket.c:456-469 | Over all services at most one ticket per operator is lost |
| `Outcomes.CloseCountsQueue` | src/erogatore_ticket.c:219-231 | The day's unserved users are the length of the queue at the close, each ticket counted once under its service |
| `Outcomes.RatioRowInTable` | src/erogatore_ticket.c:208-217 | With a duration of at least one day every ratio is written inside the table |
| `Outcomes.RatiosAddUp` | src/erogatore_ticket.c:208-217 | A closed day's ratios sum to 1 if and only if nobody was interrupted between reserving and being counted; without active operators each is 0 |
| `Outcomes.EndsOnFirstStop` | src/Direttore.c:374-390 | A run ends on the first day that reaches the duration or the threshold, and the flags say which |
| `Outcomes.OpensOnlyWithoutStop` | src/Direttore.c:201-248 | A day is opened only while no closed day has reached either |
| `Outcomes.DecisionUsesClose` | src/Direttore.c:386-389 | The value compared with the threshold is the queue length when the day was closed |
| `Outcomes.TicketsAreOffered` | src/erogatore_ticket.c:404-422 | Every waiting ticket is for a service some desk offers today |
| `Outcomes.DispenserReadsToday` | src/erogatore_ticket.c:318-327 | While the dispenser takes requests its array is, entry by entry, the services of today's desk table |
| `Outcomes.GateMustRiseFirst` | src/Direttore_op.c:1389-1401 | With the first two assignments exchanged any operator can work while the director still closes the day; in the order of the source none can |
| `Ledger.RunConserves` | src/erogatore_ticket.c:167-263 | Over a whole run: tickets issued = services provided + services not provided + tickets lost, and no day loses more than one ticket per operator |
| `Calls.QueueIsReplayed` | src/ufficio.c:45-150 | In every reachable state of the protocol the shared queue, the next identifier and the tickets issued today are what the calls made so far leave in a run of the ticket list |
| `Calls.ServiceOrder` | src/ufficio.c:103-150 | In every reachable state, for every day and service: the tickets served, then those waiting or thrown away, are those issued, in increasing order of identifier |
| `Calls.TakesNext` | src/operatori.c:382-402 | The ticket an operator takes is the oldest of its service that nobody has been served with |
| `Sums.BlockFollowsCounters` | src/erogatore_ticket.c:352-475 | Replaying a run's updates on the statistics block gives the protocol's counters in every reachable state, service by service, and its days are those the dispenser has closed so far |
| `Sums.SumsNeverHalved` | src/erogatore_ticket.c:256-259 | In every reachable state between a close and the next reset each service's running sums are the sums of the daily means |
| `Sums.RunAveragesAreMeans` | src/erogatore_ticket.c:270-282 | At the end of every run each service's averages are the means over the days of the run |
| `Sums.RunOverallExactly` | src/erogatore_ticket.c:192-197 | At the end of every run the overall averages are the means of the daily ones if and only if the run had one day or all of those are 0; otherwise at most half |
| `Sums.PausesCountedTwice` | src/erogatore_ticket.c:199-200 | At the end of every run active_operators_total is the sum over the days and total_pauses twice the sum |
| `Figures.CountersAreCounts` | src/operatori.c:167-188 | In every reachable state, per service: services provided are the sessions of that service so far, daily ones those since the last reset, services not provided the tickets of that service found by the closes; and so the totals, operators, pauses and days |
| `Figures.ServiceFigures` | src/erogatore_ticket.c:234-261 | In every reachable state, per service: during a day its daily averages are 0 and its totals those of the closed days plus the day's; after a close, up to the end of the run, the daily averages are the means of that day's sessions and the averages per day times the days its services provided and not provided |
| `Figures.OverallFigures` | src/erogatore_ticket.c:173-206 | The same for the figures over all services, pauses per active operator among them |
| `Figures.RunningAverages` | src/erogatore_ticket.c:192-197 | In every reachable state the running averages over all services are the weighted sums of the daily averages, and at the end of every run that sum divided by the days |
| `Seats.ServesOnlyAtOwnDesk` | src/operatori.c:197-218 | An operator serves only at a desk it owns, of its own service: after a pause it is woken by the end of the day alone and takes no further ticket |
| `Seats.PausedOwnsNoDesk` | src/operatori.c:199-217 | From the release to the end of its pause an operator owns no desk |
| `Seats.WaitsWithoutDesk` | src/operatori.c:294-324 | An operator that waits for a desk has forgotten the one of the day before and owns none |
| `DayEnd.ClosesOnlyWhenTold` | src/operatori.c:455-473 | An operator closes its day only after the day's SIGUSR2, and no second one can reach it there |
| `DayEnd.NoSignalCarriedOver` | src/Direttore_op.c:1438-1451 | No end-of-day signal is pending outside its day |
| `DayEnd.DispenserStopsWhenTold` | src/erogatore_ticket.c:388-457 | The dispenser stops issuing only after the day's SIGUSR2 |
| `Told.DayEndIsSent` | src/Direttore_op.c:1438-1447 | suspendSim sends the signal to the dispenser and then to one operator after the other, to each exactly once, and changes nothing else |
| `Told.SimEndIsSent` | src/Direttore_op.c:1289-1294 | endSim does the same with SIGUSR1 |
| `Told.DayEndReaches` | src/Direttore_op.c:1442-1446 | In every reachable state an operator that has been signalled has the signal pending or its flag up, is closing or has closed its day, or lost the signal when it cleared the flag |
| `Told.DispenserIsTold` | src/Direttore_op.c:1441 | The dispenser has it pending or its flag up until it takes no more requests |
| `Told.SimEndReaches` | src/Direttore_op.c:1289-1294 | Nobody ever loses the end of the simulation |
| `Winding.OperatorWinds` | src/operatori.c:348-473 | An operator that has noticed the end of the day, or is on its way out, calls no user any more and reaches its barrier within 16 of its own steps, waiting apart |
| `Winding.DispenserWinds` | src/erogatore_ticket.c:388-457 | A dispenser that has noticed it takes no other request and stops within five of its own steps |
| `Winding.InterruptedTakesAreUndone` | src/operatori.c:300-381 | A call that fails takes nothing, and the permit taken before it is given back: the ticket's when the mutex of the queue is not obtained, the desk's when that of the desks is not |
| `Winding.AfterReserving` | src/operatori.c:312-324 | After an attempt to reserve the mutex of the desks is free again; with a desk the operator goes on to be counted, without one it returns its permit when its flag is up and gives up otherwise |
| `Winding.SessionOrder` | src/operatori.c:393-452 | With a ticket in its hand an operator errs on an identifier that reads as 0, leaves when its flag is up, and otherwise calls, waits, serves and goes to the statistics; then it leaves when its flag is up or decides about a pause; the flag it acted on is down again |
| `Winding.ProgramOrder` | src/operatori.c:286-474 | The operator's control flow; one that is continued after a pause has noticed the end of the day |
| `Winding.SignalsAreNoticed` | src/operatori.c:71-84 | A delivered signal raises its flag, the end of the day only outside the masked part of a session |
| `Winding.DispenserNotices` | src/erogatore_ticket.c:352-422 | What each signal does to the dispenser, between two calls and inside one |
| `Winding.DispenserDecides` | src/erogatore_ticket.c:352-422 | The dispenser's decisions, each exactly by its flag, the request, or the room in the queue |
| `Standstill.GoesOnUnlessWaiting` | src/operatori.c:286-474 | An operator's program goes on exactly unless it waits at a gate, for a permit, for a taken mutex, in a pause or at the barrier |
| `Standstill.DispenserGoesOn` | src/erogatore_ticket.c:352-475 | The same for the dispenser |
| `Standstill.DirectorGoesOn` | src/Direttore.c:201-407 | The same for the director |
| `Standstill.StandstillExactly` | src/Direttore.c:201-407 | No process can change anything any more if and only if all are asleep with no signal under way and the simulation has ended, or the dispenser waits for an operator that is not done with the day, or it waits for a next day after the end of the simulation |
| `Standstill.HangsOnlyOnLostSignals` | src/operatori.c:286-381 | A day hangs only on operators that have left with an error, or wait after noticing the end of the day, or lost its signal when they cleared the flag |
| `Standstill.DayCanHang` | src/operatori.c:352-358 | Some run ends with an operator that has noticed the end of the day just before it waits for a ticket, and nobody ever goes on |
| `Standstill.EndCanHang` | src/erogatore_ticket.c:352-364 | Some run ends with a dispenser that has noticed the end of the simulation just before it waits for the next day |
| `Handshake.PlainExactly` | src/utente_op.c:186-196 | An identifier read into an int is neither -1 nor -2 if and only if its low 32 bits are neither and a long can hold it |
| `Handshake.AsIntWraps` | src/utente_op.c:186-196 | The number a user reads is the int that agrees with the identifier in the low 32 bits, and -1 for an identifier no long can hold |
| `Handshake.UserKeeps` | src/utente.c:140-198 | Every step of a user, the reading of an answer as a number included, keeps the one claim of everybody that is not astray accounted for |
| `Handshake.ClerkKeeps` | src/erogatore_ticket.c:388-454 | Every step of the dispenser does |
| `Handshake.OperKeeps` | src/operatori.c:382-444 | Every step of an operator does |
| `Receipts.OperatorTakes` | src/operatori.c:382-403 | A free operator calls the owner of the first ticket of its own service and removes that ticket only; it stays free exactly when there is none |
| `Receipts.OperatorTalks` | src/operatori.c:403-444 | It calls that user, waits for an acknowledgement addressed to itself, and tells the same user that it has done |
| `Receipts.DispenserWorks` | src/erogatore_ticket.c:388-454 | It reads the oldest request of the lowest service that has one and answers its sender: -1 exactly when the service is not on offer, -2 exactly when it is and the queue is full, otherwise the next identifier, under which the ticket is appended |
| `Receipts.UserReads` | src/utente.c:156-195 | A user reads the oldest answer to it: a full queue makes it ask again for the same service, a refusal give up, a ticket wait for its call unless the identifier reads as one of the two |
| `Receipts.UserMeets` | src/utente.c:169-198 | It acknowledges the operator that called it and is free after the next message to it |
| `Receipts.TakesOwnTicket` | src/operatori.c:355-403 | In every state of every run, over all days and their ends: an operator leaves its place only by its own step, unsignalled, with the first ticket of its own service; it stays only without such a ticket or when its day is over |
| `Receipts.QueueChanges` | src/ufficio.c:45-150 | In every state of every run the queue changes in three ways only: the dispenser appends the ticket of the request it has read, an operator takes the first ticket of its service, a new day begins with none |
| `Receipts.EveryoneIsSignalled` | src/Direttore_op.c:1438-1451 | Dispenser, operators and users are signalled in this order, each exactly once a day, and whoever has been has it pending or noticed or is done |
| `Receipts.SignalIsNoticed` | src/operatori.c:418-446 | A signal is noticed between two calls unless the process blocks it |
| `Receipts.SignalInterrupts` | src/utente.c:156-183 | Which waits a signal interrupts, when nothing that would end them has arrived, and what becomes of the process |
| `Receipts.SignalledOperatorStops` | src/operatori.c:355-402 | An operator that has noticed the signal calls nobody and drops the ticket in its hand |
| `Receipts.SignalledDispenserStops` | src/erogatore_ticket.c:388-454 | A dispenser that has noticed it drops the request or the answer it has, refusals excepted |
| `Receipts.SignalledUserStops` | src/utente.c:140-145 | A user that has noticed it makes no other request, and goes on with the one under way |
| `Receipts.NextDayBegins` | src/Direttore.c:270-384 | A new day begins with idle users and an empty queue of tickets, and with the messages of the evening |
| `Handshake.OnlyEnabledAreQueued` | src/erogatore_ticket.c:404-422 | Only tickets for enabled services are queued, and never more than fit |
| `Handshake.AnswerIsUnderstood` | src/utente.c:156-195 | A user that is not astray gives up, asks again or waits for a call exactly as the answer means, unless the answer is a ticket whose identifier reads as -1 or -2; then, and only then, it goes astray |
| `Handshake.GivesUpOnlyWhenRefused` | src/utente.c:156-195 | It gives the request up exactly when the service is not on offer, if and only if its answer is not a ticket that reads as -1 |
| `Handshake.ResendDoublesClaim` | src/utente.c:156-168 | A user whose wait for the answer is interrupted keeps to one claim in every continuation that issues plain identifiers if and only if it was not waiting or its answer was already in the queue, and that answer is no ticket read as another one |
| `Misread.OneClaimExactly` | src/utente.c:156-195 | A day that issues the identifiers from one number to another keeps every user to one claim, in every order of its steps, if and only if none of them reads as -1 or -2 |
| `Misread.ReadsAsFull` | src/utente.c:158-168 | Some run of a day that begins with ticket 1 makes a user ask again for ticket 2^32 - 2, nobody being interrupted |
| `Misread.ReadsAsRefused` | src/utente.c:169-195 | Some run makes it give up for ticket 2^32 - 1, with two tickets of its in the queue |
| `Resend.AtMostOneClaim` | src/utente.c:140-198 | A user that is not astray has at most one request under way, live ticket or session, at any moment of any number of days and of their ends, whatever happened to the others |
| `Resend.SessionsAreExclusive` | src/operatori.c:403-444 | No two operators are in session with such a user |
| `Resend.MessagesComeFromPartners` | src/utente.c:169-192 | The fine such a user reads is from the operator it acknowledged, and a call from one that waits for it; an operator reads the acknowledgement of the user it called, astray or not |
| `Resend.NobodyIsLost` | src/utente.c:170-183 | Such a user, waiting for a call, never reads anything else |
| `Resend.WhoIsAstray` | src/utente.c:156-168 | Only users whose wait for an answer was interrupted are astray, unless an identifier issued so far reads as -1 or -2 |
| `Resend.InterruptedStrays` | src/utente.c:156-168 | An interrupted user goes astray if and only if something of its request is left |
| `Resend.PlainRunKeepsOneClaim` | src/utente.c:140-198 | While all identifiers issued in the run are plain everybody but the interrupted keeps to one claim |
| `Resend.QueuesEndEmpty` | src/Direttore_op.c:1438-1451 | A day that is over leaves messages only of users that are astray; without them both message queues are empty, so the next day begins as the first did |
| `Resend.ResendDoublesClaim` | src/utente.c:156-168 | With the signals in the order of suspendSim: any interrupted user keeps to one claim for the rest of the day, whatever happens as long as no identifier that reads as -2 is issued, if and only if nothing of its first request is left that can become a ticket or an answer read as -2 |
| `Crossing.SessionsCross` | src/utente.c:177-192 | Some run from clean queues brings two operators into session with one user, which takes the second call for its fine |
| `Crossing.WaitsForever` | src/utente.c:156-168 | A user interrupted after the dispenser has stopped waits for an answer in every continuation, and no other day ever begins |
| `Crossing.UsersAreStranded` | src/erogatore_ticket.c:388-454 | Some run leads there: the end signal alone makes the dispenser drop a request it has received |

## Left out

- Process creation, argument passing, attaching and freeing IPC objects, and the error exits that follow a failing system call: plumbing around the protocol.
- Configuration parsing, printing and CSV export: input and output only.
- Random choices, service times and sleeping: the choice of services, of pauses and of requests, and every duration, is arbitrary; waiting and service times are inputs of the statistics, any value for each session of a run.
- Fair scheduling: Standstill.StandstillExactly says when nobody can go on, Winding.OperatorWinds and Winding.DispenserWinds bound the steps after a signal was noticed; that a process that can go on does is not stated.
- Standstill.StandstillExactly: the dispenser's test of its flag and its wait for a request (src/erogatore_ticket.c:388-389) are one step in the protocol; a signal noticed between them makes the program wait for one more request, which is in the message model (Receipts.SignalledDispenserStops).
- Winding.OperatorWinds: at the two start gates the test of the end of the simulation and the wait that follows are one step, so a SIGUSR1 noticed between them ends the operator here.
- Failing calls the program ignores: taking a mutex in gestisci_pausa (src/operatori.c:200-215) is assumed not to be interrupted, and the same for unlocking calls; for the close of a day this is proved instead (DayEnd.ClosesOnlyWhenTold).
- Users in the protocol model: they only pass simSem[1] (Starters.AllUsersStart), at any time it lets them; their wait for the gate and what they do with the day are in the message model, and users that never come back to the start are found there (Crossing.UsersAreStranded), not in Standstill.StandstillExactly.
- Process identifiers: processes are numbered, so identifiers are distinct; that they are larger than 6, and so never collide with a service as message type, is assumed.
- Resend.ResendDoublesClaim: speaks of the rest of the day.  For later days Resend.AtMostOneClaim covers every interrupted user of whose request nothing was left; for one of which a refusal, or an answer about a ticket already gone, was left they are not stated.
- A user whose visit is over when the end of the day is signalled is interrupted in its wait on simSem[1], keeps its flag (src/utente.c:104-106) and therefore skips the next day (src/utente.c:120-123): the flag is not carried from day to day here, but a user may stay idle on any day, so such runs are included.
- Handshake.PlainExactly: atoi is taken to be strtol with a 64-bit long, cut to a 32-bit int; the C standard leaves values an int cannot hold undefined.
- Tickets in the message model carry 0 as time of issue, because nothing there reads it; a user's visit time and its choice of requests are arbitrary.
- A failing msgsnd, and a called user that has already gone home: the sender goes on, or its operator blocks.
- Tallies.OpAccounts: permits and tickets abandoned at the close of a day leave the operator's own account at its next join; TicketPermits.PermitAccount follows the permits on.
- Theorems.TotalsAlwaysAgree: an update writes its counters in one action; in the source they agree whenever its mutex is free.
- Statistics.StatsBlock.constructor: assumes a fresh, zero-filled segment, so that the fields initStats does not set are 0 too; the loop bound of initStats over the ratios is not modelled.
- Statistics.StatsBlock.AverageOverall: the fields that only it and the daily reset write are kept in one record value.
- QueueRuns.IdsNeverRepeat: counts identifiers without bound, that is, below the 64-bit wrap described by TicketQueue.TicketQueue.Insert; the same holds for the protocol.
- Other C integer widths: counters, days and occupations are unbounded.
- Layout.EntriesApart: sizes are unbounded; overflow of the int product of days and seats is not modelled.
- add_users and the named pipe: new users appear between two days, in any number.
