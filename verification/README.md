# Serial Broker: a verified model

Serial Broker lets any number of browser tabs share one serial port. One tab holds the port at a time; every
other tab hands its writes to it over a message bus, and Web Locks decide who holds the port. This project models
the parts of it that have to hold however tabs crash, hand over, misorder their messages and lose their device, and
proves what they promise, in Dafny 4.11. `dafny verify dfyconfig.toml` checks all of it.

## What is modelled

**Delivering a write at most once, and in order.** `PendingWrites`, `AcceptedWrites`, `OwnerTerms` and `WriteQueue`
are four classes, each proved against a specification of its new state. `Delivery` wires them into a state machine over
any number of tabs and terms of holding the port: one first-in-first-out channel per ordered pair of tabs, from which
any message may be lost; crashes; repeated requests; deadlines at any moment. It is built on the same functions the
classes are proved against. What a tab believes about which term is current and which has ended is left entirely open
there, so `DeliverySafety` shows that approval, order per channel and the record of accepted writes are enough.
`DeliveryOutcomes` adds what holds of runs without any hypothesis. `OrderSafety` and `OrderBroken` say exactly when the
writes of one tab are begun in order, `HandOverOrder` which runs meet that. `Handover` adds what answers need: the lock
of one term with its queue, the watches and the goodbye.

**Keeping the port.** `ConnectionAutomaton` is `PortSupervisor` with a step for each turn between two `await`s;
`PortSafety` states what whole runs keep, `PortOvertaken` how an overtaken attempt breaks it, and the class in
`PortSupervisor` is proved to take those steps and to keep the invariant. `Backoff` computes its delays, and
`ReconnectDelays` follows them over whole runs. `PortWrites` is the chunk loop and the bound on waiting writes,
`DeviceStream` the bytes a device is handed over a whole term.

**Standing on their own.** `StructureBudget` (the walk over a received structure), `TabSlots` (the tab limit),
`ReceiveBuffer`, `RateLimiter`, `Names` with `Unicode`, and of the device emulator `ByteQueue`, `UsbipFraming`,
`UsbipSession`, `CdcAcmDevice`, `LineCoding` and `PayloadText`. `Basics` and `Division` hold what they share.

Promises are explicit: whatever an `await` waits for is a step that may come at any time, or a call with the answer as
its argument. Clocks, random draws and the answers of the browser and of the device are parameters. Identifiers are
numbers, since they are only compared.

## Where the program does not keep what it says

In each case the model follows the program. A lemma or method gives a concrete run, and others the exact condition.

1. *A write may be begun twice, and a write rejected with `started: false` may have been begun.* An answer to
   `write-ready` is matched by sender, request and term only (`src/client/configuration-session.ts:1020-1028`), and a
   write that ends as `NOT_CONNECTED` is forgotten (`src/client/accepted-writes.ts:75-79`). A late yes can therefore
   answer a second question about a write that was handed over twice. `DeliveryCounterexample` gives two runs.
   `LateYes` shows which late yes leaves the invariant standing, by an if and only if, and from which states one leads
   to a broken promise. With the one hypothesis that a yes is taken only for the question it answers
   (`Delivery.TakesOwnAnswer`, which numbering the questions would establish), both promises hold in all runs.
2. *Two ports may be open at once, and a port may be opened after `stop()`.* An attempt does not look at its generation
   between finding a port and calling `open()`, nor between opening it and taking its streams
   (`src/owner/port-supervisor.ts:824-826`, `938-943`, `970-1003`), although each of these follows an `await`.
   `ConnectionAutomaton` shows that opening a port and taking its streams keep the invariant if and only if the attempt
   is still the current one, that a stale attempt which finds no streams ends whatever the newer one has reached, and
   that every other continuation of a stale attempt changes nothing, but for the note a throwing `open()` leaves that a
   port was found. `PortOvertaken` shows that from every state with an attempt in one of the two places the run can go
   on to two open ports, to a port nobody closes, or to an open connection after `stop()`, and gives three runs from the
   start.
3. *Writes of one tab may reach the port out of order*, which `docs/site/guarantees.md:12` excludes.
   `OrderCounterexample` gives three runs: a write handed to a term whose tab died waits until that term is known to
   have ended, while a later one goes to the next term at once; a write handed back by `NOT_CONNECTED` joins the queue
   of the same term again, behind a later one; and so does a write whose request was lost. `OrderSafety` and
   `OrderBroken` give the exact condition, step by step (`OrderSafety.InTurn`): the issuer may say yes only when no
   earlier write can still be begun, and a write may be taken back, or let begin again, only when no later one has been
   begun or can be. Runs in turn keep the order, and any one step out of turn can be followed by its loss.
   `HandOverOrder` shows that runs stay in turn in which nothing is lost or handed back and each write is handed only to
   the term the earlier ones are with.
4. *The newest claim is not always checked*, although
   `docs/adr/0018-hold-a-web-lock-for-every-term-of-holding-the-port.md:87` says that it is: when sixteen other terms
   are live, the newest check is itself the oldest one and is given up. `OwnerTerms.SeventeenthIsNotChecked` drives the
   class there, and `OwnerTerms.NewestCheckIsKept` is the exact condition.

## Model

| member | source | states |
|---|---|---|
| `DeliverySafety.AtMostOnce` | src/client/configuration-session.ts:946-1079 | in any run of any number of tabs and terms, with crashes, losses, repeated requests and reordering between senders, no write stands in the device log twice, if no yes is taken for a later question than its own |
| `DeliverySafety.RejectedAsUnwrittenIsNeverBegun` | src/client/pending-writes.ts:179-252 | with the same hypothesis, a write rejected with `started: false` or `WRITE_QUEUE_FULL` was not begun by any tab, and is not at any later point of the run |
| `DeliveryOutcomes.ResolvedWasBegun` | src/client/configuration-session.ts:1061-1079 | in any run whatever, a write that resolved was begun, stays begun and stays resolved |
| `DeliverySafety.UnstartedWasNotBegun` | src/client/pending-writes.ts:367-398 | with the same hypothesis, a write its issuer still counts as not started was begun by no term, so handing it on repeats nothing |
| `DeliverySafety.SettledIsFinal` | src/client/pending-writes.ts:337-352 | in any run whatever, how a write was settled never changes again, and it is pending no more |
| `DeliverySafety.RunKeepsInv` | src/client/configuration-session.ts:946-1079 | with the same hypothesis, every reachable state keeps the invariant that ties the issuer record, both message queues, the holder record, the job queue and the log together |
| `DeliverySafety.StepKeepsInv` | src/client/configuration-session.ts:946-1079 | each of the twenty steps keeps that invariant, given only that a delivered yes answers the question being asked |
| `DeliverySafety.ApprovalKeepsInv` | src/client/configuration-session.ts:1020-1028 | taking an answer keeps it, when the answer is to the question being asked |
| `DeliverySafety.AnswerQuestionKeepsInv` | src/client/pending-writes.ts:236-252 | deciding, marking and answering in one turn keeps it |
| `DeliverySafety.TakeRequestKeepsInv` | src/client/configuration-session.ts:1037-1060 | admitting a request, repeating a known outcome, ignoring a repeat and refusing an unknown one keep it |
| `DeliverySafety.TakeResultKeepsInv` | src/client/pending-writes.ts:258-281 | taking a result, and handing a `NOT_CONNECTED` write on again, keep it |
| `DeliverySafety.BeginKeepsInv` | src/owner/port-supervisor.ts:487-500 | beginning an approved write keeps it: the log gains a write that was not in it |
| `DeliverySafety.ReportKeepsInv` | src/client/configuration-session.ts:1061-1079 | recording the end of a write and reporting it keep it |
| `DeliverySafety.HandOverKeepsInv` | src/client/pending-writes.ts:367-398 | handing a write to the current term keeps it |
| `DeliveryCounterexample.BegunTwice` | src/client/configuration-session.ts:1020-1028 | a run in which an answer outlives its question and one write is begun by two terms: without the hypothesis at-most-once is false |
| `DeliveryCounterexample.RejectedAlthoughBegun` | src/client/configuration-session.ts:1020-1028 | a run in which a write rejected with `started: false` had been begun |
| `LateYes.LateYesKeepsInv` | src/client/configuration-session.ts:1020-1028 | taking a yes to any question keeps the invariant if and only if the write is counted as begun by that term, is not asked for again behind the yes, and may be begun by no other term |
| `LateYes.LateYesBreaksThePromise` | src/client/configuration-session.ts:1020-1028 | where the next message is a yes to an earlier question, and the issuer counts the write as not begun, or has said so, or will once it hears what is under way, or another term has begun it or may, the steps can lead to a write begun twice or begun although its issuer says it was not |
| `OrderCounterexample.SecondIsBegunFirst` | docs/site/guarantees.md:12 | a run without a loss in which a write stranded with a dead term is begun after the one issued behind it |
| `OrderCounterexample.HandedBackIsBegunLast` | docs/site/guarantees.md:12 | a run with one term and without a loss in which a write handed back by `NOT_CONNECTED` is begun after the one issued behind it |
| `OrderCounterexample.LostIsBegunLast` | docs/site/guarantees.md:12 | a run in which a write whose request was lost and sent again is begun after the one issued behind it |
| `OrderSafety.OrderIsKept` | docs/site/guarantees.md:12 | the writes of a tab are begun in the order it issued them in every run in which no yes is said while an earlier write can still be begun, and no write is taken back, or let begin again, once a later one has been begun or can be - if no yes is taken for a later question than its own |
| `OrderSafety.StepKeepsTurn` | src/client/pending-writes.ts:236-281 | each step in turn keeps what that rests on: once a write is begun or has leave to begin, no earlier one can still be begun |
| `OrderSafety.BoundAfterStep` | src/client/pending-writes.ts:236-252 | leave to begin a write is given in one place only: where its issuer answers the question its term waits on |
| `OrderBroken.OneStepOutOfTurnIsEnough` | docs/site/guarantees.md:12 | the converse: after any one step out of turn a run can go on, in turn from then on, until the log is reversed |
| `OrderBroken.OutOfTurnLosesOrder` | src/client/pending-writes.ts:236-281 | the same from any state whatever: what follows a step out of turn can reverse the log |
| `OrderBroken.OrderIsLost` | src/client/pending-writes.ts:236-281 | wherever an earlier write can still be begun although a later one has been or can be, the order can be lost |
| `HandOverOrder.CarefulRunsKeepOrder` | src/client/pending-writes.ts:330-335 | the order is kept in every run in which none of the tab's requests and results is lost, no write is handed back, each is handed only to a term every earlier unstarted write is with, and only that term is answered |
| `HandOverOrder.CarefulRunsAreInTurn` | src/client/pending-writes.ts:367-398 | such a run never comes out of turn |
| `HandOverOrder.StepKeepsFifo` | src/client/configuration-session.ts:946-1079 | each of its steps keeps the order between the writes in the channel, in the queue of the term and in the channel back |
| `PendingWrites.HandOnIsSafe` | src/client/pending-writes.ts:367-398 | a write changes its term only while not started and after that term ended, is never handed over twice, and is left alone otherwise |
| `PendingWrites.HandOversAreExact` | src/client/pending-writes.ts:330-335 | the calls made for a list of writes are exactly those the guard allows |
| `PendingWrites.HandOversKeepOrder` | src/client/pending-writes.ts:330-335 | the calls name the writes in the order they were issued, each at most once |
| `PendingWrites.PendingWrites.Add` | src/client/pending-writes.ts:179-222 | a new write is recorded behind the others and handed on if it may be |
| `PendingWrites.PendingWrites.Approve` | src/client/pending-writes.ts:236-252 | yes exactly if the write is pending and addressed to the asking term, which marks it as started in the same turn |
| `PendingWrites.PendingWrites.HandleResult` | src/client/pending-writes.ts:258-281 | a result is taken only from the addressed term; `NOT_CONNECTED` hands the write back and on, anything else settles it |
| `PendingWrites.PendingWrites.HandleTermEnded` | src/client/pending-writes.ts:287-306 | exactly the writes the term had begun are lost, each settled once, and the rest is handed on in order |
| `PendingWrites.PendingWrites.SettleLost` | src/client/pending-writes.ts:287-301 | the loop leaves exactly the survivors |
| `PendingWrites.PendingWrites.ResendUnstarted` | src/client/pending-writes.ts:315-327 | exactly the writes that may be taken back are, and are handed over again, in order |
| `PendingWrites.PendingWrites.DispatchWaiting` | src/client/pending-writes.ts:330-335 | every write that may be handed on is, in order |
| `PendingWrites.PendingWrites.Expire` | src/client/pending-writes.ts:190-221 | the deadline settles the write, as started exactly if this tab had let it begin |
| `PendingWrites.PendingWrites.FailAll` | src/client/pending-writes.ts:354-365 | every pending write is settled with the one error |
| `PendingWrites.PendingWrites.Dispatch` | src/client/pending-writes.ts:367-398 | one write is handed on exactly if the guard allows it |
| `AcceptedWrites.InProgressIsNeverForgotten` | src/client/accepted-writes.ts:58-88 | whatever other writes come and go, a write being written is known until it is finished |
| `AcceptedWrites.FinishedIsRemembered` | src/client/accepted-writes.ts:71-88 | a finished write is answered with its own outcome while fewer than `maxFinished` remembered finishes follow |
| `AcceptedWrites.FinishKeepsValid` | src/client/accepted-writes.ts:71-88 | the record stays bounded, free of duplicates and free of `NOT_CONNECTED` |
| `AcceptedWrites.AcceptedWrites.IsKnown` | src/client/accepted-writes.ts:52-55 | known exactly if in progress or remembered |
| `AcceptedWrites.AcceptedWrites.Admit` | src/client/accepted-writes.ts:58-68 | the verdict and the new record |
| `AcceptedWrites.AcceptedWrites.Finish` | src/client/accepted-writes.ts:71-88 | the new record: `NOT_CONNECTED` forgotten, anything else remembered, the oldest dropped |
| `OwnerTerms.NewestCheckIsKept` | src/client/owner-terms.ts:481-496 | the term named by the newest claim is kept for checking if and only if the table had room or held a term that is not live |
| `OwnerTerms.SeventeenthIsNotChecked` | src/client/owner-terms.ts:481-496 | a run of the class: sixteen terms are found live, and the claim of a seventeenth leaves no record of it |
| `OwnerTerms.KeepsNewest` | src/client/owner-terms.ts:481-496 | a live term just added is never the one given up |
| `OwnerTerms.OwnerTerms.AuthorizeClaim` | src/client/owner-terms.ts:122-180 | a claim is believed at once exactly if its whole claim is known, live and not succeeded; then its term is current. A term not known before is put up for checking with the message waiting for the answer |
| `OwnerTerms.OwnerTerms.AuthorizeGoodbye` | src/client/owner-terms.ts:262-281 | `owner-released` ends a term exactly if its holder says it and the lock was already found free by a clean ending; it is never believed otherwise |
| `OwnerTerms.OwnerTerms.AuthorizeFromTerm` | src/client/owner-terms.ts:122-180 | `write-ready` and `write-result` are believed exactly from the context that speaks for the term |
| `OwnerTerms.OwnerTerms.AuthorizeDevice` | src/client/owner-terms.ts:122-180 | device traffic is believed exactly from a context that speaks for a live term |
| `OwnerTerms.OwnerTerms.LockChecked` | src/client/owner-terms.ts:296-330 | held: live, and what waited is applied once each in arrival order; free: refused, and what waited is dropped; no answer: the record is gone; an answer for a record that is gone changes nothing |
| `OwnerTerms.OwnerTerms.WatchGranted` | src/client/owner-terms.ts:374-413 | a granted watch ends the term at once, unless the holder was letting go cleanly and its goodbye is still to come |
| `OwnerTerms.OwnerTerms.MakeCurrent` | src/client/owner-terms.ts:456-466 | the term becomes current and the one before it succeeded |
| `OwnerTerms.OwnerTerms.Remember` | src/client/owner-terms.ts:481-496 | the eviction loop ends with at most sixteen terms, gives up the one its three rules choose, and never the current one |
| `OwnerTerms.OwnerTerms.Victim` | src/client/owner-terms.ts:481-505 | the three searches find that one |
| `OwnerTerms.OwnerTerms.WaitFor` | src/client/owner-terms.ts:339-345 | at most sixteen messages wait for one check, and a further one is dropped |
| `OwnerTerms.OwnerTerms.End` | src/client/owner-terms.ts:442-454 | a term ends once, is reported once, and is no longer current |
| `OwnerTerms.OwnerTerms.CurrentIsFounded` | src/client/owner-terms.ts:229-256 | the current term is the tab's own, or the lock named by its whole claim was found held |
| `OwnerTerms.OwnerTerms.EndedIsFounded` | src/client/owner-terms.ts:374-413 | another tab's term is down as ended only after this tab was granted that lock |
| `Handover.CleanHandoverLosesNoAnswer` | src/client/configuration-session.ts:873-935 | when a tab with an accepted write takes the term for ended, `owner-released` was said to it exactly once and has arrived, and so has every answer said before it |
| `Handover.EndedMeansLetGo` | src/client/owner-terms.ts:374-413 | no message and no other script makes a tab take a term for ended while its holder holds the lock |
| `Handover.HeldIsFoundHeld` | src/client/owner-terms.ts:353-368 | while the holder holds the lock every check finds it held |
| `Handover.RunKeepsEarly` | src/client/configuration-session.ts:917-935 | a watch requested before a write was accepted stands before the goodbye in the queue of the lock, or has learned that it is coming |
| `WriteQueue.WriteQueue.Enqueue` | src/owner/write-queue.ts:52-84 | a job joins the end of the queue and a start is scheduled |
| `WriteQueue.WriteQueue.Withdraw` | src/owner/write-queue.ts:75-83 | a job leaves exactly if it has not begun, and ends once |
| `WriteQueue.WriteQueue.Drain` | src/owner/write-queue.ts:92-98 | exactly the jobs queued so far that have not ended are waited for |
| `WriteQueue.WriteQueue.JobSettled` | src/owner/write-queue.ts:112-128 | the running job ends and the oldest waiting one begins |
| `WriteQueue.WriteQueue.Microtask` | src/owner/write-queue.ts:101-128 | the scheduled start begins the oldest waiting job if none runs, and wakes nothing twice |
| `WriteQueue.WriteQueue.WaitingHasNotBegun` | src/owner/write-queue.ts:112-128 | jobs begin in the order they were queued: every job begun was queued before every one that waits, and the running one is the last begun |
| `PortWrites.WriteChunks` | src/owner/port-supervisor.ts:502-560 | the chunk loop hands over the payload piece by piece, each only after the one before it was accepted; resolved means all of it, and a failure reports exactly what had been accepted |
| `PortWrites.RunJob` | src/owner/port-supervisor.ts:470-500 | nothing is handed to the device exactly when the caller is told that the write has not begun |
| `PortWrites.UnansweredWrites.Accept` | src/owner/port-supervisor.ts:416-459 | a write is refused exactly beyond 4096 writes or 64 MiB, which are never exceeded |
| `PortWrites.UnansweredWrites.Answered` | src/owner/port-supervisor.ts:416-428 | the byte counter stays the sum of the unanswered writes |
| `DeviceStream.StreamIsOnePrefixOfEachWrite` | src/owner/port-supervisor.ts:461-562 | at every point of every run the stream is one prefix of each begun payload, in the order the writes were queued |
| `DeviceStream.OutcomeIsHonest` | src/owner/port-supervisor.ts:461-562 | a resolved write is in the stream as a whole; a write is said not to have begun exactly if it is not in the stream |
| `DeviceStream.OutcomeIsFinal` | src/owner/port-supervisor.ts:461-562 | an outcome never changes, and a write said not to have begun never enters the stream |
| `DeviceStream.StepKeepsInv` | src/owner/port-supervisor.ts:461-628 | every step of a job, a stalled chunk included, keeps the stream in order |
| `PortSafety.OnePortAtATime` | src/owner/port-supervisor.ts:809-967 | never are two devices open or being opened; each is the connection's or being closed; `open()` is called only with nothing open - if no overtaken attempt goes on in the two places where it does not look |
| `PortSafety.NothingIsOpenAfterStop` | src/owner/port-supervisor.ts:224-260 | with the same hypothesis, once `stop()` has resolved nothing is open, and nothing is ever opened again |
| `PortSafety.ReconnectionIsBounded` | src/owner/port-supervisor.ts:1183-1232 | with the same hypothesis, attempts stay within `maxAttempts`; exactly the reconnecting state has an armed timer, and exactly one, with an attempt left |
| `PortOvertaken.FoundMayOpenTwo` | src/owner/port-supervisor.ts:824-826 | from every state in which an attempt stands before its `open()`, the run can go on to two devices open at once |
| `PortOvertaken.OpenedMayStrandAPort` | src/owner/port-supervisor.ts:970-1012 | from every state in which an attempt stands before its streams, the run can go on to an open device that is no connection's and that nobody closes |
| `PortOvertaken.FoundMayOpenAfterStop` | src/owner/port-supervisor.ts:824-826 | where the supervisor is stopped and an attempt stands before its `open()`, a device can come to be open after `stop()` has resolved, with nobody to close it |
| `PortOvertaken.OpenedMayComeAfterStop` | src/owner/port-supervisor.ts:970-1012 | where it is stopped and an attempt stands before its streams, the connection can be open after `stop()` has resolved |
| `PortOvertaken.StopLeaksAFoundPort` | src/owner/port-supervisor.ts:824-826 | a run in which `stop()` begins between finding a port and opening it: the port is opened afterwards and nobody closes it |
| `PortOvertaken.StopIsOvertakenByItsStreams` | src/owner/port-supervisor.ts:970-1012 | a run in which `stop()` begins between opening a port and taking its streams: the state becomes open after it was stopped |
| `PortOvertaken.DeviceChangeOpensTwo` | src/owner/port-supervisor.ts:342-379 | a run in which the device is changed between finding a port and opening it: two devices are open at once |
| `ConnectionAutomaton.OpeningNeedsTheCurrentAttempt` | src/owner/port-supervisor.ts:938-943 | opening the port found keeps the invariant if and only if the attempt is not stale |
| `ConnectionAutomaton.TakingNeedsTheCurrentAttempt` | src/owner/port-supervisor.ts:970-1003 | going on to the streams keeps it if and only if there are none to take or the attempt is not stale |
| `ConnectionAutomaton.StaleLossEndsTheNewAttempt` | src/owner/port-supervisor.ts:970-1003 | a stale attempt that finds its port without streams breaks no promise, but ends whatever the newer attempt had reached |
| `ConnectionAutomaton.StaleAttemptOnlyEnds` | src/owner/port-supervisor.ts:1377-1379 | every other continuation of a stale attempt changes nothing but that the attempt is over - and, where `open()` throws, that a port was found |
| `ConnectionAutomaton.StepKeepsInv` | src/owner/port-supervisor.ts:200-390 | every call, event, timer and continuation keeps the invariant of ports, attempts, timer and counters, given a current attempt in those two places |
| `ConnectionAutomaton.LossKeepsInv` | src/owner/port-supervisor.ts:1125-1155 | losing a connection closes what it held, makes every attempt stale and schedules one retry or none |
| `ConnectionAutomaton.ListingKeepsInv` | src/owner/port-supervisor.ts:851-913 | the ends of a listing keep it |
| `ConnectionAutomaton.StopKeepsInv` | src/owner/port-supervisor.ts:229-260 | stopping hands what is open to the teardown |
| `PortSupervisor.ConnectLooksAgain` | src/owner/port-supervisor.ts:809-826 | a new attempt overtakes every other, counts one, and lists the ports once nothing is open any more |
| `PortSupervisor.LossWaitsOrGivesUp` | src/owner/port-supervisor.ts:1125-1155 | a loss leaves no attempt current and nothing open but what is being closed; then one timer is armed within the cap, with an attempt left, or the supervisor has given up |
| `PortSupervisor.RecordingWaitsOrGivesUp` | src/owner/port-supervisor.ts:1183-1232 | so does a failed attempt |
| `PortSupervisor.FollowingLooksAgain` | src/owner/port-supervisor.ts:342-379 | a change of the device has the old port closed, forgets it and looks again with all attempts left |
| `PortSupervisor.ReappearanceLooksAgain` | src/owner/port-supervisor.ts:725-757 | a device that reappears ends a wait, keeping its count, revives a supervisor that gave up or asks for permission, and disturbs nothing else |
| `PortSupervisor.StoppingClosesAll` | src/owner/port-supervisor.ts:229-260 | stopping overtakes every attempt, disarms the timer and has everything open closed |
| `PortSupervisor.OpeningIsAlone` | src/owner/port-supervisor.ts:938-943 | where the current attempt opens its port nothing else is open |
| `PortSupervisor.ListingMeans` | src/owner/port-supervisor.ts:858-913 | what each end of a listing leads to for the current attempt: a port while nothing is open, another listing, a retry, a request for permission or giving up |
| `PortSupervisor.PortSupervisor.Retry` | src/owner/port-supervisor.ts:292-301 | valid stays valid; exactly a supervisor that gave up or asks for permission looks again, with all attempts left |
| `PortSupervisor.PortSupervisor.UseGrantedPort` | src/owner/port-supervisor.ts:311-332 | valid stays valid; a connection that works or is being made is left alone, anything else looks again |
| `PortSupervisor.PortSupervisor.FollowDevice` | src/owner/port-supervisor.ts:342-379 | valid stays valid; the same device, or a stopped supervisor, changes nothing; otherwise the old port is being closed and the new one is looked for |
| `PortSupervisor.PortSupervisor.HandleDeviceConnected` | src/owner/port-supervisor.ts:725-757 | valid stays valid; a wait ends keeping its count, and a supervisor that gave up starts afresh |
| `PortSupervisor.PortSupervisor.HandleDeviceDisconnected` | src/owner/port-supervisor.ts:773-800 | valid stays valid; a connection or a request for permission becomes a wait within the cap, or is given up, and all else goes on |
| `PortSupervisor.PortSupervisor.Stop` | src/owner/port-supervisor.ts:229-260 | valid stays valid; no attempt is current, no timer armed, and everything open is being closed |
| `PortSupervisor.PortSupervisor.ListingEnds` | src/owner/port-supervisor.ts:858-913 | valid stays valid; a stale attempt only ends, the current one goes on as its answer says |
| `PortSupervisor.PortSupervisor.OpenPort` | src/owner/port-supervisor.ts:938-943 | valid stays valid exactly if the attempt is current, and then the port is the only one open |
| `PortSupervisor.PortSupervisor.OpenAnswered` | src/owner/port-supervisor.ts:945-966 | valid stays valid; a port that opened is kept by the current attempt only, and one that did not is a loss |
| `PortSupervisor.PortSupervisor.StartReading` | src/owner/port-supervisor.ts:970-1021 | valid stays valid unless a stale attempt takes streams; then the connection is open from now on, and without streams it is a loss |
| `PortSupervisor.PortSupervisor.ConnectionEnds` | src/owner/port-supervisor.ts:1048-1090 | valid stays valid; for the current attempt it is a loss, and a stale one only ends |
| `Backoff.DelayIsBounded` | src/core/backoff.ts:29-56 | every delay lies in [0, maxDelayMs] whatever the random source returns, and is 0 where no retry came before |
| `Backoff.DelayGrows` | src/core/backoff.ts:29-56 | for one draw, a later retry never waits less |
| `Backoff.DelayIsInItsWindow` | src/core/backoff.ts:29-56 | a draw in range keeps the delay between `jitter * capped` and `capped` |
| `ReconnectDelays.DelaysAreBounded` | src/owner/port-supervisor.ts:1183-1232 | in every run the timer that is armed waits what the count of losses calls for, within [0, maxDelayMs] |
| `ReconnectDelays.FirstRetryIsImmediate` | src/owner/port-supervisor.ts:1183-1232 | in every run the first retry after the count started over is made at once |
| `ReconnectDelays.HeldConnectionIsRetriedAtOnce` | src/core/backoff.ts:114-122 | so is the retry after a connection that held for `stableAfterMs`, whatever was lost before it |
| `ReconnectDelays.DelaysGrow` | src/owner/port-supervisor.ts:1183-1232 | in every run, until the count starts over, a later retry never waits less for one draw of the random source |
| `ReconnectDelays.StepCounts` | src/owner/port-supervisor.ts:1125-1232 | a step leaves the count of losses and the timer as they are, starts the count over, or is one loss with its delay |
| `StructureBudget.WalkIsExact` | src/protocol/limits.ts:263-297 | the walk accepts a graph if and only if it unfolds to a tree of plain values without sharing, within both budgets, and then counts its characters exactly |
| `StructureBudget.MeasureStructure` | src/protocol/limits.ts:263-297 | the loop over the stack ends on every graph, cyclic ones too, with the walk's answer |
| `StructureBudget.ExceedsStructureBudget` | src/protocol/limits.ts:243-248 | nothing is reported exactly for a tree within the budget |
| `StructureBudget.StructureCharacters` | src/protocol/limits.ts:257-260 | the number of characters of such a tree, and the whole budget for anything else |
| `StructureBudget.AcceptedIsForest` | src/protocol/limits.ts:272-295 | what is accepted from any point of the walk is a forest not met before, within what was left |
| `StructureBudget.ForestIsAccepted` | src/protocol/limits.ts:272-295 | every such forest is accepted, and counted as it is |
| `StructureBudget.WidthOf` | src/protocol/limits.ts:305-319 | keys are counted no further than one past the limit |
| `TabSlots.AtMostMaxTabs` | src/client/tab-slot.ts:104-159 | in every reachable state at most `maxTabs` tabs hold a place, and each keeps exactly one place lock, shared with nobody |
| `TabSlots.AdmittedInTurn` | src/client/tab-slot.ts:104-159 | tabs take places in the order in which they queued at the gate |
| `TabSlots.StoppedLetsGo` | src/client/tab-slot.ts:79-97 | a stopped tab, in whatever phase, asks for nothing more, and each lock or request it still has can be taken from it |
| `TabSlots.StoppedEndsWithNothing` | src/client/tab-slot.ts:79-97 | along any run each step of a stopped tab takes one thing off what it has, so after as many as it had things it has no lock and no request |
| `TabSlots.DeathLeaksNothing` | src/client/tab-slot.ts:13-15 | a tab that died waits for nothing and holds nothing: exactly its places are free again, and the gate it held can be granted to the next tab |
| `TabSlots.StepKeepsInv` | src/client/tab-slot.ts:67-163 | every step of any tab or of the browser keeps gate, places, countdown and order consistent |
| `TabSlots.EndedIsOneLess` | src/client/tab-slot.ts:143-156 | the countdown is the number of requests outstanding, so the last one to end lets the gate go |
| `TabSlots.StoppedCanLetGo` | src/core/held-lock.ts:91-101 | gate and places can be let go from every phase |
| `TabSlots.TabSlot.PlaceGranted` | src/client/tab-slot.ts:117-141 | a granted place is kept exactly if it is the first and one is wanted, and then no other request asks any more; otherwise it is given back |
| `TabSlots.TabSlot.RequestSettled` | src/client/tab-slot.ts:143-156 | the gate is let go with the last request to end, unless a place is kept, and the countdown stays the number of requests |
| `TabSlots.TabSlot.Stop` | src/client/tab-slot.ts:79-97 | no request asks any more, no place is kept, and the gate is let go if it was held for one |
| `TabSlots.TabSlot.TakePlace` | src/client/tab-slot.ts:104-116 | every place is requested, each once, unless the tab was stopped meanwhile |
| `ByteQueue.ByteQueue.Push` | emulator/src/byte-queue.ts:25-31 | bytes join the end |
| `ByteQueue.ByteQueue.Peek` | emulator/src/byte-queue.ts:44-77 | the first bytes, leaving the queued sequence as it was; refused beyond its length |
| `ByteQueue.ByteQueue.Discard` | emulator/src/byte-queue.ts:84-103 | exactly a prefix is removed; refused beyond the length |
| `UsbipFraming.ChunkingDoesNotMatter` | emulator/src/usbip-server.ts:179-209 | any two ways of cutting the same stream lead to the same messages in the same order, the same error, and the same bytes left waiting |
| `UsbipFraming.FeedAllIsFeed` | emulator/src/usbip-server.ts:179-209 | any number of `data` events do what one with all their bytes does |
| `UsbipFraming.NextIsStable` | emulator/src/usbip-server.ts:227-296 | what comes after a complete message does not change how it is read |
| `UsbipFraming.WaitsForOneMessageAtMost` | emulator/src/usbip-server.ts:276-284 | what waits is always shorter than one largest command |
| `UsbipFraming.UrbCommandLength` | emulator/src/usbip-protocol.ts:136-162 | a command's length lies between the header and the header with the capped buffer |
| `UsbipFraming.DecodeUrbCommand` | emulator/src/usbip-protocol.ts:170-197 | a decoded submission carries exactly the bytes its header announces |
| `UsbipFraming.UsbipConnection.Data` | emulator/src/usbip-server.ts:179-209 | the handler leaves the connection as the specification of one `data` event says |
| `UsbipFraming.UsbipConnection.HandleNext` | emulator/src/usbip-server.ts:227-274 | the message at the front is found without removing a byte |
| `UsbipFraming.UsbipConnection.HandleUrb` | emulator/src/usbip-server.ts:276-296 | the command at the front is found without removing a byte |
| `UsbipSession.SessionIsReadBack` | emulator/test/usbip-test-client.ts:93-159 | a client that imports the device and sends any commands has exactly those handled, in order, however its bytes are cut |
| `UsbipSession.DecodesWhatWasEncoded` | emulator/test/usbip-test-client.ts:112-159 | decoding an encoded command gives it back, from exactly its own bytes |
| `CdcAcmDevice.BytesAreConserved` | emulator/src/cdc-acm-device.ts:281-341 | over one attachment, bytes received by the host followed by bytes queued are the echoed and injected bytes in order, and no read waits while bytes are queued |
| `CdcAcmDevice.CompletesAtMostOnce` | emulator/src/cdc-acm-device.ts:169-187 | a transfer submitted once completes at most once and is not pending once it has |
| `CdcAcmDevice.NeverCompletesAfterUnlink` | emulator/src/cdc-acm-device.ts:194-205 | after a successful unlink a transfer never completes |
| `CdcAcmDevice.WritesKeepTheirOrder` | emulator/src/cdc-acm-device.ts:249-261 | through any hanging and resuming, writes are accepted in the order submitted |
| `CdcAcmDevice.MissingWasUnlinked` | emulator/src/cdc-acm-device.ts:249-261 | a write submitted has been accepted or is held, or was unlinked since |
| `CdcAcmDevice.UnlinkTakesOut` | emulator/src/cdc-acm-device.ts:194-205 | an unlink removes exactly the transfers of that number, and its answer tells whether there was one |
| `CdcAcmDevice.ApplyConserves` | emulator/src/cdc-acm-device.ts:169-341 | every operation keeps those accounts |
| `CdcAcmDevice.CdcAcmDevice.TakeToHost` | emulator/src/cdc-acm-device.ts:324-341 | the first bytes are taken out of their pieces |
| `CdcAcmDevice.CdcAcmDevice.DeliverToHost` | emulator/src/cdc-acm-device.ts:309-322 | reads are completed for as long as bytes are queued |
| `CdcAcmDevice.CdcAcmDevice.SubmitTransfer` | emulator/src/cdc-acm-device.ts:169-187 | the state after a submission |
| `CdcAcmDevice.CdcAcmDevice.UnlinkTransfer` | emulator/src/cdc-acm-device.ts:194-205 | the state after an unlink, and whether a transfer was pending |
| `CdcAcmDevice.CdcAcmDevice.ResumeWrites` | emulator/src/cdc-acm-device.ts:254-261 | the held writes are accepted in order |
| `CdcAcmDevice.CdcAcmDevice.SendToHost` | emulator/src/cdc-acm-device.ts:214-219 | bytes are injected exactly while a host is attached |
| `CdcAcmDevice.CdcAcmDevice.SetMaxChunkBytes` | emulator/src/cdc-acm-device.ts:235-243 | a cap of no bytes is refused; any other takes effect at once |
| `CdcAcmDevice.CdcAcmDevice.Attach` | emulator/src/cdc-acm-device.ts:143-162 | a new attachment starts with nothing pending |
| `LineCoding.EncodedIsDecoded` | emulator/src/cdc-acm-device.ts:435-456 | settings read back are the settings sent |
| `LineCoding.DecodedIsEncoded` | emulator/src/cdc-acm-device.ts:435-456 | exactly the meaningful settings are accepted, and answered with the bytes that were sent |
| `ReceiveBuffer.DeliversWhatWasRead` | src/owner/receive-buffer.ts:34-84 | deliveries followed by collected bytes are the bytes read; both timers are armed exactly while bytes wait, for the right moments; every delivery is non-empty and exceeds 64 KiB by less than its last chunk |
| `ReceiveBuffer.EventKeeps` | src/owner/receive-buffer.ts:34-74 | every chunk, timer and end of a connection keeps that |
| `ReceiveBuffer.ReceiveBuffer.Add` | src/owner/receive-buffer.ts:34-54 | the fields after a chunk |
| `ReceiveBuffer.ReceiveBuffer.DeliverAll` | src/owner/receive-buffer.ts:57-74 | the fields after a flush |
| `ReceiveBuffer.ReceiveBuffer.Joined` | src/owner/receive-buffer.ts:76-84 | the copy loop joins the chunks in order |
| `RateLimiter.WindowIsBounded` | src/core/rate-limit.ts:39-71 | in every window of every run at most `burst` and what comes back in it succeed |
| `RateLimiter.DelayIsExact` | src/core/rate-limit.ts:55-61 | a take succeeds once the delay has passed and fails a millisecond earlier |
| `RateLimiter.DelayIsNoneOrSome` | src/core/rate-limit.ts:55-61 | no delay is asked for exactly if a take succeeds now |
| `RateLimiter.RefillsCompose` | src/core/rate-limit.ts:63-71 | looking at the bucket in between changes nothing |
| `RateLimiter.RateLimiter.TakeOne` | src/core/rate-limit.ts:45-52 | a take succeeds exactly if no delay would have been asked for, and never spends more than was there and came back |
| `RateLimiter.RateLimiter.DelayUntilAllowed` | src/core/rate-limit.ts:55-61 | the delay, after which a take succeeds |
| `Names.ValidateName` | src/core/validation.ts:120-149 | a name is accepted exactly if it is non-empty, short enough, free of control characters and well-formed UTF-16, and refused for the first it is not |
| `Names.FindUnpairedSurrogate` | src/core/validation.ts:151-165 | the loop finds an unpaired surrogate exactly if the text is not the UTF-16 of some scalar values |
| `Names.OwnerLocksAreApart` | src/protocol/version.ts:35-37 | accepted names have the same lock name in UTF-8 exactly if they are equal |
| `Names.UncheckedOwnerLocksCollide` | src/core/validation.ts:140-146 | every text with an unpaired surrogate shares its lock name with another text |
| `Names.TermLocksAreApart` | src/protocol/version.ts:64-71 | a term's lock name determines limit, term, sender and configuration |
| `Unicode.WellFormedIsPaired` | src/core/validation.ts:151-165 | well-formed is the same as every surrogate paired |
| `Unicode.EncodingIsInjective` | src/core/validation.ts:140-146 | UTF-8 keeps well-formed texts apart |
| `PayloadText.PrintedIsParsed` | emulator/src/payload-text.ts:33-91 | typing what was printed sends the same bytes |
| `PayloadText.DescribeBytes` | emulator/src/payload-text.ts:77-91 | what is printed parses to the payload, or to its first `maxBytes` bytes, and is printable ASCII |
| `PayloadText.ParseEscapedText` | emulator/src/payload-text.ts:33-65 | the loop computes the grammar of escapes, and names a malformed one |

## Left out

- DeliverySafety.AtMostOnce: holds of runs in which a yes is taken only for the question it answers; finding 1 says why this has to be assumed.
- DeliverySafety.RejectedAsUnwrittenIsNeverBegun: rests on the same hypothesis.
- DeliverySafety.UnstartedWasNotBegun: rests on the same hypothesis.
- DeliverySafety.RunKeepsInv: rests on the same hypothesis; a tab's own writes travel as messages to itself, which allows more runs than the program has.
- DeliverySafety.StepKeepsInv: a delivered yes has to answer the question being asked; LateYes.LateYesKeepsInv says what becomes of the invariant otherwise.
- DeliverySafety.ApprovalKeepsInv: the same.
- DeliveryOutcomes.ResolvedWasBegun: says begun; that a resolved write is in the stream as a whole is `DeviceStream.OutcomeIsHonest`, within one term.
- LateYes.LateYesBreaksThePromise: the states in which a late yes breaks the invariant and no promise at once are left open: the issuer has let another term begin the write, or the request stands again behind the yes.
- OrderSafety.OrderIsKept: also rests on yes being taken only for its own question, without which a write can be begun with nobody having let it.
- OrderBroken.OneStepOutOfTurnIsEnough: the condition is on the steps of a run; a run out of turn can still end in order, when the write concerned is never begun.
- HandOverOrder.CarefulRunsKeepOrder: the hypotheses are sufficient; a run that breaks one of them, as by losing a request that is sent again before any later one, can still be in turn.
- PortSafety.OnePortAtATime: holds of runs in which no attempt is overtaken in the two places of finding 2; a device whose closing outlived a deadline counts as given up, since the program cannot know whether it is open.
- PortSafety.NothingIsOpenAfterStop: rests on the same hypothesis, and `stop()` resolves without waiting for answers to be sent (`#answered`).
- PortSafety.ReconnectionIsBounded: rests on the same hypothesis; the delays of the timer are in `ReconnectDelays`, without it.
- ConnectionAutomaton.StepKeepsInv: assumes a current attempt where a port is opened or its streams are taken; OpeningNeedsTheCurrentAttempt and TakingNeedsTheCurrentAttempt say that neither can be done without.
- Backoff.DelayIsBounded: about one call; that the first retry of a run is the one made at once is `ReconnectDelays.FirstRetryIsImmediate`.
- ReconnectDelays.DelaysGrow: compares two retries with the same draw of the random source.
- WriteQueue.WriteQueue.Drain: names the jobs waited for; that the wait ends with the last of them is what `Promise.all` says.
- Handover.CleanHandoverLosesNoAnswer: assumes channels that lose nothing and a browser that answers `query`, for this tab; without either the program falls back to reporting the write as lost.
- TabSlots.AdmittedInTurn: a tab whose request at the gate was refused by the browser queues again at the end, as in the program.
- TabSlots.StepKeepsInv: the browser may grant a place to any of its waiting requests; the queue each place has in a browser is not modelled, since one tab at a time asks.
- TabSlots.StoppedLetsGo: states that each remaining lock can be let go; StoppedEndsWithNothing adds that so many steps suffice, not that the browser takes them.
- RateLimiter.WindowIsBounded: over real numbers and a clock that does not run backwards; rounding of floating-point numbers is not modelled.
- RateLimiter.DelayIsExact: for a burst of at least one; a smaller bucket never allows anything.
- Backoff.DelayGrows: over real numbers; the overflow of the power that the program caps is only capped here.
- UsbipFraming.ChunkingDoesNotMatter: while the device is neither unplugged nor imported by another connection, which decide an import.
- CdcAcmDevice.BytesAreConserved: what standard and class requests answer is left open, but for line coding.
- StructureBudget.WalkIsExact: reading a property has no effects of its own, as for a structured clone.
- PayloadText.DescribeBytes: the suffix naming the full length of a cut payload is a number here, not text.
- Messages forged in another tab's name: the delivery protocol is proved for tabs that run this program; `OwnerTerms` takes arbitrary messages.
- Listeners of the application that call back while an event is reported, and callbacks that misbehave.
- `scheduleDeadline` and other timer arithmetic: a deadline is a step that may come at any time.
- `OwnershipElection`: its ownership lock is a queue and a holder like the gate of `TabSlots`; the term lock inside it is what `Handover` models.
- Transports, broker and worker, storage, the device picker and auto mode, diagnostics, logging and error texts: input and output, or no invariant of their own.
- Text decoding, the streams of Web Serial and the buffers of the operating system: a device accepts, rejects or stalls a chunk.
- USB descriptors, standard control requests, replies on the wire, terminal commands and sockets of the emulator: constants and input and output.
- The checks of single options in `src/core/validation.ts`: each is one comparison.
