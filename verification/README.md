# The Bluetooth-AMP adaptation layer

The adaptation layer (BAP) lets a Bluetooth host use a WLAN association as an alternate
MAC/PHY. This project models it as one mutable context (`BapContext.BapContext`) and what
surrounds it (`Vos.Platform`: packet pool, transport layer TL, SME queue, event callbacks),
and proves properties of its four interacting parts and of its time-out registers.

Each C file is a module of methods that update the context step by step
(`BapApiTimer`, `BapApiLinkSupervision`, `BapApiLinkCntl`, `BapApiData`, `BapApiHCBB`, and the
host's callback in `BapHddMain`). Each method is tied by its `ensures` to a machine over values,
and the theorems are about all runs of that machine:

- `Heartbeat`, `HeartbeatHistory`, `PacketPool`, `TwoStations`: link supervision. Request, reply, retry counter and
  data flag; the two packets kept out of a shared pool; two stations joined by a channel of whole frames.
- `TxMonitor`, `ReportPass`, `TxLedger`: transmit accounting. A monitor pass reads a counter
  and takes the value off in two separate steps, so that completions and link commands come
  between, and two passes can overlap; a whole pass under any arrivals; the books of a slot, and
  of a link, from translation to report.
- `LinkTables`, `LinkLifecycle`: the 16 logical-link slots; synchronous and deferred create and
  accept, cancel, disconnect.
- `FrameFormat`, `Translation`: HCI ACL packets to 802.3/LLC frames and back (Bluetooth Core
  Specification, Volume 2, Part E, section 5.4.2), for hosts of either byte order.
- `TimeoutRegisters`: the three time-out registers over whole histories of commands.

Callees the layer does not control are parameters: whether TL accepts a frame, whether the pool
grants a packet, whether a message can be posted, what the flow-spec parser says, and at which
points of a monitor pass completions arrive.

## Where the code does not do what its comments or names suggest

The model follows the code. Each of these is a lemma, with the exact condition where there is one.

- The event of a monitor pass is sent if the *last* occupied slot read nonzero, although the
  comment speaks of the number of completed packets. With a lower link that has completions and a
  higher one that has none, the completions are taken off and never reported
  (`LowerLinkForgotten`; `PassLosesNothingExactly` says when nothing is lost).
- `total_log_link_index` is raised before the flow spec is parsed and whether or not the slot is
  free, so it is not the number of occupied slots in general
  (`TotalIsCountExactlyWithoutDrift`, `SeventeenCreations`).
- The supervision timer is refused below 10 ms, and the status says success all the same: an
  interval of 1 to 9 does not arm it; nor does an expiry whose request TL rejects
  (`ArmedExactlyWhenRestartsAccepted`).
- A reply of the peer that arrives after teardown starts the supervision timer again
  (`LateFrameRearms`; `TornDownIsSilent` says until when it is off).
- One cancel flag serves all requests: a second create consumes the cancel of the first
  (`SecondCreateDefeatsCancel`; `EstablishmentOutcome` says exactly when a cancel stands).
- TL forgets a supervision packet when it fetches it, before completing it, so that a second
  expiry submits the same packet again (`ResubmissionReturnsTwice`; `PoolConserved` says when all
  is well).
- The host's completion callback runs the monitor handler itself, so two passes can overlap
  (`BapHddMain.TxCompCB`, `OverlappingPasses`); and a disconnect can fall between a read and its
  subtraction (`DisconnectDuringPassUnderflows`; `NoUnderflow` says exactly what underflows).
- Serial allocation hands out slot 0 after slot 15, and slot 0 can carry no packet
  (`CreatedLinkUsableExactly`).
- A packet carries its slot's number and nothing of its link: one that completes after the slot
  was used again is counted and reported for the new link (`StrayReportedForNewLink`;
  `OwnBooksCloseExactly` says exactly when a link's books close).
- A deferred request is established whatever became of the physical link, and a new physical link
  zeroes the link counters over whatever slots are occupied (`LateEstablishmentOutlivesLink`;
  `LinksConnectedExactly` says when no slot outlives the connection).
- The bound check of disconnect lets index 16 through, which names the memory behind the slots
  (`BoundCheckIsOffByOne`).

## Model

| member | source | states |
|---|---|---|
| TxMonitor.HeldStaysCovered | CORE/BAP/src/bapApiTimer.c:839-861 | With two passes under way, a step keeps every counter at least as large as the sum of the snapshots read from it and not yet subtracted, if and only if it neither zeroes nor wraps a slot a nonzero snapshot is held on, nor reads a nonzero counter while the other pass holds a nonzero snapshot of the slot |
| TxMonitor.NoUnderflow | CORE/BAP/src/bapApiTimer.c:839-861 | Over every interleaving of completions, link commands and two independent passes: no counter ever falls below the sum of the snapshots held on it if and only if no step is of that kind |
| TxMonitor.CoveredSubtraction | CORE/BAP/src/bapApiTimer.c:852-853 | Where the snapshots are covered, decrement-by-value takes off exactly the value read, without underflow |
| TxMonitor.SurvivingCompletions | CORE/BAP/src/bapApiTimer.c:844-852 | Over every run between a pass's read and its subtraction in which nothing else takes the slot's counter down (the other pass may move on), the counter afterwards is exactly the number of completions that arrived in between |
| TxMonitor.WaitingCounter | CORE/BAP/src/bapApiData.c:1007-1024 | While a pass stands still and nobody takes the slot's counter down, it grows by the completions credited to it, modulo 2^32, whatever happens to other slots and to the other pass |
| TxMonitor.DisconnectDuringPassUnderflows | CORE/BAP/src/bapApiLinkCntl.c:1617-1622 | A disconnect between read and subtraction leaves the two's complement of the snapshot in the slot |
| TxMonitor.OverlappingPasses | CORE/HDD/src/bap_hdd_main.c:703-711 | Two passes that hold one slot leave, in either order, its counter less both snapshots, without underflow if and only if it covered their sum |
| TxMonitor.CreditOnly | CORE/BAP/src/bapApiData.c:1007-1024 | For any user data, a completion raises the counter of the slot its low four bits name by one, modulo 2^32, unless that is slot 0, and changes nothing else |
| ReportPass.ReportPassExact | CORE/BAP/src/bapApiTimer.c:839-878 | With completions arriving at every point of the pass: one line per occupied slot, at most 16, in index order, with its handle and its count at the time of the read; all lines or none are sent, and they are sent if and only if the highest occupied slot read nonzero; every slot keeps exactly the completions that were not read; the other pass is left alone |
| ReportPass.LinesAreTheOccupiedSlots | CORE/BAP/src/bapApiTimer.c:839-861 | The line of an occupied slot stands at the position given by the number of occupied slots below it, and there are no other lines |
| ReportPass.FinalCounters | CORE/BAP/src/bapApiTimer.c:852-853 | After a pass an occupied slot's counter is the number of completions after its read; an empty slot keeps all of its |
| ReportPass.FinishedIsRun | CORE/BAP/src/bapApiTimer.c:839-878 | A whole pass with arrivals is a run of the monitor machine, so the theorems over all runs apply to it |
| ReportPass.SlotTurn | CORE/BAP/src/bapApiTimer.c:839-861 | One iteration of the loop is one read step and one subtraction step of the machine, and it reads the snapshot of the reference |
| ReportPass.LowerLinkForgotten | CORE/BAP/src/bapApiTimer.c:863-865 | Two links, the higher without completions: no event, and the lower link's completions are gone |
| TxLedger.LedgerBalances | CORE/BAP/src/bapApiTimer.c:839-878 | Over every run whatsoever, overlapping passes included: packets accepted by Tx translation for a slot equal in-flight + counter + pending + reported + forfeited + an error term that changes only on a wrap, an underflow, a suppressed event or a count cut to 16 bits |
| TxLedger.OwnBooksCloseExactly | CORE/BAP/src/bapApiData.c:1007-1024 | The per-link law: over every run after a link is opened in a slot, the books of the packets accepted since close if and only if no packet of the slot's earlier links has completed since and no pass held an unreported line of the slot at the opening; otherwise they are off by exactly those packets |
| TxLedger.OwnBooksCloseAfterCleanOpening | CORE/BAP/src/bapApiData.c:1007-1024 | If no packet of earlier links is in flight and no line pending at the opening, the link's books close over every run |
| TxLedger.StrayReportedForNewLink | CORE/BAP/src/bapApiData.c:447-451 | An input on which they do not: the earlier link's packet completes after the slot was opened again, and the next event reports it under the new link's handle, though that link has transmitted nothing |
| TxLedger.LinkBooksKept | CORE/BAP/src/bapApiData.c:1007-1024 | Over every run the slot's packets in flight are the link's own and the strays, and each stray completes at most once |
| TxLedger.OpeningZeroesCounter | CORE/BAP/src/bapModule.c:1117-1133 | Opening a link in a slot gives it its handle, zeroes its counter, leaves the slot's in-flight packets as they are and keeps the books balanced |
| TxLedger.PassLosesNothingExactly | CORE/BAP/src/bapApiTimer.c:863-878 | Said of the slots before the pass and the completions to come: what the event tells of each slot is what was taken off it, if and only if the highest occupied slot reads nonzero and every occupied slot reads below 2^16, or every occupied slot reads zero |
| TxLedger.FinishedPassLoses | CORE/BAP/src/bapApiTimer.c:839-878 | What a whole pass loses in the ledger at its last step is what it took off a slot and did not tell |
| TxLedger.GuardIsTop | CORE/BAP/src/bapApiTimer.c:865 | The event goes out if and only if the highest occupied slot reads nonzero |
| TxLedger.LastStepLosesNothing | CORE/BAP/src/bapApiTimer.c:863-878 | The last step of a pass loses nothing for any slot if and only if its event goes out with all counts below 2^16, or stays away and all counts are zero |
| TxLedger.EndToEnd | CORE/BAP/src/bapApiTimer.c:921-963 | Over every run in which no pass comes to two lines, no step uncovers a held snapshot and counters stay below 2^16 (losing the physical link, creates, disconnects and overlapping passes are allowed otherwise): accepted equals in-flight + counter + reported + forfeited (+ what passes under way hold), and nothing is lost |
| TxLedger.EndToEndSimple | CORE/BAP/src/bapApiTimer.c:921-963 | The end-to-end law over every run under a simple discipline: one pass at a time, at most one link present where it starts, no create or disconnect during it, counters below 2^16; the physical link may go down and come up at any time |
| TxLedger.SimpleIsOrderly | CORE/BAP/src/bapApiTimer.c:921-963 | Each step of that discipline meets the conditions of the general law and keeps one pass at a time |
| TxLedger.MoveBalances | CORE/BAP/src/bapApiLinkCntl.c:1617-1622 | What any one step takes from a slot's counter it reports, holds, forfeits or loses, to the packet |
| TxLedger.OrderlyKeepsOneLine | CORE/BAP/src/bapApiTimer.c:839-861 | Under those conditions every pass comes to at most one line, and what it holds is covered by the counter |
| TxLedger.FreshBooks | CORE/BAP/src/bapModule.c:700-743 | A fresh context satisfies the hypotheses of the ledger |
| BapApiTimer.SendCompletedPktsEvent | CORE/BAP/src/bapApiTimer.c:820-880 | The loop over the slots, with completions between its steps, leaves the table of the exact pass and tells the host of each occupied slot its handle and its count |
| BapApiTimer.SendCompletedDataBlksEvent | CORE/BAP/src/bapApiTimer.c:902-965 | The same handles and counts, with one block a packet and a total of 16 blocks |
| BapApiTimer.ReportTells | CORE/BAP/src/bapApiTimer.c:845-878 | The event itself: if the highest occupied slot read nonzero there is one, in the mode's form, with the slot's handle and its count in sixteen bits at the place of each occupied slot, in block mode as many blocks and a total of 16; otherwise none |
| BapApiTimer.CollectCompleted | CORE/BAP/src/bapApiTimer.c:839-861 | The loop fills the event's columns with exactly the reference lines and leaves the counters of the pass; its last count decides as the guard does |
| BapApiTimer.LookAtSlot | CORE/BAP/src/bapApiTimer.c:841-853 | One slot: read, then decrement by the value read, each after the completions of its point; the slot is not looked at again in between |
| BapApiTimer.TxPacketMonitorHandler | CORE/BAP/src/bapApiTimer.c:988-1033 | The mode chooses the form of the event and nothing else; the timer runs again if the physical link is connected |
| BapApiTimer.LinkSupervisionTimerHandler | CORE/BAP/src/bapApiTimer.c:618-694 | The handler is the expiry step of the heartbeat; disconnection is one event to the link state machine |
| BapApiData.TxCompCB | CORE/BAP/src/bapApiData.c:944-1041 | The completion credits the slot named by the packet's four-bit handle, occupied or not, and none for handle 0; then the packet goes to the host's callback, whose status is returned |
| BapApiData.CountCompletion | CORE/BAP/src/bapApiData.c:1007-1024 | The counting half of it, for any user data |
| BapHddMain.TxCompCB | CORE/HDD/src/bap_hdd_main.c:655-714 | The host's callback returns the packet, and every fourth completion runs a whole monitor pass of its own |
| BapApiData.CreatedLinkUsableExactly | CORE/BAP/src/bapInternal.h:281 | A link just created can be looked up, transmitted on under its own number and credited if and only if the serial index was not 15, after which slot 0 is handed out |
| Heartbeat.HeartbeatInvariant | CORE/BAP/src/bapApiTimer.c:652-663 | Over all runs, TL rejections and failed allocations included: retries never exceed the limit, and a request is pending exactly when retries > 0 |
| Heartbeat.RetriesCountRequests | CORE/BAP/src/bapApiLinkSupervision.c:608-612 | Over all runs the retry counter is the number of requests TL accepted since the last reset (Init, a reply, an expiry that saw data) |
| Heartbeat.RaisesExactlyWhenUnanswered | CORE/BAP/src/bapApiTimer.c:647-678 | After every run, a step raises a disconnection if and only if it is an expiry with the data flag clear after the full number of accepted requests since the last reset |
| Heartbeat.StepCounts | CORE/BAP/src/bapApiTimer.c:647-692 | Each entry point moves the retry counter as the history count does and keeps the invariant |
| Heartbeat.DetectedAfterExactly | CORE/BAP/src/bapApiTimer.c:647-692 | A silent peer is detected at exactly expiry R - retries + 1 (R + 2 with the data flag set), in every interleaving with TL completions; the measure drops by one at each expiry before |
| Heartbeat.SilentStep | CORE/BAP/src/bapApiTimer.c:647-692 | One silent expiry lowers the measure by one or, at one, raises |
| Heartbeat.ArmedExactlyWhenRestartsAccepted | CORE/BAP/src/bapApiLinkSupervision.c:601-620 | Timer invariant over every run between Init and DeInit, TL rejections and changing intervals included: the timer is armed at every step until disconnection is raised if and only if the timer accepts the interval (10 or more) at Init and every restart takes effect, which an expiry's restart does only after TL took the request it asks for |
| Heartbeat.ArmedWhileIntervalsAccepted | CORE/BAP/src/bapApiTimer.c:655-657 | In particular, the timer stays armed while TL takes the requests and the host writes only intervals of 10 or more |
| Heartbeat.ArmedExactlyWhenIntervalAccepted | CORE/BAP/src/bapApiLinkSupervision.c:275-279 | At a constant interval, with TL taking the requests, the timer is armed at a step before disconnection if and only if the interval is accepted |
| Heartbeat.RejectionDisarms | CORE/BAP/src/bapApiLinkSupervision.c:601-606 | A request rejected by TL leaves the timer stopped and counts no retry |
| HeartbeatHistory.DataFlagIsDataMarked | CORE/BAP/src/bapApiData.c:879-900 | Over every run the data flag is up if and only if, since the last expiry, a packet TL took was marked or a data frame arrived in a live packet at a nonzero interval; and the interval is what the host wrote last |
| HeartbeatHistory.DataKeepsLinkAlive | CORE/BAP/src/bapApiData.c:887 | A received data frame survives every run up to the next expiry, which then starts the count anew, sends no request and raises nothing |
| HeartbeatHistory.TimerIsTimerRuns | CORE/BAP/src/bapApiTimer.c:520-595 | Over every run, teardowns and repeated Inits included, the timer runs if and only if the run's events say so: what started it last, at which interval, and whether TL took the request |
| HeartbeatHistory.TornDownIsSilent | CORE/BAP/src/bapApiLinkSupervision.c:330 | From a teardown on, over every run until the next Init or received supervision frame, the timer is off, an expiry changes nothing and no disconnection is raised |
| HeartbeatHistory.LateFrameRearms | CORE/BAP/src/bapApiLinkSupervision.c:425-436 | After a teardown a late reply of the peer starts the timer again |
| HeartbeatHistory.SmallestInterval | CORE/BAP/src/bapApiLinkSupervision.c:275-279 | Init starts the timer exactly from an interval of 10 on |
| HeartbeatHistory.Submissions | CORE/BAP/src/bapApiLinkSupervision.c:590-606 | What each step hands to TL: the request packet with a request, the reply packet with an answer, and nothing else; only a completion takes a packet out |
| HeartbeatHistory.ReceivedPacketFate | CORE/BAP/src/bapApiData.c:879-914 | A received packet is returned to the pool, once, exactly when it holds a frame of the peer, or data while supervision is off |
| PacketPool.KeptExactlyWhenTame | CORE/BAP/src/bapApiLinkSupervision.c:489-522 | In a pool shared with received and data packets, a step keeps the pool invariant (exactly two distinct live packets of link supervision when up, none when down, each of its packets returned at most once) if and only if it keeps the discipline: paired allocations succeed, no packet is submitted twice, none is in TL at teardown, and nobody hands in or returns one of its own packets |
| PacketPool.PoolConserved | CORE/BAP/src/bapApiLinkSupervision.c:235-262 | Over all runs, with other users of the pool: the invariant holds at every step boundary if and only if every step keeps the discipline |
| PacketPool.CompletionReplaces | CORE/BAP/src/bapApiLinkSupervision.c:489-522 | A completion replaces the packet and returns it; the pair stays whole if and only if the new packet is granted |
| PacketPool.CompletionExactly | CORE/BAP/src/bapApiLinkSupervision.c:489-522 | A completion packet by packet: which of the pair is replaced, by which packet, and what is returned, for each outcome of the pool |
| PacketPool.DeInitReturnsBoth | CORE/BAP/src/bapApiLinkSupervision.c:330-344 | Teardown returns both packets; nothing is left if and only if none was in TL |
| PacketPool.InitTakesTwo | CORE/BAP/src/bapApiLinkSupervision.c:235-262 | Init brings up the pair from nothing; a half-granted or repeated Init breaks the invariant |
| PacketPool.ResubmissionReturnsTwice | CORE/BAP/src/bapApiTimer.c:680-691 | Two expiries while TL holds the request return it twice and lose the reply packet |
| TwoStations.NoFalseDisconnection | CORE/BAP/src/bapApiTimer.c:647-692 | Two mirrored stations, TL accepting. If every exchange is finished before its sender's third expiry, no run raises a disconnection at either station, in any mix of data, strangers' frames, TL completions, other users of the packet pool, interval changes and expiries; retries never exceed the expiries of the unfinished exchange |
| TwoStations.PromptDelivery | CORE/BAP/src/bapApiTimer.c:647-692 | If every expiry of a station finds neither its request nor the peer's reply on the way, nothing is raised, every expiry finds no request outstanding and no retry counted, and no station ever counts more than one |
| TwoStations.PromptIsWithinLag | CORE/BAP/src/bapApiTimer.c:647-692 | Prompt delivery is the case of bounded lag in which the lag is zero at every expiry |
| TwoStations.NearStepKeepsInv | CORE/BAP/src/bapApiLinkSupervision.c:404-449 | Each step that does not raise keeps the invariant that an outstanding request, or the reply to it, is on the way, and only an expiry adds a retry |
| TwoStations.OwnFramesRecognised | CORE/BAP/src/bapApiLinkSupervision.c:404-412 | The bytes of a station's request and reply pass its peer's MAC check and are processed under their own types |
| TwoStations.FreshStationsSatisfyNetInv | CORE/BAP/src/bapApiLinkSupervision.c:205-287 | Two stations just after Init satisfy the invariant |
| TwoStations.LostRequestsRaise | CORE/BAP/src/bapApiTimer.c:659-678 | Without delivery, three expiries raise |
| BapApiLinkSupervision.AcquireLSPacket | CORE/BAP/src/bapApiLinkSupervision.c:104-176 | A granted packet holds exactly the frame to the peer with the given type; a packet without headroom is returned |
| BapApiLinkSupervision.InitLinkSupervision | CORE/BAP/src/bapApiLinkSupervision.c:205-287 | The Init step: both packets, flags, timer, with every failure path; on success a request and a reply to the peer stand ready |
| BapApiLinkSupervision.DeInitLinkSupervision | CORE/BAP/src/bapApiLinkSupervision.c:312-348 | The DeInit step: the timer is stopped and neither packet is kept |
| BapApiLinkSupervision.TxLinkSupervision | CORE/BAP/src/bapApiLinkSupervision.c:553-630 | Submission: rejected frames change nothing, accepted requests count a retry, and the timer is restarted |
| BapApiLinkSupervision.RxProcLsPkt | CORE/BAP/src/bapApiLinkSupervision.c:376-453 | Reception, as the one reception step: only frames from the peer to us count; a reply resets, a request is answered; the status for every case |
| BapApiLinkSupervision.TxLinkSupervisionCB | CORE/BAP/src/bapApiLinkSupervision.c:456-525 | Completion: replaced, then returned; not returned when no replacement can be had; a request and a reply keep standing ready |
| SupervisionTimer.StartLinkSupervisionTimer | CORE/BAP/src/bapApiTimer.c:520-543 | Success is reported whether or not the timer took the interval |
| LinkLifecycle.EstablishmentOutcome | CORE/BAP/src/bapApiLinkCntl.c:1886-1913 | After every run of any commands the next establishment completes with no-connection, and leaves the table alone, if and only if a cancel stands: of the successful cancels, the creates and accepts past their gates and the establishments, the last was a cancel; otherwise it allocates once and completes with the parser's verdict |
| LinkLifecycle.CancelFlagIsCancelStands | CORE/BAP/src/bapApiLinkCntl.c:1708-1744 | Over every run of any commands the cancel flag is up if and only if a cancel stands |
| LinkLifecycle.DeferredOutcome | CORE/BAP/src/bapApiLinkCntl.c:1886-1913 | A deferred request has exactly one outcome over every run up to its establishment in which no other create or accept gets past its gates (refused ones, disconnects and anything else may happen): if some cancel succeeded, the table is untouched and it completes with no-connection; otherwise it allocates once, with its own arguments, and completes with the parser's verdict |
| LinkLifecycle.OneCommandAtATime | CORE/BAP/src/bapApiLinkCntl.c:1708-1744 | Over all runs with one outstanding command: in progress if and only if exactly one establishment is posted, and the cancel flag implies in progress |
| LinkLifecycle.ControlIsTold | CORE/BAP/src/bapApiLinkCntl.c:1212-1298 | Over every run of any commands the link state is what the last deciding event made of it (a request past its gates, an establishment, a disconnect of an occupied handle); the armed deferred path, the posted messages and the kept request are told from the run as well |
| LinkLifecycle.RequestNamesOpenedSlot | CORE/BAP/src/bapApiLinkCntl.c:1284-1298 | A create or accept succeeds exactly past its gates, uncancelled, not deferred and with an accepted flow spec; its completion then carries the handle of the one slot changed, which is occupied under it, with the parser's flow spec id and the request's physical handle, and disconnecting that handle releases the slot |
| LinkLifecycle.EstablishNamesOpenedSlot | CORE/BAP/src/bapApiLinkCntl.c:1894-1926 | The same of the establishment of a posted request, with the request's own arguments |
| LinkLifecycle.RequestAnswers | CORE/BAP/src/bapApiLinkCntl.c:1170-1281 | Every answer of a create or accept, in status codes and return value; what a refusal hands back and that it leaves the table alone |
| LinkLifecycle.EstablishAnswers | CORE/BAP/src/bapApiLinkCntl.c:1886-1926 | Every answer of an establishment, in status codes, handle and flow spec id |
| LinkLifecycle.CancelAnswers | CORE/BAP/src/bapApiLinkCntl.c:1700-1744 | Every answer of a cancel, in status codes, and that it changes the flag only |
| LinkLifecycle.DisconnectCloses | CORE/BAP/src/bapApiLinkCntl.c:1590-1623 | A disconnect of an occupied handle frees the slot and closes the link state, so that a cancel after it finds no connection; of any other handle it changes nothing |
| LinkLifecycle.AlwaysAwaited | CORE/BAP/src/bapApiLinkCntl.c:1212-1276 | Over all runs, with any commands: an establishment in progress or a pending cancel has a posted message that will end it |
| LinkLifecycle.SecondCreateDefeatsCancel | CORE/BAP/src/bapApiLinkCntl.c:1214-1222 | An input on which a cancel does not stand: a second create consumes the pending cancel, and the cancelled request opens a link |
| LinkLifecycle.DeferredEqualsSynchronous | CORE/BAP/src/bapApiLinkCntl.c:1227-1298 | Without a cancel, a deferred request and its establishment end with the table, link state and Logical Link Complete fields of the synchronous request |
| LinkLifecycle.SlotTableInvariant | CORE/BAP/src/bapModule.c:1064-1138 | Over all runs of logical-link commands, physical-link creates, losses and moves, any handle included: every occupied slot's handle leads back to it, and the total is the number of occupied slots plus the counted drift, modulo 256 |
| LinkLifecycle.TotalIsCountExactlyWithoutDrift | CORE/BAP/src/bapModule.c:934-935 | Over all those runs the total equals the number of occupied slots if and only if the drift is a multiple of 256: rejected specs and slots used twice, less disconnects behind the array, since the physical link last went down; a new physical link starts it again at minus the slots still occupied |
| LinkLifecycle.LateEstablishmentOutlivesLink | CORE/BAP/src/btampFsm.c:2682-2707 | A run with negative drift: the physical link goes down while a deferred request waits, its establishment opens slot 1 all the same, and the next physical link sets the total to 0 over one occupied slot, whose turn is next |
| LinkLifecycle.LinksConnectedExactly | CORE/BAP/src/bapApiLinkCntl.c:1894-1913 | Over all those runs slots are occupied only while the physical link is connected, at every step, if and only if the link state machine never leaves the connected state over an occupied slot and no request is established outside it |
| LinkLifecycle.LinksConnectedStep | CORE/BAP/src/bapApiLinkCntl.c:1886-1913 | The exact condition for one step |
| LinkLifecycle.StepOnTable | CORE/BAP/src/bapApiLinkCntl.c:1287-1298 | Every step acts on the table by one allocation, one release, a release of all, a reset of its counters, or not at all |
| LinkLifecycle.BoundCheckIsOffByOne | CORE/BAP/src/bapApiLinkCntl.c:1555 | For every handle the check passes: below index 16 the memory behind the array is never touched; at 16 no slot is freed, and that memory is overwritten, the total lowered and the link state closed if and only if it reads as an occupied slot of the handle |
| LinkTables.HandlesDistinct | CORE/BAP/src/bapModule.c:1085-1090 | Handles of occupied slots are pairwise distinct |
| LinkTables.CreateThenDisconnect | CORE/BAP/src/bapApiLinkCntl.c:1590-1623 | Disconnecting the handle just created restores the total, and the occupied slots if and only if the slot had been free |
| LinkTables.ReleaseCounts | CORE/BAP/src/bapApiLinkCntl.c:1590-1623 | Disconnect frees exactly the named slot, or changes nothing |
| LinkTables.ReleasedSlot | CORE/BAP/src/bapApiLinkCntl.c:1617-1620 | A released slot is free, without handle and count; everything else in it stays |
| LinkTables.AllocationCounts | CORE/BAP/src/bapModule.c:1084-1133 | The books of one allocation: the total always moves, the number of occupied slots only without drift |
| LinkTables.AllocatedSlot | CORE/BAP/src/bapModule.c:1117-1133 | Every field of the slot an accepted flow spec opens, which slot it is, and that no other slot changes; a rejected one opens none |
| LinkTables.HandleParts | CORE/BAP/src/bapModule.c:1087 | A handle is the slot's number above the physical handle |
| LinkTables.ReleaseAllCounts | CORE/BAP/src/btampFsm.c:1416-1443 | Losing the physical link frees every slot and zeroes the total |
| LinkTables.ReleasedAll | CORE/BAP/src/btampFsm.c:1416-1440 | Each slot is freed and otherwise left as it was, and both counters are zero |
| LinkTables.ResetBalanced | CORE/BAP/src/bapModule.c:931-935 | A new physical link leaves the total behind by the number of slots still occupied |
| LinkTables.BalancedByCount | CORE/BAP/src/bapModule.c:1084-1086 | Total equals count if and only if the drift is a multiple of 256 |
| LinkTables.AllocationsComeRound | CORE/BAP/src/bapModule.c:1026-1034 | n creations move the serial index by n modulo 16 and the total by n modulo 256, and the next slot's turn comes round |
| LinkTables.SeventeenCreations | CORE/BAP/src/bapModule.c:1064-1138 | Seventeen creations on an empty table make the total 17, with at most 16 links |
| BapApiLinkCntl.LogicalLinkCreate | CORE/BAP/src/bapApiLinkCntl.c:1146-1303 | Create, on the context: state, table, queue, return value, events and completion fields of the specified request; on success the completion names the slot opened |
| BapApiLinkCntl.LogicalLinkAccept | CORE/BAP/src/bapApiLinkCntl.c:1336-1491 | Accept makes the same transitions as create; only the opcode of the command status differs |
| BapApiLinkCntl.EstablishLogicalLink | CORE/BAP/src/bapApiLinkCntl.c:1872-1935 | The posted half of a deferred request, and its Logical Link Complete event, which names the slot opened |
| BapApiLinkCntl.LogicalLinkCancel | CORE/BAP/src/bapApiLinkCntl.c:1679-1753 | Cancel changes only the flag, and only while in progress |
| BapApiLinkCntl.LogicalLinkDisconnect | CORE/BAP/src/bapApiLinkCntl.c:1524-1643 | For every handle: frees the slot if it is occupied under that very handle, and closes the link state; otherwise nothing changes; error status, return value and events; index 16 reads and writes the memory behind the array |
| BapApiLinkCntl.CreateNewLogLinkCtx | CORE/BAP/src/bapModule.c:1064-1138 | Serial allocation; the handle and both counters move even when the flow spec is rejected |
| BapApiLinkCntl.PhysicalLinkCreate | CORE/BAP/src/bapApiLinkCntl.c:844-912 | Physical-link create (and accept): refused unless disconnected; otherwise both link counters start again over the slots as they are, and the link state machine moves |
| BapApiLinkCntl.CreateNewPhyLinkCtx | CORE/BAP/src/bapModule.c:905-971 | The new physical link's handle, and both link counters at zero; no slot is freed |
| BapApiLinkCntl.SignalPhysLinkDisc | CORE/BAP/src/btampFsm.c:1394-1464 | One disconnection event for each occupied slot, in index order, then that of the physical link; all slots free, counters of links and handle zeroed, monitor timer stopped |
| BapApiLinkCntl.LostLinksTold | CORE/BAP/src/btampFsm.c:1416-1436 | One event for each occupied slot, in index order, each with success, the slot's handle on this physical link and termination by the local host |
| Translation.RoundTrip | CORE/BAP/src/bapApiData.c:602-708 | For every payload, every 16-bit length and hosts of either byte order, Rx translation of a Tx translation returns payload and length; header normalised to the receiver's handle, logical handle 0, PB 3, BC 0 |
| Translation.TxMakesFrame | CORE/BAP/src/bapApiData.c:331-453 | Tx succeeds if and only if the handle is this association's and the slot occupied, and then makes exactly the 802.3 frame, length plus 8 modulo 2^16, if and only if the packet had the headroom |
| Translation.RxMakesPacket | CORE/BAP/src/bapApiData.c:602-708 | Rx succeeds if and only if the protocol type is data, and then makes exactly the ACL packet |
| Translation.TxFrameOf | CORE/BAP/src/bapApiData.c:411-444 | The frame to the peer that any packet with the headroom becomes, told from its bytes, and exactly when it is accepted |
| Translation.TxRefuses | CORE/BAP/src/bapApiData.c:331-397 | What a refused packet has lost: nothing if too short for an ACL header, that header otherwise |
| Translation.TxWithoutRoom | CORE/BAP/src/bapApiData.c:438-444 | Which of the two headers an accepted packet goes out without for want of headroom |
| Translation.RxAnyFrame | CORE/BAP/src/bapApiData.c:602-708 | For any frame: accepted exactly when its protocol type is data; what is left of it, and its room, in every case |
| Translation.Demultiplexing | CORE/BAP/src/bapApiData.c:861-914 | At the mirrored peer a translated packet takes the data path, and a built supervision frame reaches supervision under its own type and passes the MAC check, if and only if the addresses mirror |
| Translation.TagAgreement | CORE/BAP/src/bapApiData.c:509-541 | Wherever both succeed, AC lookup and Tx translation agree; they part exactly on handle 0, which Tx corrects to link 1 |
| Translation.AcExactly | CORE/BAP/src/bapApiData.c:509-541 | The lookup answers exactly for a valid handle of an occupied slot, with its category |
| Translation.ParseAclPacket | CORE/BAP/src/bapApiData.c:188-237 | Hosts of either byte order read the same fields from the bytes of an ACL packet, the flag byte from its low bits up |
| FrameFormat.ClassifyAirFrame | CORE/BAP/src/bapApiData.c:861-914 | Every built frame is classified by its own type on any host; the MAC check passes if and only if the stations mirror each other |
| FrameFormat.ClassifyBytes | CORE/BAP/src/bapApiData.c:861-914 | The class of any frame, told from its bytes |
| FrameFormat.LsFrameBytes | CORE/BAP/src/bapApiLinkSupervision.c:116-173 | The request and the reply, byte by byte |
| FrameFormat.HeadersAreHostIndependent | CORE/BAP/src/bapApiLinkSupervision.c:116-173 | The headers any host pushes make one and the same frame on the air |
| FrameFormat.AclRoundTrip | CORE/BAP/src/bapApiData.c:188-237 | Parsing a formatted ACL header gives it back |
| Words.WireOrder | CORE/VOSS/inc/vos_types.h:58-95 | Converted words lie on the wire in the named order and are read back, on either host |
| BapApiData.XlateTxDataPkt | CORE/BAP/src/bapApiData.c:295-454 | The in-place translation of the packet buffer, with its rejections, user data and tag |
| BapApiData.XlateRxDataPkt | CORE/BAP/src/bapApiData.c:573-711 | The in-place translation of a received frame, with what a rejected one has lost |
| BapApiData.GetAcFromTxDataPkt | CORE/BAP/src/bapApiData.c:486-542 | The AC lookup on a raw packet |
| BapApiData.STARxCB | CORE/BAP/src/bapApiData.c:822-917 | The receive callback is the machine's reception step for the frame's class; data goes up exactly when supervision is on, and then the link is marked alive and the packet left to the host |
| BapApiData.STAPktPending | CORE/BAP/src/bapApiData.c:1149-1211 | Only a packet TL takes marks data |
| BapApiData.CompletionCreditsTaggedLink | CORE/BAP/src/bapApiData.c:1007-1024 | Every translated packet's completion credits the link whose AC, TID and UP it was given, and no other, also after correction of handle 0 |
| TimeoutRegisters.RegistersHoldLastWritten | CORE/BAP/src/bapApiHCBB.c:176-184 | After every history of commands each register holds the last accepted write since the last effective reset, else the default; both accept time-outs are in range |
| TimeoutRegisters.ReadReturnsLastWritten | CORE/BAP/src/bapApiHCBB.c:619-638 | After every history a successful read returns that value and changes nothing; the supervision read succeeds if and only if it names the physical link |
| TimeoutRegisters.RejectedWritesChangeNothing | CORE/BAP/src/bapApiHCBB.c:524-545 | After every history a write is accepted if and only if it is in range (or names the link); rejected writes change nothing, accepted ones only their register |
| TimeoutRegisters.ResetRestores | CORE/BAP/src/bapInternal.h:120-132 | A reset restores 8000 baseband slots for both accept time-outs and 16000 for link supervision |
| TimeoutRegisters.Answers | CORE/BAP/src/bapApiHCBB.c:619-638 | Every answer of reset, reads and writes, in status codes and time-outs |
| BapApiHCBB.Reset | CORE/BAP/src/bapApiHCBB.c:132-205 | Reset restores all four defaults and leaves an open session, unless the HAL is missing |
| BapApiHCBB.ReadConnectionAcceptTimeout | CORE/BAP/src/bapApiHCBB.c:432-466 | The read command on the context |
| BapApiHCBB.WriteConnectionAcceptTimeout | CORE/BAP/src/bapApiHCBB.c:500-555 | The range-checked write |
| BapApiHCBB.ReadLinkSupervisionTimeout | CORE/BAP/src/bapApiHCBB.c:589-649 | The read under a physical handle |
| BapApiHCBB.WriteLinkSupervisionTimeout | CORE/BAP/src/bapApiHCBB.c:682-740 | The write under a physical handle, any value |
| BapApiHCBB.ReadLogicalLinkAcceptTimeout | CORE/BAP/src/bapApiHCBB.c:776-810 | The read command |
| BapApiHCBB.WriteLogicalLinkAcceptTimeout | CORE/BAP/src/bapApiHCBB.c:844-899 | The range-checked write |
| BapApiHCBB.VendorSpecificCmd1 | CORE/BAP/src/bapApiHCBB.c:1617-1653 | The next create or accept takes the deferred path; nothing else changes |
| BapContext.BapContext.constructor | CORE/BAP/src/bapModule.c:623-743 | A clean context: every field zeroed, no association, sixteen free slots, default registers |
| Vos.ReservedRoom | CORE/VOSS/src/vos_packet.c:2118-2170 | The bytes reserved and the room left make up the buffer of 3872 bytes |
| Vos.Platform.GetPacket | CORE/BAP/src/bapApiLinkSupervision.c:130-140 | A pool request: granted, with the reserved bytes zeroed and taken from the headroom, refused, or made and given back |

## Left out

- LinkLifecycle.BoundCheckIsOffByOne: what lies behind the slot array is taken to read as one more slot (`beyond`); which fields of the context that memory really holds is not modelled.
- Translation.ParseAclPacket: the driver packs the flag byte from the low bits up on every host, by forcing one bit-field order; that a compiler lays the bit-fields out so is taken as given, not derived.
- TwoStations.NoFalseDisconnection: TL accepts every frame it is handed, frames are not lost and allocations for completed packets succeed; losing frames is outside it (`LostRequestsRaise`).
- TxMonitor.NoUnderflow: two passes, one of the timer and one of the host's callback; each caller runs one at a time.
- BapApiLinkCntl.LogicalLinkCreate: the deferred success path never writes the command-status byte; the model says "not written" (`None`) and nothing about its value. Accept likewise.
- BapApiLinkCntl.CreateNewLogLinkCtx: the repository's own parser accepts every flow spec it is given here; rejection is kept as a branch because the code handles it. A rejected spec may also have been half written into the slot; that is not modelled.
- BapApiData.STARxCB: requires a frame of at least 14 bytes, which TL delivers; shorter frames would be read past their end. The lookup of the context by station is taken to succeed.
- BapApiData.XlateTxDataPkt: the constant fields of the TL meta information and the station lookup, which always succeeds, are left out.
- BapApiLinkSupervision.TxLinkSupervision: a missing packet counts as rejected by TL; the code hands the null pointer on.
- BapApiTimer.CollectCompleted: the loop that each of the two event functions writes out in full is one method here, and one slot's turn (`LookAtSlot`) another.
- The link state machine (`btampFsm`) is not part of this model: its state is a gate, its events an output log, and its moves arbitrary steps.
- The RSN authenticator and supplicant machines and the roam callback.
- The codecs of local and remote AMP association data.
- Commands that keep no state or always succeed: information, loopback, event mask, flow control mode (the mode is a field of the context), location data, short range mode, failed-contact counters, best-effort flush, flow-spec modify.
- BapApiLinkCntl.CreateNewPhyLinkCtx: the MAC configuration, security state and roaming profile it also sets up are left out.
- PacketPool.PoolConserved: a packet's identity is never used twice in the model; the driver recycles packet structures from a fixed free list and compares their addresses, so a recycled packet can be taken for the earlier one.
- Opening and closing of the module, null-pointer checks and tracing.
- Timers and the packet pool are simple contracts of the VOSS layer: a timer is running or not, and a run of the machine decides when it expires.
