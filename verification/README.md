# What tun-manager's feed and batches promise

tun-manager is a root program that drives WireGuard tunnels from a terminal interface and publishes what
it knows on a Unix socket; a macOS menu bar application reads that feed. This project models the two
protocols in the middle of it and proves what they keep over every run:

- **The publisher** (`internal/feed/server.go`). `Publisher.dfy` has one atomic step for each critical
  section of the mutex and for each action taken outside it. A goroutine is the list of steps it has still
  to take, and a run is any interleaving of accepting, publishing, reading, sampling, dropping and shutting
  down. `FeedServer.dfy` has the same critical sections as methods that change the server's fields in place
  and leave exactly what the steps leave. `FeedSteps.dfy` says what each step can change, `FeedSafety.dfy`
  is the inductive invariant, `FeedTheorems.dfy` what follows from it, and `FeedDelivery.dfy` who is told
  what and what is let go of. `FeedOrder.dfy` is about the order of what a client is told and what it
  misses, `FeedGreeting.dfy` about when it is greeted first, and `FeedRuns.dfy` has runs worked out step by
  step in which it is told an older view last or misses a message and is told the next. `FeedProgress.dfy`
  follows what each step must lead to until it is done, and `FeedCauses.dfy` what alone can lead to it.
- **The consumer** (`LinkMachine.swift`, `FeedSupervisor.swift`). The machine and the supervisor are
  classes proved against transition functions. The supervisor adds connection generations, two timers and
  reader tasks that resume in any order. `LinkSafety.dfy` is the inductive invariant over every run and
  `LinkTheorems.dfy` what follows: no stuck states, stale connections unheard, proof before publication,
  pins that only a person removes, diffs that add up. `LinkRuns.dfy` has runs of the supervisor in which a
  view outlives its connection and attempts start again without a greeting. `LinkStream.dfy` follows a
  connection's bytes through the framer to what the machine hears and shows, and `LinkStates.dfy` says for
  each state, action and field exactly when it is entered, asked for or changed.
- **The two joined** (`Handshake.dfy`): an honest publisher is believed, and what a client says in a run of
  the supervisor leaves the publisher of a run of its own watching what the client watches.
- **The batch runner** (`internal/app/batch.go`) and the interface's bookkeeping of it
  (`internal/tui/update.go`): every schedule of launching, working, reporting, cancelling and reading.
  `Overlap.dfy` is about two batches on one tunnel: what the interface must have been shown to keep them
  apart, whatever the goroutines it cannot see are doing.
- **The algorithms they stand on**: the line framer with resync, the signed message, the braille graph, the
  rate history in both languages, groups and plans, the snapshot diff and the reconnection delay.

Where the code does not keep what its comments say, the model follows the code: there is a lemma with a run
or an input that shows it, and a lemma that says exactly when the claim holds.

| the claim | what happens | exactly when it holds |
|---|---|---|
| hello is the first line | `NewerViewThenHelloThenOlder` | `GreetedFirstExactlyWhenNothingJoinsBefore` |
| the last view a client is told is the publisher's | `NewerViewThenHelloThenOlder`, `OverlappingPublications` | one way: `LastToldIsTheView` |
| a client too far behind is dropped before it is told more | `ASkippedMessageLeavesAGap` | `NothingMissedExactlyWhenNeverFull`; one way: `WithoutAGapOnlyTheEndIsMissing` |
| a view shown on a connection arrived on it | `AHeldViewCanOutliveItsConnection` | `FirstViewIsItsOwn` |
| a second batch is kept off a tunnel being worked on | `TwoRunsOnOneTunnel`, `LateReportsHideARunningStep` | `SafeExactlyWhenReported` |
| GroupOf never returns "all" | `AllCanBeReturned` | `AllComesFromAnOverride` |
| a tunnel that is down is not probed | `DownAndProbed` | `NamedPingCoversLiveAddresses` |
| no line over the limit is assembled | `OverlongLinesHangOnTheirChunks` | `FramesWholeLines` |
| attempts start again on a greeting | `AttemptsStartAgainUngreeted` | `AttemptsAreResetInTwoPlaces` |
| the group of a tunnel is a function of the configuration | `AGroupCanHangOnTheOrder` | `OrderMattersExactlyWhenListedTwice` |

`dafny verify dfyconfig.toml` checks everything.

## Model

| member | source | states |
|---|---|---|
| FeedTheorems.QueuesAreClosedOnceByWhoRemoved | internal/feed/server.go:503-584 | In every interleaving nothing is sent on a closed queue and no queue or stop channel is closed twice; a registered client's queue is open with nobody about to close it, and once the client is removed exactly one step of one goroutine is due to close it until it is closed. |
| FeedTheorems.OneLoopWhileSampling | internal/feed/server.go:771-809 | The handle is set to a loop exactly when that loop is running with its stop channel open; at most one goroutine runs each loop. |
| FeedTheorems.SamplingFollowsWatching | internal/feed/server.go:771-795 | With no retick or stop due, sampling runs if and only if some registered client watches something. |
| FeedTheorems.ClosingIsForever | internal/feed/server.go:560-571 | From closing on, nobody is registered or joins and no loop starts; once shutdown has stopped sampling it stays stopped. |
| FeedTheorems.NothingGrowsWithoutBound | internal/feed/server.go:216-222 | At most 32 clients although the fullness test and the registration are separate critical sections, 64 names and 16 queued messages a client, one request waiting. |
| FeedTheorems.PeersReadWhatWasQueued | internal/feed/server.go:606-615 | What a peer was written is a prefix of what was queued for it; bye is queued at most once and is last. |
| FeedTheorems.FloorsHoldForAnyClock | internal/feed/server.go:751-766 | For any clock readings, backwards included, a row of accepted refreshes spans at least a floor per gap, so a window holds at most its floors and one; likewise pings, and signatures per client. |
| FeedTheorems.AllowanceIsPrivate | internal/feed/server.go:724-745 | A client's challenge stamp changes only in a step that grants that client itself a signature, and one its floor allowed. |
| FeedTheorems.HistoryOnlyGrows | internal/feed/server.go:858-873 | What was queued for a client stays the beginning of what is queued for it. |
| FeedTheorems.GreetedOnce | internal/feed/server.go:571-578 | In every reachable system each client's greeting is queued or due at most once. |
| FeedGreeting.GreetedFirstExactlyWhenNothingJoinsBefore | internal/feed/server.go:566-584 | In every run the first message of a client whose greeting joined its queue is the greeting if and only if no step between its registration and that one put another message in its queue. |
| FeedGreeting.UndisturbedIsGreetedFirst | internal/feed/server.go:566-584 | So a client is greeted first whenever no view or round of pings is published, nothing is sampled and no signature is allowed it between its registration and its greeting. |
| FeedRuns.NewerViewThenHelloThenOlder | internal/feed/server.go:566-584 | A run in which a client is told a newer view, then hello, and last the older view captured when it was registered. |
| FeedRuns.OverlappingPublications | internal/feed/server.go:505-518 | A run in which a client long greeted is told a newer view and last an older one, because two publications overlapped; it stays registered and the publisher remembers the newer. |
| FeedOrder.LastToldIsTheView | internal/feed/server.go:505-518 | In every run in which views are published only while none is on its way to a client, a registered client to which none is on its way has been told the publisher's view last, or is about to be dropped. |
| FeedOrder.NobodyIsServedEarly | internal/feed/server.go:566-584 | In every reachable system no step is due about a client that has not been registered yet. |
| FeedDelivery.ClosesAreOwedByRemoving | internal/feed/server.go:876-909 | Closing a queue becomes due only in the very step that takes its client out of the set, a drop of that client or the shutdown. |
| FeedDelivery.EveryConnectionHasAWriter | internal/feed/server.go:606-615 | In every reachable system a connection that is not closed still has its writer, which closes it when it ends. |
| FeedDelivery.EveryClientIsReadOrLeaves | internal/feed/server.go:619-643 | In every reachable system a registered client has its reader, or its drop is due: a reader that ends drops its client. |
| FeedDelivery.NothingLeaks | internal/feed/server.go:876-918 | In every run, a client that nobody reads any more, or that is not registered, and for whom nothing is left to do but wait, is not registered and has its queue and its connection closed, whatever the other clients are doing. |
| FeedOrder.NothingMissedExactlyWhenNeverFull | internal/feed/server.go:852-873 | In every run what a client was told is everything meant for it while registered, in order, if and only if its queue was never full when something was. |
| FeedOrder.SkippedMeansLeaving | internal/feed/server.go:858-889 | Once a message is skipped, at every later system of the run the client is gone or its drop is due. |
| FeedOrder.GoneIsForever | internal/feed/server.go:876-889 | In every run a client that is gone is never registered again. |
| FeedOrder.WithoutAGapOnlyTheEndIsMissing | internal/feed/server.go:852-873 | When nothing joins a client's queue after a message was skipped, what it was told is a beginning of what was meant for it. |
| FeedOrder.AGapNeedsATake | internal/feed/server.go:606-615 | A message that joins after one was skipped does so only after the client's writer took one in between. |
| FeedRuns.ASkippedMessageLeavesAGap | internal/feed/server.go:852-889 | A run in which the seventeenth round waiting is skipped and, the writer having taken one before the drop, the eighteenth joins. |
| FeedDelivery.SamplesGoOnlyToWatchers | internal/feed/server.go:811-853 | In every run no client is told a reading of a tunnel it was not watching at some moment before. |
| FeedDelivery.EveryAnswerIsTrue | internal/feed/server.go:703-722 | In every run every answer a client is told is the publisher's signature of the nonce beside it. |
| FeedProgress.TheDoorIsOpenUntilCancelled | internal/feed/server.go:463-501 | In every reachable system the accept loop goes on unless the publisher was cancelled, and once it is closing it is unbound or about to be. |
| FeedProgress.EverybodyIsGreeted | internal/feed/server.go:571-584 | In every reachable system a registered client has been told hello, or is about to be, or to be dropped. |
| FeedProgress.WhatIsAnnouncedIsSent | internal/feed/server.go:505-529 | In every run each view and round of pings published is sent to every client registered then, and each reading to every client that watches its tunnel then: the send is due until it is done. |
| FeedProgress.EveryTickSamples | internal/feed/server.go:797-809 | In every run a tick of the sampling loop leads to a round of samples. |
| FeedProgress.RequestsArePassedOn | internal/feed/server.go:676-701 | In every run a line that asks for a refresh, or a ping it may ask for, is passed on: asking is due until done, and done past its floor the request is left for the owner unless one is waiting. |
| FeedProgress.ChallengesAreAnswered | internal/feed/server.go:703-722 | In every run a well-formed challenge to a publisher with a key is answered: allowing it is due until done, and done past the client's floor the answer is sent. |
| FeedProgress.EverybodyPresentIsToldBye | internal/feed/server.go:892-909 | In every run each client registered when the publisher shuts down is told bye, unless its queue is full then. |
| FeedProgress.WhoIsDroppedIsHungUpOn | internal/feed/server.go:876-889 | In every run a client that was dropped has its connection closed, or closing it is due, whatever its writer is doing. |
| FeedCauses.EverythingDueHasACause | internal/feed/server.go:463-922 | In every run each step that is due was made due by an event before it, for the one reason there is for that step: a drop by a reader that ended or a full queue, a signature by a well-formed challenge, a request by a line that may ask for it, a send by an announcement, a greeting or an answer, and so on for every kind. |
| FeedSafety.EverySystemIsSound | internal/feed/server.go:463-501 | Every system any interleaving reaches satisfies the whole invariant. |
| FeedSafety.NextIsSound | internal/feed/server.go:463-501 | Any goroutine's step, any call from outside, a cancellation and a request being taken keep the invariant. |
| FeedSafety.StepKeepsQueues | internal/feed/server.go:855-889 | Every step keeps: registered means open, removed and open means exactly one close is due, nothing panicked. |
| FeedSafety.StepKeepsAccept | internal/feed/server.go:548-571 | Every step keeps one accept loop at most and room for the client it is about to register. |
| FeedSafety.StepKeepsLoops | internal/feed/server.go:771-809 | Every step keeps the handle's loop the one open loop, there exactly once, and every other told to stop. |
| FeedSafety.StepKeepsTick | internal/feed/server.go:771-795 | Every step keeps: no retick due means sampling exactly while watched. |
| FeedSafety.StepKeepsShutdown | internal/feed/server.go:892-922 | Every step keeps: shutting down happens once, and closing leaves nobody registered. |
| FeedSafety.StepKeepsClients | internal/feed/server.go:606-615 | Every step keeps a client's queue and watches bounded, and written plus in hand plus queued equal to what was ever queued. |
| FeedSafety.StepKeepsHands | internal/feed/server.go:606-615 | Every step keeps one writer a client, holding a message exactly when it is about to write. |
| FeedSafety.StepKeepsByes | internal/feed/server.go:900-909 | Every step keeps: only shutdown says bye, to a client that is gone, and never twice. |
| FeedSafety.StepKeepsFloors | internal/feed/server.go:730-766 | Every step keeps each history of accepted readings spaced by its floor and ending in the stamp. |
| FeedSafety.RetickSettles | internal/feed/server.go:771-784 | After a retick the handle is set if and only if somebody watches something, and nobody's watches changed. |
| FeedSteps.PendingAfterStep | internal/feed/server.go:463-501 | A step takes exactly its own entry from the steps still due and adds exactly what it leads to. |
| FeedSteps.StepsBring | internal/feed/server.go:503-922 | Which steps each step can lead to: closes only from removing, byes only from shutdown, loops only from reticks, greetings only from registering. |
| FeedServers.FeedServer.Snapshot | internal/feed/server.go:508-512 | Walking the client map lists every client exactly once, in some order. |
| FeedServers.FeedServer.Join | internal/feed/server.go:560-584 | Registers a client and captures the view to greet it with, unless closing or closed. |
| FeedServers.FeedServer.Remember | internal/feed/server.go:505-513 | Remembers a view and lists whom to send it to. |
| FeedServers.FeedServer.Send | internal/feed/server.go:858-871 | Queues for a live client with room; reports a full queue, and leaves a client that is gone alone. |
| FeedServers.FeedServer.Forget | internal/feed/server.go:876-882 | Removes a client and says whether it was there, so that one caller closes its queue. |
| FeedServers.FeedServer.Watch | internal/feed/server.go:648-670 | Adds a name that is not empty, is in the view if there is one, and fits in 64. |
| FeedServers.FeedServer.Unwatch | internal/feed/server.go:671-675 | Removes a name from that client's watches and nothing else. |
| FeedServers.FeedServer.AllowChallenge | internal/feed/server.go:730-745 | Grants a signature and stamps it exactly when the client's own floor allows it. |
| FeedServers.FeedServer.Ask | internal/feed/server.go:751-760 | Passes a request and moves its verb's own stamp exactly when that verb's floor allows it. |
| FeedServers.FeedServer.AnyWatched | internal/feed/server.go:788-795 | The loop over the clients answers whether anybody registered watches anything. |
| FeedServers.FeedServer.Tick | internal/feed/server.go:771-784 | Starts a loop when watched and none runs, closes the stop channel when not watched and one runs. |
| FeedServers.FeedServer.StopLoop | internal/feed/server.go:917-922 | Closes the handle's stop channel, if any, and forgets it. |
| FeedServers.FeedServer.Watchers | internal/feed/server.go:819-827 | The nested loops give each name exactly the registered clients that watch it. |
| FeedServers.FeedServer.BeginShutdown | internal/feed/server.go:893-899 | Marks the server closing, empties the set, and lists everybody who was in it. |
| FeedServers.FeedServer.Full | internal/feed/server.go:218-222 | Full if and only if some further client would make more than 32, and then the accept loop turns the connection away instead of registering it. |
| Handshake.HonestPublisherAnswers | internal/feed/server.go:703-722 | A publisher with a key answers a client's first well-formed challenge, and the answer holds under its own key for the path it is bound to. |
| Handshake.HonestPublisherIsAccepted | macos/Sources/TunManagerFeed/Link/LinkMachine.swift:114-142 | A client that dials an honest publisher, hears any views meanwhile and then its answer goes live if and only if the answer holds under the key it pinned, so always when none or the publisher's own is pinned; with none, the publisher's key is pinned. |
| Handshake.RelayedAnswersAreRefused | macos/Sources/TunManagerFeed/Link/LinkMachine.swift:114-142 | While proving, an answer of the publisher whose key is in force opens the link if and only if it was made on the path dialled, by the version announced, for the nonce asked, and says so; any other is refused and leaves the link unproven with its connection closed. |
| Handshake.WatchedIsWhatWasHandled | internal/feed/server.go:645-675 | In every run a client watches exactly what handling its lines, one after the other, each under the view of its moment, leaves: no other step changes it. |
| Handshake.BothEndsAgreeExactlyWhenLinesFit | internal/feed/server.go:645-675 | Handled in order under whatever views, a client's lines leave the set the publisher keeps equal after each one to what replaying them gives, if and only if every newly watched name is not empty, in the view of the moment, and within 64. |
| Handshake.LiveWatchesReachThePublisher | macos/Sources/TunManagerFeed/Link/LinkMachine.swift:133-136 | At a live point of any run of the supervisor and any point of any run of the publisher that has handled for a client the lines said on this connection, the client is watching there exactly what the machine watches, whenever those lines fit. |
| Link.LinkMachine.Handle | macos/Sources/TunManagerFeed/Link/LinkMachine.swift:150-289 | One event changes every field and asks for every action as the transition function says. |
| Link.LinkMachine.HandleMessage | macos/Sources/TunManagerFeed/Link/LinkMachine.swift:166-253 | What each message does in each state. |
| Link.LinkMachine.Settle | macos/Sources/TunManagerFeed/Link/LinkMachine.swift:114-142 | An answer is checked against the pinned key where there is one; refused it closes, accepted it pins, watches again and shows what was held. |
| Link.LinkMachine.Trust | macos/Sources/TunManagerFeed/Link/LinkMachine.swift:125-136 | Trust on first use, and every watched name sent again in order. |
| Link.LinkMachine.Greet | macos/Sources/TunManagerFeed/Link/LinkMachine.swift:166-184 | Another schema blocks, no key is unproven, otherwise a nonce is asked and a deadline set. |
| Link.LinkMachine.TryAgain | macos/Sources/TunManagerFeed/Link/LinkMachine.swift:241-284 | What a retry timer, a person, waking up and opening the menu do in each state. |
| Link.LinkMachine.Merge | macos/Sources/TunManagerFeed/Link/LinkMachine.swift:220-226 | A round of pings replaces the tunnels it names and keeps the others. |
| Link.LinkMachine.Retry | macos/Sources/TunManagerFeed/Link/LinkMachine.swift:291-294 | Waits for as long as the policy says for this reason and attempt. |
| Link.LinkMachine.ForgetPinnedKey | macos/Sources/TunManagerFeed/Link/LinkMachine.swift:146-148 | Forgets the key and nothing else. |
| Supervisor.FeedSupervisor.Dispatch | macos/Sources/TunManagerFeed/FeedSupervisor.swift:105-112 | One event is handled and its actions performed in order, as one step. |
| Supervisor.FeedSupervisor.Perform | macos/Sources/TunManagerFeed/FeedSupervisor.swift:114-159 | What each action does to the generation, the connection, the reader, the timers and the key store. |
| Supervisor.FeedSupervisor.OpenConnection | macos/Sources/TunManagerFeed/FeedSupervisor.swift:161-171 | Closes the connection held, cancels its reader, and starts a task under a new generation. |
| Supervisor.FeedSupervisor.ScheduleRetryAfter | macos/Sources/TunManagerFeed/FeedSupervisor.swift:233-242 | Replaces the retry timer. |
| Supervisor.FeedSupervisor.ReturnFromDial | macos/Sources/TunManagerFeed/FeedSupervisor.swift:171-201 | What a task does when its connection arrives or fails, and that one arriving for an old generation is closed. |
| Supervisor.FeedSupervisor.ReadChunk | macos/Sources/TunManagerFeed/FeedSupervisor.swift:203-216 | A chunk goes through the task's own framer and its lines are dispatched, unless the generation moved on. |
| Supervisor.FeedSupervisor.DispatchLines | macos/Sources/TunManagerFeed/FeedSupervisor.swift:211-215 | Every line that decodes is dispatched in order, with no look at the generation in between. |
| Supervisor.FeedSupervisor.EndStream | macos/Sources/TunManagerFeed/FeedSupervisor.swift:217-231 | A stream that ends is reported only for the current generation and never when cancelled. |
| Supervisor.FeedSupervisor.ForgetPinnedKey | macos/Sources/TunManagerFeed/FeedSupervisor.swift:82-86 | Forgotten in the store, then in the machine, then tried again. |
| LinkSafety.StepKeeps | macos/Sources/TunManagerFeed/FeedSupervisor.swift:105-243 | Whatever happens next keeps timers, readers, connections, the handshake's history, the views shown and the key store in step with the machine. |
| LinkSafety.EveryWorldIsSound | macos/Sources/TunManagerFeed/FeedSupervisor.swift:105-243 | Every world of every run satisfies that invariant. |
| LinkSafety.MessagesKeep | macos/Sources/TunManagerFeed/FeedSupervisor.swift:205-216 | All the lines of one chunk keep it, including after one of them closed the connection. |
| LinkSafety.ReplayWatches | macos/Sources/TunManagerFeed/Link/LinkMachine.swift:133-136 | Replaying the watches sent on going live adds exactly those names. |
| LinkSafety.ReplayUnwatches | macos/Sources/TunManagerFeed/Link/LinkMachine.swift:264-268 | Replaying the unwatches removes exactly those names. |
| LinkTheorems.TimersMatchTheState | macos/Sources/TunManagerFeed/FeedSupervisor.swift:114-152 | In every run: a retry timer, of 250 ms to 30 s, is armed exactly in retrying, and in proving the only timer is the deadline of this very entry. |
| LinkTheorems.OnlyThreeStatesWait | macos/Sources/TunManagerFeed/Link/LinkMachine.swift:150-289 | At every world of every run: unless idle, blocked or unproven, something can happen by itself that leaves the state; in those three nothing that happens by itself changes the machine or its log. |
| LinkTheorems.StaleConnectionsAreUnheard | macos/Sources/TunManagerFeed/FeedSupervisor.swift:171-231 | Whatever arrives for another generation changes neither the machine nor what is said, shown or armed, and leaves no connection open. |
| LinkTheorems.MidChunkLinesAreSafe | macos/Sources/TunManagerFeed/FeedSupervisor.swift:205-216 | After any lines of a chunk, the generation is still the reader's or the next line changes nothing and asks for nothing. |
| LinkTheorems.OnlyLiveLinksPublish | macos/Sources/TunManagerFeed/Link/LinkMachine.swift:210-268 | Views, samples, watches, unwatches, refreshes and pings are asked for only by a live machine. |
| LinkTheorems.OnlyProofOpensTheLink | macos/Sources/TunManagerFeed/Link/LinkMachine.swift:114-142 | A machine becomes live exactly by an answer, while proving, to the nonce it asked, whose signature verifies over the message it believes in under the pinned key or, with none, the offered one. |
| LinkTheorems.AnyOtherAnswerIsRefused | macos/Sources/TunManagerFeed/Link/LinkMachine.swift:114-124 | Every other answer leaves the machine unproven, closes the connection and asks for nothing else. |
| LinkTheorems.LiveMeansProved | macos/Sources/TunManagerFeed/Link/LinkMachine.swift:166-201 | At every world of every run a live link heard on this connection a hello of this schema with a key and then an answer to this connection's nonce whose signature verifies over the message for that version and this path, under the pinned key unless it was forgotten since. |
| LinkTheorems.PinningIsTrustOnFirstUse | macos/Sources/TunManagerFeed/Link/LinkMachine.swift:125-130 | pin(k) is asked for exactly when nothing was pinned and now k is; an event never replaces a pinned key. |
| LinkTheorems.PinnedKeyOutlivesEveryStep | macos/Sources/TunManagerFeed/FeedSupervisor.swift:82-86 | Once a key is pinned only a person forgetting it changes it, whatever else happens. |
| LinkTheorems.EveryRun | macos/Sources/TunManagerFeed/FeedSupervisor.swift:105-243 | In every run: the diffs add up to the names last shown, store and machine agree on the key, every connection fetched is held or closed, live means the watches sent replay to what is watched, and with nothing held at proving every view shown arrived here. |
| LinkTheorems.PingsLeaveWithTheirTunnels | macos/Sources/TunManagerFeed/Link/LinkMachine.swift:210-218 | A published view keeps the measurements of its own tunnels and no other. |
| LinkStream.HeardIsWhatArrived | macos/Sources/TunManagerFeed/FeedSupervisor.swift:203-216 | In every run the messages heard on the connection being read are exactly those its lines decode to, the lines being what the framer makes of all the chunks that arrived on it. |
| LinkStream.HeardHangsOnNoCuts | macos/Sources/TunManagerFeed/FeedSupervisor.swift:203-216 | So where no line is over the limit they are what the newline split of the stream decodes to, however it was cut. |
| LinkStream.LiveShowsTheLatestView | macos/Sources/TunManagerFeed/Link/LinkMachine.swift:203-218 | In every run a live link shows the last view heard since the hello, as soon as there is one. |
| LinkStream.EndingsLeadWhereTheyShould | macos/Sources/TunManagerFeed/FeedSupervisor.swift:171-243 | At every point of a run: a failed dial is retried for the reason it failed, a lost stream for having been lost and a refused one for that, a retry that is due is a new attempt, a deadline while proving leaves the link unproven, and a forgotten key is forgotten in the store and tried again. |
| LinkStates.EveryStateIsEnteredExactlyWhen | macos/Sources/TunManagerFeed/Link/LinkMachine.swift:150-289 | For every state and event, each state is entered if and only if its own condition holds. |
| LinkStates.StatesRecordTheirCause | macos/Sources/TunManagerFeed/Link/LinkMachine.swift:150-289 | A state entered records its cause, and where no condition holds the state is what it was. |
| LinkStates.EveryActionIsAskedExactlyWhen | macos/Sources/TunManagerFeed/Link/LinkMachine.swift:150-289 | For every state and event, each action is asked for if and only if its own condition holds. |
| LinkStates.TheViewIsWhatIsPublished | macos/Sources/TunManagerFeed/Link/LinkMachine.swift:203-218 | The view held changes only to a view published, and to each one published. |
| LinkStates.WatchingIsWhatWasAsked | macos/Sources/TunManagerFeed/Link/LinkMachine.swift:255-268 | A tunnel is watched if and only if it was asked for and not let go of since, whatever state the link is in. |
| LinkStates.HandshakeFieldsChangeExactlyWhen | macos/Sources/TunManagerFeed/Link/LinkMachine.swift:166-253 | What is remembered of the publisher, the pinned key, the question asked and the view held change exactly on a hello, a proof or a view. |
| LinkStates.OnlyRoundsAndViewsChangePings | macos/Sources/TunManagerFeed/Link/LinkMachine.swift:203-226 | Measurements leave with the tunnels a shown view leaves out, and only a round changes them otherwise. |
| LinkStates.AttemptsCountTries | macos/Sources/TunManagerFeed/Link/LinkMachine.swift:241-284 | Every try counts one, until a hello is accepted or a person tries a refused link again. |
| LinkStates.PingsAreKeptWhileLive | macos/Sources/TunManagerFeed/Link/LinkMachine.swift:220-226 | A round heard while live replaces each tunnel it names by its last measurement and keeps the others; heard at any other time it changes nothing. |
| LinkStates.ReasonsByTheirNumber | macos/Sources/TunManagerFeed/Link/LinkMachine.swift:296-305 | The four error numbers that have a reason of their own, and all others. |
| LinkTheorems.FirstViewIsItsOwn | macos/Sources/TunManagerFeed/Link/LinkMachine.swift:137-140 | What going live shows arrived on this connection if and only if nothing was held when proving began or a view came in before the answer. |
| LinkRuns.AHeldViewCanOutliveItsConnection | macos/Sources/TunManagerFeed/Link/LinkMachine.swift:203-209 | A run of the supervisor in which a view held while proving on one connection is shown on the next, on which it never arrived. |
| LinkTheorems.AttemptsAreResetInTwoPlaces | macos/Sources/TunManagerFeed/Link/LinkMachine.swift:278-284 | Attempts go down exactly on an accepted hello and on a person retrying a blocked or unproven link. |
| LinkRuns.AttemptsStartAgainUngreeted | macos/Sources/TunManagerFeed/Link/LinkMachine.swift:278-284 | A run in which a link blocked on its second attempt starts again from none although no hello was ever accepted. |
| Diffs.Between | macos/Sources/TunManagerFeed/Link/SnapshotDiff.swift:26-49 | The code's diff is the one diff: of a first view every name in order, one that is there twice kept twice; of two views the names gained, names lost, and common names whose health differs, each sorted without repeats. |
| Diffs.DiffIsUnique | macos/Sources/TunManagerFeed/Link/SnapshotDiff.swift:26-49 | Two views have only one diff. |
| Diffs.DiffTransforms | macos/Sources/TunManagerFeed/Link/SnapshotDiff.swift:26-49 | Taking away what disappeared and adding what appeared turns the names shown before into those shown after; every list is in order, and what appeared repeats a name exactly when a first view does. |
| Diffs.HealthByName | macos/Sources/TunManagerFeed/Link/SnapshotDiff.swift:26-49 | The dictionary has each name of the view with its health. |
| Diffs.CollectChanges | macos/Sources/TunManagerFeed/Link/SnapshotDiff.swift:26-49 | The loop keeps exactly the common names whose health differs. |
| Names.Sort | macos/Sources/TunManagerFeed/Link/SnapshotDiff.swift:26-49 | The names of a set, each once, ascending. |
| Names.FirstDifferenceDecides | macos/Sources/TunManagerFeed/Link/SnapshotDiff.swift:27-34 | The order of names is decided where they first differ. |
| Names.InOrderIsUnique | macos/Sources/TunManagerFeed/Link/SnapshotDiff.swift:27-34 | There is one way to put a list of names in order, repeats kept. |
| Reconnect.DelayIsBoundedAndClimbs | macos/Sources/TunManagerFeed/Link/ReconnectPolicy.swift:14-39 | A delay is never under its base or 250 ms nor over 30 s, starts at its base and never gets shorter as attempts go up. |
| Reconnect.EachAttemptWaitsTwiceAsLong | macos/Sources/TunManagerFeed/Link/ReconnectPolicy.swift:34-38 | Each attempt waits twice as long as the one before, up to the ceiling, so capping the doublings at eight changes nothing. |
| Reconnect.DelayTopsOut | macos/Sources/TunManagerFeed/Link/ReconnectPolicy.swift:14-39 | From the eighth attempt every reason waits the ceiling. |
| Reconnect.FirstDelays | macos/Sources/TunManagerFeed/Link/ReconnectPolicy.swift:14-33 | The first wait for each reason. |
| LineFraming.LineFramer.Push | macos/Sources/TunManagerFeed/Protocol/LineFramer.swift:33-63 | The loop over the buffer hands out and keeps exactly what one pass over the bytes does. |
| LineFraming.FramesWholeLines | macos/Sources/TunManagerFeed/Protocol/LineFramer.swift:33-63 | For any chunking of any stream the output is, in order, exactly the finished lines that hold something and inside which no push ended with more than limit bytes read; at most limit bytes are held back, and the framer is resyncing exactly while the line at hand was so overrun. |
| LineFraming.OverrunIsOverlong | macos/Sources/TunManagerFeed/Protocol/LineFramer.swift:33-63 | A line inside which some push ended with more than limit bytes is over the limit, so none within it is dropped. |
| LineFraming.OverlongLinesHangOnTheirChunks | macos/Sources/TunManagerFeed/Protocol/LineFramer.swift:14-63 | Any line over the limit is handed out whole when its newline comes with it and dropped when it comes in the next chunk. |
| LineFraming.ChunkingDoesNotMatter | macos/Sources/TunManagerFeed/Protocol/LineFramer.swift:33-63 | When no line is over the limit the output is the plain newline split, however the stream was cut. |
| LineFraming.SplitIsUnique | macos/Sources/TunManagerFeed/Protocol/LineFramer.swift:33-63 | Complete and unfinished are the newline split: the one way to write a stream as newline-free pieces. |
| LineFraming.ReadingLosesNothing | macos/Sources/TunManagerFeed/Protocol/LineFramer.swift:33-63 | Joining what reading a stream gives back, with what is left unfinished, is the stream. |
| Proof.SignedMessage | internal/feed/sign.go:42-54 | The publisher's loop builds domain, schema, version, path and nonce, a nul before each. |
| Proof.BelievedMessage | macos/Sources/TunManagerFeed/Protocol/PublisherProof.swift:27-36 | The client's loop builds the same bytes. |
| Proof.MessageIsInjective | internal/feed/sign.go:28-54 | Two messages are equal if and only if schema, version, path and nonce are, when version and path hold no nul. |
| Proof.NulBreaksInjectivity | internal/feed/sign.go:28-54 | With a nul in a field, two different identities sign the same bytes. |
| Proof.DecimalIsInjective | internal/feed/sign.go:45-45 | Different schema numbers are written differently, and without a nul. |
| Proof.HonestAnswerHolds | internal/feed/sign.go:57-65 | The answer to any well-formed nonce holds under the key announced, for this version and path. |
| Proof.HoldsExactlyWhenSigned | macos/Sources/TunManagerFeed/Protocol/PublisherProof.swift:43-56 | Nothing holds but a signature that verifies, under a key that is one, over the message this client believes was signed. |
| Proof.AnswersHoldExactlyWhereMade | macos/Sources/TunManagerFeed/Protocol/PublisherProof.swift:22-56 | An answer made under a key, for any version, path and nonce, holds for a client if and only if it was made for the version it was told, the path it dialled and the nonce it asked, given that a signature is over one message and that versions and paths hold no nul. |
| Proof.OnlyWellFormedQuestionsAreAnswered | internal/feed/sign.go:57-83 | A publisher answers if and only if it has a key to announce and the question decodes to 32 bytes. |
| Graph.ComputeLevels | internal/rate/braille.go:55-74 | The loop fills the levels of the last values, right-aligned, clamped to the height. |
| Graph.LevelFollowsValue | internal/rate/braille.go:69-73 | A larger value never draws lower. |
| Graph.LevelEnds | internal/rate/braille.go:69-73 | Nothing at or below zero draws, and whatever reaches the peak draws to the top. |
| Graph.LevelIsTheShare | internal/rate/braille.go:69-73 | Between nothing and the peak a value draws the one height that is its share of the graph, rounded down. |
| Graph.NewestIsRightmost | internal/rate/braille.go:55-74 | The rightmost column draws the newest value, columns with no value draw nothing, and nothing is drawn without a peak. |
| Graph.BitsFollowTheBlock | internal/rate/braille.go:20-23 | The table of bits is the numbering of dots in the Unicode braille block: dot n is bit n - 1. |
| Graph.Cell | internal/rate/braille.go:77-91 | A character is in U+2800 to U+28FF with exactly the dots below its two columns' levels raised. |
| Graph.Braille | internal/rate/braille.go:31-51 | height rows of width characters, each drawing its part of the levels; nothing for an empty size. |
| Graph.ColumnsAreBars | internal/rate/braille.go:77-91 | A column's dots are solid from the bottom, as high as its level. |
| Graph.DecodingGivesLevels | internal/rate/braille.go:31-91 | Counting the dots of a drawn graph, column by column, gives back the levels it was drawn from. |
| Rates.Series.Add | internal/rate/rate.go:42-61 | Go's history after a reading is the shared definition's. |
| Rates.RateSeries.Add | macos/Sources/TunManagerFeed/Presentation/RateSeries.swift:40-53 | Swift's history after a reading is the same definition's, so the two agree on every sequence of readings. |
| Rates.Series.Push | internal/rate/rate.go:70-78 | Keeps the last limit points. |
| Rates.RateSeries.Push | macos/Sources/TunManagerFeed/Presentation/RateSeries.swift:70-76 | Keeps the last limit points. |
| Rates.RateSeries.Clear | macos/Sources/TunManagerFeed/Presentation/RateSeries.swift:59-62 | Forgets the history and the last reading. |
| Rates.Series.Peak | internal/rate/rate.go:102-108 | The highest rate each way, and zero with none. |
| Rates.KeepsTheMostRecent | internal/rate/rate.go:42-78 | For any readings the history kept is the last limit entries of the unbounded one. |
| Rates.RatesAreNeverNegative | internal/rate/rate.go:63-68 | No rate is ever negative. |
| Rates.MeasuresTheGrowth | internal/rate/rate.go:42-68 | Two readings measure something if and only if the clock moved forward, and then each rate times the time between is the growth of its counter, zero for one that went back. |
| Rates.RatesAddUp | internal/rate/rate.go:42-68 | For strictly later readings with counters that do not go back, rates times their elapsed times add up to last minus first. |
| Batches.EveryBatchIsOk | internal/app/batch.go:133-168 | Every schedule, with any reader and any cancellation, keeps each worker having said exactly what it should have. |
| Batches.NoSendBlocks | internal/app/batch.go:134-134 | No send ever blocks, whether or not anybody reads. |
| Batches.ClosedMeansReported | internal/app/batch.go:133-168 | When the channel closes a prefix of the plan was launched, all of it unless cancelled and never nothing; each launched step said Started then Finished, nobody else said anything. |
| Batches.ReportsAreTrue | internal/app/batch.go:151-165 | In every schedule a worker runs its step once at most, and the result it reports is the one the run returned. |
| Batches.NeverStuck | internal/app/batch.go:133-168 | Until the channel is closed some goroutine of the batch can move, with nobody reading. |
| Batches.MovesCountDown | internal/app/batch.go:133-168 | Every move of a batch brings it nearer its end, so its channel is closed after boundedly many. |
| Interface.WithKey | internal/tui/update.go:201-208 | The copying loop gives the map with one key set. |
| Interface.WithoutKey | internal/tui/update.go:210-218 | The copying loop gives the map without one key. |
| Interface.Idle | internal/tui/update.go:324-332 | The loop keeps, in order, the steps whose tunnel is not shown as being worked on. |
| Interface.IdleKeepsTheOrder | internal/tui/update.go:324-332 | The steps left keep their order. |
| Interface.HandleEvent | internal/tui/update.go:137-151 | A report adds or removes its tunnel and nothing else. |
| Interface.HandleBatchDone | internal/tui/update.go:185-197 | The last batch to end unchecks the rows and asks for one refresh, unless one is out. |
| Interface.CountsAgree | internal/tui/update.go:185-197 | In every run batches is the number of undrained channels, a tunnel in flight is one whose step was shown started and not ended by such a batch, and zero batches means nothing is in flight. |
| Interface.TheLastBatchRefreshes | internal/tui/update.go:185-197 | In every run the message that drains the last channel unchecks the rows and leaves a refresh asked for, and no other message of a batch changes either. |
| Interface.FlightsNameTheirAction | internal/tui/update.go:137-151 | In every run a tunnel in flight is shown with the action of a step that was shown to have started. |
| Interface.NextKeeps | internal/tui/update.go:137-151 | Every event of goroutines, commands, messages and keys keeps the count, the reports shown and the tunnels in flight in step. |
| Overlap.SafeExactlyWhenReported | internal/tui/update.go:305-332 | At any world of a run, a request keeps the new batch apart from the running ones in every world the interface cannot tell from this one if and only if, of every tunnel asked for that is not in flight, every step of an undrained batch has been shown to start and to end. |
| Overlap.ReportedKeepsApart | internal/tui/update.go:305-332 | Under that condition, which reads only what has been shown, the new batch meets no step still to run. |
| Overlap.QuietKeepsApart | internal/tui/update.go:305-332 | With no batch counted any request is apart. |
| Overlap.NeverTwoOnOneTunnel | internal/tui/update.go:305-332 | In a run whose every request met that condition no tunnel ever has two steps to run. |
| Overlap.FlightsAreExact | internal/tui/update.go:137-151 | In such a run a tunnel is in flight if and only if some undrained batch has shown it started and not ended. |
| Overlap.TwoRunsOnOneTunnel | internal/tui/update.go:305-332 | A run in which one tunnel has two workers running on it. |
| Overlap.LateReportsHideARunningStep | internal/tui/update.go:137-151 | A run in which late reports of an earlier batch take off the map a tunnel whose worker was shown started and still runs: the batches are apart, nothing is in flight, and asking again is not apart. |
| Profile.GroupOf | internal/profile/profile.go:336-358 | The first override about the tunnel decides; otherwise the first group that lists it, "all" passed over. |
| Profile.OwnRuleBeforeDefault | internal/profile/profile.go:336-346 | The first override about a tunnel puts it where its rule for the context says, else where its default rule says, else nowhere. |
| Profile.Members | internal/profile/profile.go:362-384 | The group's own tunnels without an override, then those an override moves in, in whatever order the map is walked for each. |
| Profile.MembersKeepTheOrder | internal/profile/profile.go:362-384 | The tunnels that stay come in the order the group lists them. |
| Profile.MovedInKeepTheOrder | internal/profile/profile.go:375-383 | The tunnels moved in come in the order of their overrides. |
| Profile.MembersAreWhatGroupOfPutsThere | internal/profile/profile.go:336-384 | With disjoint duplicate-free groups and one override a tunnel, the members of every named group but "all" are exactly the tunnels GroupOf puts there, each once, in every context. |
| Profile.OrderMattersExactlyWhenListedTwice | internal/profile/profile.go:347-356 | The answer is the same for every order of the map if and only if the tunnel is overridden or listed by one group at most. |
| Profile.AGroupCanHangOnTheOrder | internal/profile/profile.go:347-356 | A configuration and two orders of its map that put one tunnel in two different groups. |
| Profile.AllComesFromAnOverride | internal/profile/profile.go:333-345 | "all" is returned if and only if the first override about the tunnel resolves to it. |
| Profile.AllCanBeReturned | internal/profile/profile.go:333-345 | A configuration for which it is. |
| Table.View | internal/app/app.go:139-162 | A row a tunnel with its group, the map walked in an order of its own for each, ordered by rank then name, and the same rows. |
| Table.TableShowsGroups | internal/app/app.go:139-162 | The table has exactly one row a tunnel, under the group GroupOf gave it in the walk made for it. |
| Table.TableHangsOnNoOrder | internal/app/app.go:139-162 | A row shows the group any walk of the map gives, whenever an override is about its tunnel or one group lists it at most. |
| Table.NeededComeFirst | internal/app/app.go:154-174 | In an ordered table every needed row is above every other, extra rows are above the rest, and names ascend within a group. |
| Table.Plan | internal/app/batch.go:95-107 | The loop plans a step for each name with a row that wants one, in order. |
| Table.PlansKeepTheOrder | internal/app/batch.go:95-107 | A plan comes in the order the names are given. |
| Table.PlanIsThose | internal/app/batch.go:55-107 | A plan has a step for exactly the names with a row that wants it, once each for distinct names. |
| Table.PlansReachTheirEnd | internal/app/batch.go:55-79 | Carried out, a plan to bring up leaves no tunnel named down, one to take down leaves each down, both with no step for what is that way already, and toggling leaves each the opposite of what it was. |
| Table.Unknown | internal/app/batch.go:85-93 | The loop lists the names with no row, in order. |
| Table.UnknownKeepTheOrder | internal/app/batch.go:85-93 | The names with no row come in the order given. |
| Table.UpGroup | internal/app/app.go:177-200 | Refuses the first member with no row, otherwise plans the group, whatever the orders of the walks. |
| Table.UpGroupStartsWhatTheTableShows | internal/app/app.go:177-193 | For whatever walks, starting a named group but "all" is refused if and only if some member has no row, and otherwise plans exactly one step, up, for each down row shown under the group. |
| Table.Find | internal/app/app.go:61-68 | The first row of that name, if any. |
| Table.TheFirstIsFound | internal/app/app.go:61-68 | Of several rows with the name the first is found. |
| Table.CheckIPs | internal/app/app.go:75-83 | The check addresses of the live tunnels. |
| Table.CheckIPsKeepTheOrder | internal/app/app.go:75-83 | The check addresses come in the order of the rows. |
| Table.NamedPingCoversLiveAddresses | internal/tui/model.go:206-218 | A named ping covers its tunnel's address if and only if a live tunnel has it, and never covers another. |
| Table.DownAndProbed | internal/tui/model.go:206-218 | A tunnel that is down and probed, because a live one shares its address. |

## Left out

- Sockets, files, processes, signals and the peer check of a new connection: connecting, accepting, the end of a stream and what a peer sends are events that may happen at any time. A connection the feed does not serve is one that is never accepted.
- Ed25519 (RFC 8032), base64 (RFC 4648) and JSON: the first two are functions with two laws, that decoding undoes encoding and that a signature made with a seed verifies under its public half; a decoder turns a line into a message or nothing. A third law, that a signature under a key verifies over one message only, is asked for by name where an answer is refused (an idealisation, as for any scheme that signs a digest: it holds while nobody finds two messages that collide); `Proof.SomeLibraryIsLawful` has a library that keeps all three. That a signature cannot be made without the seed is not a law here, so what an impostor cannot do is said as "only by an answer that verifies".
- FeedServers.FeedServer.Join, Send, Forget and the other methods of that class cover the critical sections of the mutex; a client is a value named by its place in a sequence rather than an object that is shared, and the actions taken outside the lock are steps of `Publisher.dfy` only.
- FeedTheorems.FloorsHoldForAnyClock: a clock never reads Go's zero time, which the code takes to mean "never"; and time is a whole number of milliseconds.
- Diffs.Between: comparing two views of which one repeats a name, which building the dictionaries traps on, is a precondition; the link machine's own views have distinct names from the first, since the second view would stop the program.
- Views on the publisher's side are the set of names they have rows for, and on the client's side names with their health; the other fields are carried and never looked at by what is modelled.
- The order in which Go walks a map is a parameter, one for each walk; `Profile.OrderMattersExactlyWhenListedTwice` says when it makes no difference.
- FeedOrder.LastToldIsTheView: it goes one way only. Overlapping publications may also happen to arrive in the order they were remembered.
- Integers are unbounded and rates, levels and elapsed times are real numbers: the 64-bit overflow of counters and the rounding of floating point are not modelled, nor the wrap-around of the generation number.
- Supervisor.FeedSupervisor.Dispatch: telling the observer, which reads the machine and changes nothing; and a cancellation error reaches only a task that was cancelled.
- The grace given to a peer that does not read its goodbye is a write that may fail at any time; how long a line a client may send is a read that may end at any time.
- The interface's other keys, its cursor, log, graph and periodic refresh. Closing and reopening the graph can leave two chains of samples, and the first refresh is not marked as out, so nothing is said of single flight there.
- Wire formats of views, the configuration, `.conf` and counter parsers, permission and ownership checks, the command line, `doctor`, import and backup, drawing and wording: string scanning, POSIX and presentation, of which a model would say what one body says.
- Whether wg-quick does what it is asked: a worker ends, well or not.
