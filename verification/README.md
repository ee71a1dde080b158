# aircd coordination protocol

aircd is an IRC-compatible server that lets agents coordinate: it keeps a durable message log, a table of channel
memberships with one cursor each, and a table of leased tasks. A Python daemon connects one agent process to it. This
project models the path of a message and of a task claim from the server's tables to the agent process, and proves what
runs of it guarantee.

- **The bouncer.** `Bouncer` is a state machine over the log, the membership cursors, the in-memory index of clients and
  channels and the lines enqueued to sessions; every whole command is one step, including replaced sessions, sessions
  that end without cleanup, closed receivers and a restart of the server. `BouncerRuns` proves that the lines a member
  is sent unasked are exactly the channel's log from the join baseline to the cursor. `ServerObject` is the server's
  mutable object with its loops; each of its methods is proved to perform the step of the state machine.
  `BouncerLimits` reaches the edges of that promise by runs and states exactly what happens there. `CommandEffects`
  says what each command does, `MembershipRuns` who belongs to a channel, who may speak in it and who is sent nothing.
- **Finer grains.** `StagedRegistration` splits registration into its separately locked parts; registrations overlap,
  also those of one principal, other commands run in between and the server may restart: exactly once becomes at least
  once. `RegistrationCopies` counts the copies exactly, and `DuplicateRun` is a run with two. `RestartLosses` says
  exactly what a restart loses, and `RestartRun` is a run in which it does; `StaleSnapshot` is one in which a PART is
  undone. `CursorSteps` interleaves every locked statement: `CursorHistories` tells rows, log and sent messages from the
  steps alone, and `CursorGaps` exactly which interleavings leave a cursor above a message that was not enqueued.
- **Tasks.** `Tasks` is the lease protocol, with timestamps that need not rise. `TaskRuns` proves separation, finality
  and the outcome of races. `TaskLog` shows that the texts the server appends to the log rebuild the task table.
  `ClaimRequests` follows outcomes into the daemons that wait for them, `ClaimContests` those of a race, and
  `TaskNotices` reads the lines the server sends about an operation.
- **The daemon.** `Delivery` is the delivery buffer and the agent process as a state machine in which the HTTP thread's
  locked sections fall between any two sections of the event loop. `DeliveryRuns` proves conservation, order and that
  no message is stranded; `DeliveryGuarantee` when delivery is at least once; `Dedup` that the bounded id memory is a
  window over the most recent distinct ids; `Visibility` that no unacknowledged message stays in flight beyond a bound.
  `ProcessRuns` says how long a process lives. `AgentObject` is the state updated in place.
- **The wire.** `Tags`, `ClientParser`, `CommandCodec`, `Relay`, `TaskListCodec` and `DeliveryIds` compose the Rust
  printer with the Python parser and the Python printer with the Rust parser; `ClientForms` and `CommandForms` say what
  each parser makes of lines the other side does not print. The format is that of section 2.3.1 of RFC 1459 with the
  escaping of the "Escaping values" section of the IRCv3 Message Tags specification.
- **The migration.** `Store` models seeding and backfilling of connection tokens, re-run on every start; `StoreRuns`
  says which rows a run adds and what a new database holds.

Reading order: a module that states results about another one imports it; `Prelude`, `History` and `Text` are at the
bottom. Functions recurse from the end of a sequence, so that a run grows by one step at its end. History variables
(`epochs`, `baselines`, `forgotten`, `ledger`, `trace`) record what the program itself does not keep.

Where the code and its documentation differ, the code is modelled:

- The documentation says a cursor advances only after a message was enqueued to an active session. `replay_history`
  ignores the result of the send and advances the cursor anyway (src/server.rs:465-473, src/server.rs:849-851). The
  exactly-once theorem assumes a receiver wherever a replay runs; `ClosedHistoryExactIff` and
  `ClosedRegistrationExactIff` give the exact condition under which a closed one loses nothing, and
  `HistoryThroughAClosedReceiverSkips` and `RegistrationThroughAClosedReceiverSkips` runs in which it does.
- The documentation promises that missed messages are replayed on reconnection. At most 200 per channel are
  (src/server.rs:386-391). `LongAbsenceLeavesAGapIff` shows by runs that the bound is exact. Also, a live message may
  lift the cursor over one that a registration is still to replay; `LostByRestartIff` says exactly when a restart
  then loses it, `RestartsAtRestLoseNothing` which restarts are safe.
- The documentation calls delivery from daemon to agent at-least-once. A batch written to an idle agent's stdin is not
  kept until acknowledged, and the busy queue drops its oldest message above 200 entries. `AtLeastOnceIffNoStepLoses`
  says exactly which runs keep the promise, `AMessageWrittenToADyingAgentIsGone` gives one that does not.
- Task success notices carry structured tags, but their replay carries only sequence number, id and time, so the daemon
  falls back to the text. A race for a task is decided correctly all the same; `WronglyToldIff` says exactly when
  a request can be answered wrongly; `AnOldTextAnswersANewClaim` and `ATrustedNickAnswers` are the two ways.

A PART ends a membership, but a registration whose snapshot of the memberships is older puts the principal back into the
index (src/server.rs:334-362): `IndexFollowsTheSnapshot` says exactly when, `APartIsUndoneInTheIndex` is such a run.

## Model

| member | source | states |
|---|---|---|
| History.HistoryStore.Append | src/history.rs:27-49 | the new message gets the next number and goes to the end of the log, which stays strictly ascending |
| History.HistoryStore.After | src/history.rs:51-78 | returns the first messages of the channel above the cursor, ascending, as many as the limit clamped to 1..500 |
| History.PageIsWindow | src/history.rs:51-78 | a non-empty page is exactly the channel's log between the cursor and the page's last number; an empty page means nothing is left |
| History.PagingIsComplete | src/history.rs:51-78 | asking page after page with any limits ends, and the pages concatenate to exactly the channel's messages above the cursor, ascending, none twice |
| BouncerFacts.BroadcastSends | src/server.rs:654-662 | a broadcast changes only cursor values and the enqueued lines, and enqueues one line per recipient that still has a receiver |
| BouncerFacts.BroadcastCursor | src/server.rs:654-662 | a broadcast raises exactly the cursors of recipients whose send succeeded, and of no other seat |
| BouncerFacts.ReplayEffect | src/server.rs:450-477 | a replay enqueues its whole page if the receiver is open, nothing otherwise, and moves only that seat's cursor, in both cases to the page's end |
| BouncerRuns.RunsDeliverExactlyOnce | src/server.rs:310-477 | in every run with open receivers at replay and at most 200 messages of backlog per channel at each registration, every message line went to a session of the principal it is counted for, and the lines sent unasked to a member's sessions since it joined are exactly the channel's messages above the baseline up to the cursor, ascending, each once; an active member with a receiver is level with the channel |
| BouncerRuns.RegisterLevelsSeatIff | src/server.rs:379-393 | registration brings a seat level with its channel if and only if its backlog is at most 200 |
| BouncerRuns.NextMessageGapFreeIffBacklogFits | src/server.rs:386-391 | after a registration in any run, the next message published to the channel leaves the stream without a gap if and only if the backlog was at most 200 |
| BouncerRuns.LiveMessageExactIffCaughtUp | src/server.rs:654-662 | a live message keeps a seat's stream exact if and only if the seat was level with the channel before it |
| BouncerRuns.ClosedReplayExactIff | src/server.rs:465-473 | a replay into a closed receiver keeps the stream exact if and only if its page was empty or ended at or below the cursor |
| BouncerLimits.AnyBacklogIsReached | src/server.rs:689-716 | for every n there is a run, in order throughout, at whose end a member is about to register with exactly n messages missed |
| BouncerLimits.LongAbsenceLeavesAGapIff | src/server.rs:386-391 | in those runs the registration and the next message leave the stream without a gap if and only if n is at most 200 |
| BouncerLimits.ClosedHistoryExactIff | src/server.rs:450-477 | in every run history asked for through a closed receiver keeps the stream exact if and only if its page is empty or ends at or below the cursor |
| BouncerLimits.ClosedRegistrationExactIff | src/server.rs:379-393 | in every run a registration through a closed receiver keeps a seat's stream exact if and only if it had no backlog |
| BouncerLimits.HistoryThroughAClosedReceiverSkips | src/server.rs:465-473 | a run in which the cursor passes a message that no session was sent |
| BouncerLimits.RegistrationThroughAClosedReceiverSkips | src/server.rs:379-393 | for every n a run in which a member with n missed messages registers through a closed receiver: the stream stays exact if and only if n is 0 |
| BouncerRuns.RecipientsAreActiveMembers | src/server.rs:671-687 | in every run the recipients computed from the index are exactly the durable members that have an active client |
| BouncerRuns.ReplacedSessionsAreTold | src/server.rs:340-355 | in every run each registered session that still runs is the connected one its principal acts through, or its shutdown notice has been sent |
| BouncerRuns.ReplacedSessionLeavesQuietly | src/server.rs:689-716 | when a replaced session disconnects, the newer session keeps its index entry, its connected mark, its seats and its right to act |
| CommandEffects.JoinBegins | src/server.rs:398-413 | a JOIN leaves an existing row and starts a new one at the channel's maximum, indexes the principal in that channel alone, and every reached member hears the JOIN once |
| CommandEffects.PartEnds | src/server.rs:415-428 | a PART removes exactly the acting principal's row and index entry of that channel; everything else stays, and every remaining reached member hears the PART once |
| CommandEffects.PrivmsgTakesAMembership | src/server.rs:430-448 | a member's message is logged under the next number in its name and sent once to each reached member; for anyone else nothing changes but a 442 to the session |
| CommandEffects.TaskNoticePublishes | src/server.rs:612-644 | a task event is logged and sent likewise, in the server's name |
| CommandEffects.OthersAreRefused | src/server.rs:718-741 | a command of a session that may not act changes nothing but 451 for an unregistered one, and the error that ends a replaced one |
| CommandEffects.HistoryAnswersTheAsker | src/server.rs:450-477 | a history request sends the pages to the asking session alone and moves only its principal's cursors in those channels, each to its page's end |
| CommandEffects.RegisterGreetsAndReplays | src/server.rs:331-393 | a registration makes the session its principal's client, indexes it in exactly the channels it has rows of besides, tells the older client, and sends welcome, JOINs, notice and the missed pages in that order |
| CommandEffects.LeavingEnds | src/server.rs:689-716 | a clean exit ends the session and takes its principal out of the index and the connected ones only if it is still the acting one |
| CommandEffects.RestartForgetsTheIndex | src/server.rs:58-72 | after a restart no session acts and the index is empty; log, rows and connected marks stay |
| CommandEffects.SessionsBeginAndBreak | src/server.rs:116-171 | what connecting, a wrong token, a task that ends by itself and a closed receiver change |
| MembershipRuns.RowIffBelongs | src/server.rs:781-803 | in every run a principal has a row of a channel if and only if the last of its JOINs and PARTs of it was a JOIN, and its baseline is the channel's maximum when that membership began |
| MembershipRuns.LogIsWhatMembersSaid | src/server.rs:430-448 | in every run the log is exactly the messages of principals to channels they belonged to at that moment and the server's task events, numbered in order |
| MembershipRuns.NothingToNonMembers | src/server.rs:654-687 | in every run, as long as a principal does not belong to a channel nothing of it is sent to the principal unasked |
| MembershipRuns.NothingAfterPart | src/server.rs:415-428 | between a PART and the principal's next JOIN there is neither row nor index entry, and nothing of the channel is sent to it unasked |
| ServerObject.Server.constructor | src/server.rs:58-72 | a new server is in the state of the empty run |
| ServerObject.Server.Send | src/server.rs:849-851 | the line is enqueued exactly when the session has a receiver, which is also the result |
| ServerObject.Server.MarkSeen | src/server.rs:830-845 | raises the cursor of an existing membership to the number, never lowers it, and creates none |
| ServerObject.Server.RecipientsWithIds | src/server.rs:671-687 | enumerates each indexed member with a client exactly once |
| ServerObject.Server.BroadcastMessage | src/server.rs:654-662 | the loop over the recipients performs the broadcast of the state machine |
| ServerObject.Server.BroadcastRaw | src/server.rs:646-652 | the loop enqueues a control line to every recipient and moves no cursor |
| ServerObject.Server.ReplayHistory | src/server.rs:450-477 | the loop over the channels performs the replay of the state machine for each of them in turn |
| ServerObject.Server.ReplayChannel | src/server.rs:459-474 | sends the page and then moves the cursor to the page's maximum, if it lies above the starting point |
| ServerObject.Server.MarkConnectedAndMemberships | src/server.rs:743-763 | marks the principal connected and returns each membership row once with its cursor, ordered by channel |
| ServerObject.Server.RoomsInOrder | src/server.rs:751-753 | the principal's channels, each once, in ascending order |
| ServerObject.Server.IndexSession | src/server.rs:340-362 | an older client of the principal is told to shut down, the session becomes its client and the principal a member of every channel of the snapshot |
| ServerObject.Server.Greet | src/server.rs:364-385 | sends the welcome, one JOIN per channel and, if there are any, the replay notice |
| ServerObject.Server.ReplayMissed | src/server.rs:386-393 | replays each channel from its snapshot cursor, at most 200 messages each |
| ServerObject.Server.RegisterAs | src/server.rs:331-393 | the four parts together are the registration step, shutdown notice included, over the channels in ascending order |
| ServerObject.Server.TryRegister | src/server.rs:310-396 | nothing without token and nick or when already registered; 464 for an unknown token; else the registration step |
| ServerObject.Server.EnsureRegistered | src/server.rs:718-741 | answers the acting principal; refuses an unregistered session with 451 and ends a replaced one |
| ServerObject.Server.Join | src/server.rs:398-413 | performs the join step: membership row, index entry, broadcast of the JOIN line |
| ServerObject.Server.AddMembership | src/server.rs:781-794 | a new row starts at the channel's current maximum; an existing row is left alone |
| ServerObject.Server.Part | src/server.rs:415-428 | performs the part step: row and index entry removed, the PART line broadcast to those who stay |
| ServerObject.Server.AppendAndBroadcast | src/server.rs:440-446 | appends the message and broadcasts it under its number |
| ServerObject.Server.Privmsg | src/server.rs:430-448 | publishes for a durable member, answers 442 to anyone else |
| ServerObject.Server.BroadcastTaskEvent | src/server.rs:612-644 | publishes the event's text in the server's name to the task's channel, under the message's number and the tags that tell of the operation |
| ServerObject.Server.Chathistory | src/server.rs:450-477 | performs the requested replays for the acting principal |
| ServerObject.Server.Connect | src/server.rs:116-148 | a new session has no principal, runs, has a receiver and is greeted |
| ServerObject.Server.Disconnect | src/server.rs:170 | performs the disconnect step of a session whose input ended or that quit |
| ServerObject.Server.ShutDown | src/server.rs:160-171 | a session that was told sends the reason and leaves |
| ServerObject.Server.Leave | src/server.rs:689-716 | removes the index entry and the connected mark only if they are still this session's own |
| StagedRegistration.NothingMissedAcrossStages | src/server.rs:334-393 | with registrations split into their locked parts, overlapping freely, restarts at any time and at most 200 messages above the snapshot at each replay, every message above a member's baseline that is at or below its cursor, or that its reachable session should have, was enqueued at least once to one of its own sessions, or will still be replayed by a registration in progress, or a restart came while it was still to be replayed and the cursor had passed it |
| StagedRegistration.FinishedRegistrationMissedNothing | src/server.rs:386-396 | when the last registration of a reachable principal finishes, every message of each of its channels above the baseline has been enqueued to one of its sessions, but for what an earlier restart left behind |
| StagedRegistration.IndexExactIff | src/server.rs:334-362 | when the session of an unreached principal enters the index, all that lies above a seat's cursor will be replayed if and only if there is nothing, or some registration in progress has still to replay the channel |
| StaleSnapshot.IndexFollowsTheSnapshot | src/server.rs:340-362 | entering the index makes a principal an indexed member of exactly the channels it was one of and those its snapshot has rows of, whether or not they are still memberships |
| StaleSnapshot.APartIsUndoneInTheIndex | src/server.rs:334-362 | a permitted run in which a PART between snapshot and index is undone in the index: without a row the principal is sent the channel's next message |
| StagedRegistration.RestartsAtRestLoseNothing | src/server.rs:334-393 | if the server only ever restarts while no registration of the principal is in progress, everything a seat should have was sent or is still to be replayed, and with no registration in progress everything up to the cursor was sent |
| RestartLosses.SentIffReachedOrReplayed | src/server.rs:334-393 | in every such run, restarts included, a message of a membership was sent unasked if and only if the principal was reached when it was published or some registration of it has replayed the message since |
| RestartLosses.LostByRestartIff | src/server.rs:334-393 | a message is missing after a restart if and only if the cursor had passed it, the principal was not reached when it was published, and none of the registrations that were to replay it then has done so since |
| RestartLosses.LostForGood | src/server.rs:334-393 | what is missing after a restart stays missing for as long as the membership lasts, whatever follows |
| RestartRun.ARestartLosesWhatIsOwed | src/server.rs:334-393 | a run in which a message comes between snapshot and index, a live one follows, and a restart before the replay leaves the cursor above the first, which no session was sent |
| RegistrationCopies.CopiesAcrossRegistrations | src/server.rs:334-393 | a message published while registrations of a principal run is enqueued to it exactly once live, if it is reached at that moment, plus exactly once for each of them that had not yet replayed the channel |
| RegistrationCopies.TwiceIffReachedBeforeReplay | src/server.rs:340-393 | with one registration in progress a message comes twice if and only if it is published before the channel's replay while the principal is reached, as it is once the session is in the index and before that only through an older session; unreached it comes by replay alone, after the replay live alone |
| DuplicateRun.AReconnectingMemberGetsItTwice | src/server.rs:340-393 | a permitted run in which a reconnecting member gets one message exactly twice |
| StagedRegistration.UninterruptedStagesAreOneStep | src/server.rs:310-396 | run without interruption the parts are the one-step registration |
| CursorSteps.CursorsStandOnMessages | src/server.rs:781-845 | in every interleaving of the locked statements a cursor lies between its baseline and the channel's maximum and is the baseline or the number of a stored message of that channel |
| CursorSteps.CursorsNeverGoBack | src/server.rs:830-845 | in every interleaving, while the row is not removed, its cursor never decreases and its baseline stays |
| CursorHistories.RowIffMember | src/server.rs:781-803 | in every interleaving a seat has a row if and only if its last insertion was not followed by a deletion, and the row's baseline is the channel's maximum when the present row was inserted; inserting it again changes nothing |
| CursorHistories.LogIsWhatWasAppended | src/history.rs:27-49 | in every interleaving the log is exactly what idle tasks appended, in that order and numbered from one without a hole |
| CursorHistories.PublisherIffHolds | src/server.rs:440-446 | a task is publishing a message if and only if it appended that message itself and has not stopped since |
| CursorHistories.EnqueuedIffSent | src/server.rs:450-477 | what was enqueued for a seat is exactly what tasks sent it live of the messages they hold and what its replays read from the log |
| CursorHistories.CursorsStandOnSentMessages | src/server.rs:465-473 | sending comes before marking: in every interleaving a cursor is its baseline or the number of a message that was enqueued for that very seat |
| CursorSteps.CrossingPublishersCanLeaveAGap | src/server.rs:440-446 | two publishers whose append and broadcast cross, one of them stopping, leave a cursor above a message that was never enqueued to the member |
| CursorGaps.NeverGapIffNeverSkips | src/server.rs:654-662 | at the grain of locked statements a run never leaves a message between baseline and cursor that was not enqueued if and only if no step marks a number over one that was not |
| CursorGaps.OrderlyPublishersLeaveNoGap | src/server.rs:440-446 | when publishers on a channel do not overlap and each sends to the member before it stops, no interleaving with joins, registrations and asked-for history leaves a gap |
| Tasks.TaskStore.CreateTask | src/tasks.rs:32-49 | a fresh id gets an open, unclaimed row with the clock reading as creation and update time; a taken id fails and changes nothing |
| Tasks.TaskStore.ClaimTask | src/tasks.rs:51-76 | succeeds exactly on an unfinished row that is open, has no lease or whose lease lies before the timestamp, and then holds the claimant and the new lease |
| Tasks.TaskStore.CompleteTask | src/tasks.rs:78-96 | succeeds exactly for the claimant of a claimed row, whatever its lease, and then the row is done and keeps claimant and lease |
| Tasks.TaskStore.ReleaseTask | src/tasks.rs:98-116 | succeeds exactly for the claimant of a claimed row, whatever its lease, and then the row is open without claimant and lease |
| Tasks.TaskStore.List | src/tasks.rs:118-134 | returns the channel's unfinished tasks, each once, in the order of the clock readings of the operations that created them |
| Tasks.RowsKeepTheirOrigin | src/tasks.rs:29-116 | in every run a task exists if and only if it was created, and its channel, title and creation time are those of the first creation under its id, whatever came after |
| Tasks.RowsTellTheirLastChange | src/tasks.rs:29-116 | in every run a row's update time is that of the last operation on it that took effect |
| TaskRuns.ReachableRowsAreShaped | src/tasks.rs:29-116 | in every run a row is open if and only if it has no claimant, and if and only if it has no lease |
| TaskRuns.NullLeaseAddsNoClaim | src/tasks.rs:57-70 | on reachable rows the "no lease" alternative of the claim's guard admits nothing the other two do not |
| TaskRuns.HoldersKeepTheRow | src/tasks.rs:51-116 | from a winning claim until the next win or release the row names the winner and its lease, and is done exactly if it was completed meanwhile |
| TaskRuns.ConsecutiveClaimsAreSeparated | src/tasks.rs:51-76 | between two consecutive successful claims either the first claimer released the task or the second timestamp exceeds the first plus the lease, for any order of timestamps |
| TaskRuns.BothClaimsWinIffLeaseLapses | src/tasks.rs:51-76 | of two claims of an open task in a row the first succeeds, and the second does if and only if the lease has lapsed in between |
| TaskRuns.OnlyTheLatestClaimerSettles | src/tasks.rs:78-116 | a successful done or release is by the latest successful claimer, with no win, release or completion in between |
| TaskRuns.DoneIsFinal | src/tasks.rs:51-116 | after a completion no operation on the task succeeds again |
| TaskRuns.ContestHasOneWinner | src/tasks.rs:51-76 | of claims on an open task with timestamps within one lease of each other the first in lock order succeeds and every other fails, among any other operations |
| TaskLog.EventTextRoundTrip | src/server.rs:489-581 | the text of a task event reads back as its id, verb, actor and title, whatever the title contains |
| TaskLog.LogRebuildsTable | src/server.rs:479-581 | in every run folding the event texts of the log gives each task's channel, title, status and claimant, whatever members said in between |
| ClaimRequests.ClaimedMeansGranted | clients/python/aircd/daemon.py:773-890 | as long as no principal is nicked "aircd" or "server": whatever a daemon reads, tagged notices, replays of logged texts, the server's other notices and anything the principals say, a claim request that resolves as claimed belongs to a principal to whom the server granted the task |
| ClaimRequests.OnlyTheRecordedClaimerIsTold | clients/python/aircd/daemon.py:840-890 | under the same condition, in a race for an open task, with all these messages in any order, the only daemon whose request can resolve as claimed is that of the claimant the table records |
| ClaimRequests.AnswersAreOutcomes | clients/python/aircd/daemon.py:840-890 | under the same condition whatever a claim or completion request resolves to is the outcome of an operation of its own principal: claimed and done of one that succeeded, failed of one that failed |
| ClaimRequests.NoticeAnswers | clients/python/aircd/daemon.py:840-863 | a tagged notice answers failed to the request whose operation failed, claimed or done to the one that succeeded under this nick, and nothing to any other; a pending task list hides it |
| ClaimRequests.FailureTextAnswers | clients/python/aircd/daemon.py:866-879 | without tags the text of a failed claim or completion answers failed |
| ClaimRequests.TextJudged | clients/python/aircd/daemon.py:864-890 | an event text without task tags answers a waiting claim with claimed if and only if it tells of a claim of that task by this daemon's nick, and never with failed |
| ClaimRequests.DoneTextJudged | clients/python/aircd/daemon.py:880-890 | an event text without task tags answers a waiting completion with done if and only if it tells of a completion of that task by this nick |
| ClaimRequests.ATrustedNickAnswers | clients/python/aircd/daemon.py:841-890 | an event's text said by a principal nicked "aircd" or "server" answers any claim request with claimed, though nothing was granted |
| ClaimRequests.WronglyToldIff | clients/python/aircd/daemon.py:841-890 | a claim request that is not granted can still be answered with claimed if and only if this principal had been granted the task before, or the id is a token and some principal has one of the two trusted nicks |
| ClaimRequests.AnOldTextAnswersANewClaim | clients/python/aircd/daemon.py:864-890 | a run in which a principal that released a task asks for it again, is refused because another holds it, and is told claimed by the replay of its old text |
| ClaimContests.EveryoneHearsTheOutcome | clients/python/aircd/daemon.py:840-890 | in a race every daemon that claimed once hears the outcome of its own claim as soon as anything it reads tells of it, and only then: the first claimer claimed, every other failed |
| TaskNotices.SuccessLineIsItsNotice | src/server.rs:612-644 | the broadcast line of a successful operation, with its task tags, reads as that operation's tagged notice with the logged text as content |
| TaskNotices.FailureLineIsItsNotice | src/server.rs:502-515 | the answer to a failed operation reads as its tagged notice |
| TaskNotices.SuccessLineAnswers | src/server.rs:612-644 | read by a daemon, the broadcast answers claimed or done to the request of the actor and nothing to anyone else's |
| TaskNotices.FailureLineAnswers | src/server.rs:502-515 | read by a daemon, the refusal answers failed to the request it refuses and nothing to another |
| TaskNotices.FailureBodyWords | src/server.rs:505-512 | the refusal repeats verb and id of the command and says that it failed |
| TaskNotices.FailureBodyAnswers | src/server.rs:505-512 | its text alone answers failed, whatever the error says |
| TaskNotices.TitleIsATag | src/server.rs:631-633 | the broadcast carries the title as a tag if and only if there is one |
| TaskNotices.SuccessIsDeliverable | src/server.rs:612-644 | the broadcast of an operation that took effect is among what may reach any daemon |
| TaskNotices.FailureIsDeliverable | src/server.rs:502-515 | the refusal is among what may reach the daemon of its principal |
| TaskNotices.ReplayedLineIsItsText | src/server.rs:461-468 | the replayed line of any logged event, creations included, reads as its text without any task tag |
| TaskNotices.OtherLineIsOther | src/server.rs:479-489 | the server's other notices, the lines of a task list whatever the title among them, read as messages that answer no claim request |
| Tags.EscapeTagValue | src/server.rs:1049-1062 | the loop computes the escaping function |
| Tags.UnescapeTagValue | clients/python/aircd/client.py:384-412 | the loop computes the unescaping function, with a lone trailing backslash kept |
| Tags.ReadTags | clients/python/aircd/client.py:347-355 | the loop reads each part up to its first equals sign and unescapes the rest; a later key wins |
| Tags.UnescapeEscape | src/server.rs:1049-1062 | unescaping undoes escaping for every value |
| Tags.EscapeIsClean | src/server.rs:1049-1062 | an escaped value holds no semicolon, blank, return or newline |
| Tags.TagsRoundTrip | src/server.rs:1030-1038 | a printed tag list with distinct plain keys and any values reads back as its map |
| ClientParser.ParseIrcLine | clients/python/aircd/client.py:335-374 | the parser with its tag loop computes the parsing function, and fails where the code does |
| ClientParser.LineRoundTrip | clients/python/aircd/client.py:335-374 | a printed line with tags reads back as prefix, verb, channel, body and tag map; only an empty body loses its parameter |
| ClientParser.UntaggedRoundTrip | clients/python/aircd/client.py:335-374 | a printed line without tags reads back as prefix, verb, target and body with no tags |
| ClientParser.MessageRoundTrip | clients/python/aircd/client.py:275-298 | a chat line, live or replayed, becomes a message with the server's number, id, sender, channel, body and replay mark |
| ClientForms.RaisesIff | clients/python/aircd/client.py:335-375 | the parser rejects a line if and only if its tags, or the prefix behind them, go on to the end of the line |
| ClientForms.ControlRoundTrip | clients/python/aircd/client.py:335-375 | a control line such as a JOIN reads back as prefix, verb and channel, and is no message |
| ClientForms.NickBeforeBang | clients/python/aircd/client.py:377-381 | the sender is what stands before the first exclamation mark of the prefix |
| ClientForms.MessageIff | clients/python/aircd/client.py:273-300 | a tagged line becomes a message if and only if it is a PRIVMSG or a NOTICE with a text; its number is that of the sequence tag if it reads as one, and it is a replay if and only if the tag says 1 or a batch is named |
| ClientForms.OtherEscapes | clients/python/aircd/client.py:384-412 | a backslash before any other character stands for that character, and alone at the end for itself |
| ClientForms.BareAndRepeatedTags | clients/python/aircd/client.py:349-357 | a part without an equals sign is a tag without a value, and the last of several parts with one key decides |
| CommandCodec.MembershipCommandsRoundTrip | src/protocol.rs:35-71 | rendered JOIN and PART parse back with their channel |
| CommandCodec.TaskCommandsRoundTrip | src/protocol.rs:115-132 | rendered TASK CLAIM, DONE, RELEASE and LIST parse back with their argument |
| CommandCodec.PrivmsgRoundTrip | src/protocol.rs:35-71 | a rendered PRIVMSG parses back with its target and its text less trailing whitespace |
| CommandCodec.TaskCreateRoundTrip | src/protocol.rs:115-132 | a rendered TASK CREATE parses back with its channel and its title less trailing whitespace |
| CommandCodec.HistoryRoundTrip | src/protocol.rs:73-113 | a rendered CHATHISTORY parses back with its channel; each number survives if it fits 64 signed bits and becomes the default otherwise |
| CommandForms.SignOnRoundTrip | src/protocol.rs:35-71 | token, nick and user name come back from the lines a client signs on with; QUIT, PING and PONG are read as such |
| CommandForms.CapabilitiesRoundTrip | src/protocol.rs:35-71 | the capabilities asked for come back one by one |
| CommandForms.VerbsIgnoreCase | src/protocol.rs:35-71 | a command is read alike whatever the case of its verb |
| CommandForms.UpperAt | src/protocol.rs:38 | upper case changes exactly the small ASCII letters, each to its capital |
| CommandForms.WordsAreText | src/protocol.rs:35-71 | without a colon text and title are the remaining words with one blank in between |
| CommandForms.BareVerbs | src/protocol.rs:35-71 | missing arguments are read as empty, missing numbers as 0 and 100 |
| CommandForms.HistoryForms | src/protocol.rs:73-113 | history by HISTORY, without AFTER, with AFTER but no channel, and with a channel but no numbers |
| CommandForms.PrefixIsSkipped | src/protocol.rs:134-150 | a prefix in front of a command is skipped |
| CommandForms.TagsAreSkipped | src/protocol.rs:134-150 | so are tags |
| CommandForms.OthersAreUnknown | src/protocol.rs:35-71 | a verb outside the protocol is reported by its name in upper case |
| Relay.ChannelsAreNormal | src/server.rs:1007-1016 | any channel name loses the whitespace around it and gets a hash unless it has one, a blank one becomes #demo, and a normal one stays |
| Relay.PeerReceivesTheText | clients/python/aircd/client.py:197-199 | through rendering, framing, parsing, broadcast or replay, framing and parsing, a peer receives the sender's text less trailing whitespace, on the channel with its hash, under the server's number and id, and no message if and only if nothing is left of the text |
| TaskListCodec.NoticeTextRoundTrip | clients/python/aircd/daemon.py:815-834 | the daemon's pattern recovers id, channel, status, claimant and title from the printed notice, whatever the title contains |
| TaskListCodec.NoticeTextWords | src/server.rs:594-607 | the notice's words are the task's id, channel, status, claimant and lease, each under its name, and then the title |
| TaskListCodec.TaskListRoundTrip | src/server.rs:594-607 | the same through the printed line, the client's parser and the daemon's filters |
| DeliveryIds.FirstMarkDecides | clients/python/aircd/daemon.py:901-906 | the id is the longest run of id characters behind the leftmost mark that has one behind it |
| DeliveryIds.NoIdIffUnmarked | clients/python/aircd/daemon.py:901-906 | no id is found if and only if no mark in the line has an id character behind it |
| DeliveryIds.KeyIsTheServersId | clients/python/aircd/daemon.py:901-906 | the id the daemon searches for in a raw broadcast line, live, replayed or of a task event, is the id the server gave the message, whatever the sender, text and later tags contain |
| Dedup.TouchIsTake | clients/python/aircd/daemon.py:907-913 | one arrival at the ordered map commutes with keeping the most recent ids of the unbounded recency order |
| Dedup.SeenIsTheRecentWindow | clients/python/aircd/daemon.py:907-913 | after any stream of ids the ordered map read newest first is the first MAX_DEDUP_ENTRIES of the stream's distinct ids by last occurrence |
| Dedup.PositionCountsLaterIds | clients/python/aircd/daemon.py:907-913 | an id stands in the recency order behind exactly the distinct ids that came after its last occurrence |
| Dedup.AdmittedIffForgotten | clients/python/aircd/daemon.py:907-913 | an id passes the dedup if and only if it never came before or at least the capacity of other ids came since |
| Dedup.AdmittedTwiceNeedsAFullWindow | clients/python/aircd/daemon.py:907-913 | an id admitted twice has at least the capacity of other distinct ids between the two occurrences |
| DeliveryFacts.DrainConserves | clients/python/aircd/daemon.py:217-225 | putting a batch in flight loses nothing but what it pushes out under the same key |
| DeliveryFacts.UnknownAcksChangeNothing | clients/python/aircd/daemon.py:236-243 | acknowledging ids that are not in flight changes nothing |
| DeliveryFacts.RemovingExpiredKeepsTheRest | clients/python/aircd/daemon.py:964-973 | deleting the expired entries by key leaves exactly the others in their order |
| DeliveryRuns.EveryAcceptedMessageIsAccountedFor | clients/python/aircd/daemon.py:206-243 | in every interleaving the accepted messages are, with multiplicity, those pending, held by a write, in flight, acknowledged, written, dropped by the busy bound or overwritten under the same key |
| DeliveryRuns.AcceptedMessagesAreInOnePlace | clients/python/aircd/daemon.py:206-243 | when no arriving key is that of a message still held, nothing is overwritten and every accepted message is in exactly one of the other six places |
| DeliveryRuns.OverwritingNeedsAForgottenId | clients/python/aircd/daemon.py:901-913 | unless an id came twice with at least MAX_DEDUP_ENTRIES other ids in between, nothing is overwritten and every accepted message is in exactly one place |
| DeliveryRuns.InFlightIsAMap | clients/python/aircd/daemon.py:221-225 | in every run the in-flight map holds no key twice |
| DeliveryRuns.MemoryFollowsTheIds | clients/python/aircd/daemon.py:901-913 | in every run the id memory is the dedup memory of the ids received |
| DeliveryRuns.WaitingIsTheNewestInOrder | clients/python/aircd/daemon.py:917-931 | as long as nothing had to be requeued, what waits is the newest of the accepted messages in the order they came |
| DeliveryRuns.NothingIsStranded | clients/python/aircd/daemon.py:560-706 | in every interleaving a message waits beside an idle living process only after a write to it failed, none waits without a process, and busy implies a process |
| DeliveryRuns.BetweenHandlers | clients/python/aircd/daemon.py:975-999 | between handlers pending messages imply a process that is busy or whose last batch failed, no process implies nothing pending, busy implies a process |
| ProcessRuns.ProcessLivesUntilEnded | clients/python/aircd/daemon.py:560-672 | in every run a process stays the current one exactly until its own end of output or a watchdog that found it stuck while busy, and never comes back |
| ProcessRuns.AHealthyAgentIsLeftAlone | clients/python/aircd/daemon.py:645-652 | a watchdog that finds nothing stuck or no turn in progress changes nothing |
| ProcessRuns.BusyFollowsTheTurns | clients/python/aircd/daemon.py:560-706 | in every run the agent is busy after a start or a successful write until a result is read or the process ends |
| DeliveryRuns.FailedWriteRestoresTheBatch | clients/python/aircd/daemon.py:692-706 | after a failed write the queue is the batch again in its order, whatever the HTTP thread did meanwhile, and the agent is idle |
| DeliveryRuns.FailedWriteLeavesItWaiting | clients/python/aircd/daemon.py:702-706 | a run in which a failed write leaves a message waiting beside an idle process: the exception is real |
| DeliveryRuns.NextArrivalTakesEverything | clients/python/aircd/daemon.py:676-706 | what waits after a failed write is taken whole and in order with the next message that arrives |
| DeliveryGuarantee.AtLeastOnceIffNoStepLoses | clients/python/aircd/daemon.py:206-243 | every accepted message is pending, held, in flight or acknowledged after exactly those runs in which no message overflows a busy agent's queue, no batch is handed to the agent's input and no key is taken over |
| DeliveryGuarantee.FreshDeliveryIsAtLeastOnceIff | clients/python/aircd/daemon.py:206-243 | with fresh keys the first two conditions suffice |
| DeliveryGuarantee.AMessageWrittenToADyingAgentIsGone | clients/python/aircd/daemon.py:676-706 | a run after which an accepted, unacknowledged message is nowhere in the daemon's hands |
| DeliveryGuarantee.ABusyAgentLosesTheFirst | clients/python/aircd/daemon.py:917-921 | a run: of 201 messages that come to a busy agent the first, which was accepted, is dropped |
| Visibility.EntriesSurviveOneReaping | clients/python/aircd/daemon.py:959-989 | in every timely run no in-flight entry was delivered more than the timeout before the last reaping |
| Visibility.NoEntryOutlivesTheBound | clients/python/aircd/daemon.py:975-989 | with the reaper never away for more than G no unacknowledged entry gets older than the timeout plus G, plus the lag between reading the clock and taking the lock |
| Visibility.FortyFiveSeconds | clients/python/aircd/daemon.py:975-989 | with the coded half period kept the bound is 45 seconds |
| Visibility.TheBoundIsReached | clients/python/aircd/daemon.py:975-989 | the bound cannot be lowered: with the coded period and any lag up to it there is a timely run in which an unacknowledged entry is 45 seconds plus the lag old just before the next reaping |
| Visibility.ExpiredAreOld | clients/python/aircd/daemon.py:964-968 | the messages requeued are exactly those delivered more than the timeout ago |
| AgentObject.AgentState.constructor | clients/python/aircd/daemon.py:62-73 | the state of the empty run |
| AgentObject.AgentState.RequeueExpired | clients/python/aircd/daemon.py:959-973 | the queue becomes the expired messages in reverse order of delivery followed by what waited; the map keeps the others in order |
| AgentObject.AgentState.DrainToInFlight | clients/python/aircd/daemon.py:219-229 | the loop empties the queue, returns it in order and puts each message in flight |
| AgentObject.AgentState.TakeMessages | clients/python/aircd/daemon.py:215-229 | requeueing and draining under one lock return the expired messages and then the pending ones |
| AgentObject.AgentState.CheckMessages | clients/python/aircd/daemon.py:206-230 | performs the check step; everything returned is in flight under its key and nothing is left pending |
| AgentObject.AgentState.DeleteAcked | clients/python/aircd/daemon.py:239-242 | the loop removes the acknowledged keys and counts those that were there |
| AgentObject.AgentState.AckMessages | clients/python/aircd/daemon.py:230-243 | performs the ack step; afterwards exactly the keys not acknowledged are in flight, and the queue is untouched |
| AgentObject.AgentState.Admit | clients/python/aircd/daemon.py:907-913 | an unknown id is new and evicts the oldest beyond the capacity, a known one moves to the end |
| AgentObject.AgentState.OnMessage | clients/python/aircd/daemon.py:901-931 | performs the receive step: duplicates change no queue, a busy agent's full queue loses its oldest message, everything else is appended |
| AgentObject.AgentState.OnResult | clients/python/aircd/daemon.py:605-614 | performs the step of a result event, from whichever reader |
| AgentObject.AgentState.OnEof | clients/python/aircd/daemon.py:570-587 | performs the step of an end of output; a reader of another process changes nothing |
| AgentObject.AgentState.OnWatchdog | clients/python/aircd/daemon.py:638-672 | not stuck, not busy or without a process everything is as before; otherwise process and busy mark go, everything else stays, and a start follows exactly if something waits |
| AgentObject.AgentState.OnReap | clients/python/aircd/daemon.py:975-999 | performs the reaper's step and chooses between restart, notification and delivery |
| AgentObject.AgentState.TakeBatch | clients/python/aircd/daemon.py:676-688 | takes the whole queue in order if there is a process, nothing otherwise |
| AgentObject.AgentState.WriteBatch | clients/python/aircd/daemon.py:696-703 | a successful write makes the agent busy, a failed one leads to putting the batch back |
| AgentObject.AgentState.PutBack | clients/python/aircd/daemon.py:704-706 | the batch returns to the front of the queue in its order |
| AgentObject.AgentState.DeliverPendingIdle | clients/python/aircd/daemon.py:676-706 | undisturbed, a successful delivery empties the queue and a failed one leaves queue and ledger as they were |
| AgentObject.AgentState.StartProcess | clients/python/aircd/daemon.py:480-558 | a new process generation starts busy and the queue stays as it is |
| Store.Database.AddToken | src/store.rs:123-159 | adds a row hashing the given token, or refuses a second row under the same principal and label |
| Store.Database.SeedPrincipal | src/store.rs:123-159 | an existing id or token is left alone; a new principal gets its row and a mirrored token |
| Store.Database.BackfillPrincipalTokens | src/store.rs:193-223 | every principal without a token row, in the query's order, gets one hashing its current token |
| Store.Database.Init | src/store.rs:90-104 | seeding and backfilling in sequence compute the migration function |
| Store.MigrationReachesAFixpoint | src/store.rs:90-223 | from any database with unique tokens and no orphan rows a run succeeds, keeps what was there, leaves every principal with a token row, hashes each added row from its principal's current token, and a second run changes nothing |
| StoreRuns.InsertAddsOneRow | src/store.rs:123-159 | inserting a token adds exactly one row, of that principal and label and verifying that token, or is refused if that pair has one already |
| StoreRuns.RunAddsWhatIsMissing | src/store.rs:90-223 | a run adds exactly the seed rows of new seed principals and one migrated row for each principal that had none, and changes no other |
| StoreRuns.ANewDatabaseGetsTheSeeds | src/store.rs:93-99 | a run on an empty database gives the coded principals with their tokens, and no others |

## Left out

- Sockets, TLS, task plumbing and line reading: a session is an outbound queue with an open or closed receiver, and claims stop at "enqueued".
- SQLite: tables are maps and sequences, each locked statement is one step, and errors of the database are not modelled.
- Outbound queues and sessions as objects: the lines of all sessions form one list in the order they were accepted, and a session is a value in a table keyed by its id, so aliasing of channel handles is not captured.
- Password hashing, random ids and clock readings: a hash verifies exactly its plaintext, fresh ids and timestamps are parameters.
- Iteration orders of hash sets: any enumeration is allowed. The state machine also allows any order of the membership rows; the server object takes them in the query's order.
- `principals.last_seen_seq` (written, never read) and the display names in control lines, which the model writes as principal ids.
- 64-bit overflow of a timestamp plus the lease, and of sequence numbers.
- Unicode whitespace and case mapping: both ends share the ASCII set.
- Answers to CAP, PING and QUIT beyond reading the command, the channel normalisation of every command except PRIVMSG, the client's reconnect backoff and its local copy of the last numbers seen, the daemon's outgoing queue and the bridge: thin wrappers.
- A history or task-list request of the daemon that consumes messages before they are accepted, and the debounced busy notification: conservation starts at the accept point.
- Exceptions from spawning the agent process, its initial prompt and its stderr; a reader may belong to any process generation.
- An id-less message whose made-up delivery id ("noid_" and a number) equals a server id: the two kinds of ids are kept apart. Object identities may be reused once the message is gone.
- A principal whose id is the server's own name, under whose nick the server's logged texts would be replayed.
- Lenient number parsing of the client for the sequence tag (underscores, blanks).
- StagedRegistration.NothingMissedAcrossStages: registering sessions keep their receiver and read no command meanwhile; what a closed receiver does to a registration is stated over whole commands, in BouncerLimits.
- Visibility.NoEntryOutlivesTheBound: assumes a clock that never runs backwards; the code reads the wall clock.
