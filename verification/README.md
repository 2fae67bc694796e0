# Durable background agents: a verified model

The repository runs background agents whose claims survive the process that made
them. This project models its five hardest parts and proves what they promise.

**The lease and generation store.** The tables are maps and sequences (`Types`), a
committed transaction is a list of row changes (`Changes`), and every public operation
is one transaction that reconciles expired claims first and then commits or rolls back
as a whole (`Transactions`). `Stores` is the imperative store: an object that checks its
inputs (`Inputs`), updates its rows in place, loops over selected rows, and restores its
tables on an error. Each of its operations is proved to leave exactly what its
transaction specifies. A history
is any sequence of requests by any stores under any clock readings (`Legality`), and
the properties below are about every state of every history: coherence and capacity
(`Schema`, `Coherence`), fencing (`Fencing`), what never changes again (`Evolution`,
`Idempotence`, `Identities`), exactly-once notices that stay true (`Notifications`,
`JoinedNotices`, `NoticeTruth`, `NoticeTexts`, `Acknowledgment`), first-in-first-out
steering (`Steering`, `Pump`, `Repeats`) and what single operations mean for their
callers (`Outcomes`). `WorkerAnswers`, `CallerAnswers` and `MailboxAnswers` say of every
operation from which callers and in which states it is accepted, with what error it is
refused otherwise, what it answers and which rows it leaves.

**The ownership protocol.** Spawn and follow-up calls, their setups, runners and
cleanups, and the shutdown are goroutines with program counters (`Protocol`). A step
is one critical section, one channel operation, one cancellation or one store
transaction, and any other process may use the stores in between. Invariants over
every interleaving (`Ownership`, `Shutdown`, `ClientFence`) give the drained shutdown
and the fence around an open client; `Steps`, `FirstPass`, `Crossings` and `FirstRun`
say what a single pass of the shutdown achieves, `Owners` whom a cancellation stops, and
`Decisions` on which earlier step a setup or a written failure rests. `Sections` is the runtime object
itself: each of its critical sections updates the maps in place and is proved to be the
protocol's step.

**Lifecycle mail and its budget.** UTF-8 (section 4 of RFC 3629) as the encoding of
Unicode scalar values (`Texts`, `Scalars`), JSON escaping (section 7 of RFC 8259, with
the five further escapes of Go's encoder) and its decoder (`JsonText`, `JsonDecoding`),
the rune-start cut and the binary search for the longest body that fits (`MailBudget`,
`Lifecycle`), and every stored mail can be read (`Budgets`, `Reading`).

**The symlink resolver** (`Paths`) over an arbitrary file system, against pathname
resolution with a worklist (section 4.13 of IEEE Std 1003.1-2017).

**Content-Length framing** (`Framing`, `Headers`), the base protocol of the Language
Server Protocol 3.17.

Five statements one might expect turn out false of the code, and the model says
exactly when they hold.

- Resolving a path twice is resolving it once. It is, if and only if walking the result
  follows no link or the first one it follows leads back to it (`Paths.StableIff`). So it
  is whenever the path is located, also across links that cannot be read
  (`Paths.ResolveIsPathnameResolution`), and when no ".." comes behind a missing entry
  (`Paths.MissingIsKept`). It may not be when one does
  (`Paths.MissingParentIsNotStable`), or when the hops run out: a chain of links is
  stable if and only if there are no more links than hops (`Paths.ChainStableIff`).
- A cached root identity stays right. It does as long as its conversation has not been
  attached to an agent, and nothing prevents that (`Identities.RootIdentityIsStable`,
  `Identities.RootMayBecomeChild`).
- Repeating a committed acknowledgement of a steering message is harmless. It deletes
  another message if and only if the repeat is still accepted and, in between, a message
  was queued for the agent while the largest id in the table was the one before the
  acknowledged one, as rowids are reused (`Repeats.RepeatDeletesReissued`,
  `Repeats.RepeatLosesMessage`). This is a statement about the store: the pump repeats
  only after a busy or locked error, and whether such an error may follow a commit is
  SQLite's to say, which is not part of this model.
- One pass of the shutdown leaves no live runner behind. A runner it leaves behind was
  launched by a setup the pass took and had not canceled yet
  (`FirstPass.FirstPassLeaves`); some continuation leaves one if and only if the pass
  takes a setup that is not canceled and about to launch, or about to renew an active
  claim (`Crossings.FirstPassLeaksExactly`), and a run of a single spawn gets there
  (`FirstRun.FirstPassDoesNotSuffice`).
- An outcome that has been acknowledged leaves no unread notice. It does not, if and only
  if its claim had been released by then (`Acknowledgment.GuardMeansOver`,
  `Acknowledgment.AcknowledgedForGood`, `Acknowledgment.EarlyAcknowledgementIsLost`).

`dafny verify dfyconfig.toml` checks the whole project.

## Model

| member | source | states |
|---|---|---|
| `Legality.ReachableIsCoherent` | internal/db/store_worker.go:21-292 | every state any history of requests reaches from an empty database satisfies the whole invariant: schema constraints, generations exactly 1 to the current one, the active run last, statuses that agree, leases exactly where an agent is held, queues, notices and capacity |
| `Coherence.ChangeKeepsRows` | internal/db/migrations/0002_canceling_state.sql:28-46 | agent and run rows stay coherent and keep the CHECK, UNIQUE and FOREIGN KEY constraints through every legal change |
| `Coherence.ChangeKeepsCapacity` | internal/db/store_agents.go:14-39 | at most 3 held agents per owner and 8 in all after every legal change |
| `Coherence.ChangeKeepsQueue` | internal/db/store_agents.go:216-221 | every queued message stays keyed to its agent's current run, in id order, through every legal change |
| `Coherence.ChangeKeepsInv` | internal/db/store_agents.go:161-306 | every legal change keeps the whole invariant |
| `Legality.TransactionLegal` | internal/db/store.go:160-178 | whatever a request commits is a sequence of legal changes, whichever clock and scan order it sees |
| `Legality.ServeKeepsInv` | internal/db/store.go:160-178 | one transaction, committed or rolled back, keeps the invariant |
| `Reconciliation.ReconcileIsExact` | internal/db/store_worker.go:21-48 | reconciliation ends exactly the claims whose leases expire by the cutoff, changes no other row, returns their number and leaves no such claim |
| `Reconciliation.ReleaseAllEffect` | internal/db/store_worker.go:34-46 | releasing selected claims ends each once, a canceling agent becoming canceled and any other interrupted, in any scan order |
| `Reconciliation.ImportLeavesNoClaim` | internal/db/import.go:97-112 | with a cutoff above every expiry no agent stays held and no run active |
| `Reconciliation.NoHolderNoActiveRun` | internal/db/import.go:96-112 | in a coherent database a run is active only under a held agent |
| `Fencing.OneLeaseMatches` | internal/db/store_validation.go:15-61 | a lease passes the ownership guards if and only if it is the one recorded with a held agent, under this runtime and not yet expired |
| `Fencing.FencedOut` | internal/db/store_validation.go:50-98 | a worker request whose lease does not match leaves the database as it was, or exactly as reconciliation alone does |
| `Fencing.OnlyHolderEndsClaim` | internal/db/store_worker.go:50-96 | an unexpired claim survives every request but its holder's own ending and its runtime's interruption, under the same lease |
| `Evolution.HistoryEvolves` | internal/db/store_worker.go:241-292 | over any history ended runs keep their rows, attached agents stay with owner, name and child, releases and first starts are irreversible, rooms and events stay, mails only gain a read time, and nothing is announced late |
| `Idempotence.RecordedForGood` | internal/db/store_worker.go:241-248 | a recorded outcome and its run row stay as they are in every continuation |
| `Idempotence.FinishIsIdempotent` | internal/db/store_worker.go:211-292 | once committed, the same outcome is accepted again in every later state and has no effect beyond reconciling |
| `Notifications.TerminalNoticeOnce` | internal/db/store_mail_events.go:33-48 | a request that ends a held run publishes, in the same transaction, one event with copies for main and every other agent of the room if mail is enabled and the room exists, and nothing otherwise |
| `Notifications.TerminalNoticeIsFinal` | internal/db/store_mail_events.go:63-94 | once a run is over, no later request publishes its event or adds or removes a copy |
| `Notifications.HeldIsUnpublished` | internal/db/store_mail_events.go:66-76 | a run that still holds its claim has no terminal event or copy, so the conflict branch of the insert is unreachable for it |
| `Notifications.PublishReaches` | internal/db/store_mail_events.go:65-94 | publishing reaches exactly the inboxes of the room, without the agent's own |
| `NoticeTruth.ReachableNoticesAreTrue` | internal/db/store_mail_events.go:33-48 | in every reachable database each notice has its agent's name and its run's task, and each terminal notice the status and error its run has |
| `NoticeTexts.SubjectTells` | internal/db/store_mail_events.go:46-47 | from the subject and the kind a reader gets back the agent's name and the run's status as the runs table names it |
| `NoticeTexts.TerminalBodyTells` | internal/db/store_mail_events.go:41-45 | the first two lines of the body name the agent and the run, the last one the outcome, and an error follows |
| `NoticeTexts.JoinedBodyTells` | internal/db/store_mail_events.go:26-28 | the first two lines of an announcement name the contact and the agent |
| `JoinedNotices.JoinedNoticeOnce` | internal/db/store_worker.go:193-203 | an agent that has not started is announced exactly when its first start is committed with mail enabled and the room present; failed startups leave it unannounced |
| `JoinedNotices.JoinedNoticeIsFinal` | internal/db/store_mail_events.go:14-29 | after the first start neither marking again nor a follow-up announces the agent |
| `Acknowledgment.GuardMeansOver` | internal/subagent/wait.go:35-39 | the wait's guard holds if and only if the run's claim has been released |
| `Acknowledgment.AcknowledgedForGood` | internal/subagent/wait.go:35-43 | after a wait's acknowledgement commits, main has no unread terminal notice of that run in any later state |
| `Acknowledgment.EarlyAcknowledgementIsLost` | internal/subagent/wait.go:36-38 | from every state in which the run is still held in an open room, acknowledging and then letting the lease expire leaves an unread notice |
| `Steering.ChangeBalances` | internal/db/store_steering.go:120-125 | every change keeps the ledger of one agent's queue, sent equal to acknowledged followed by pending, if deletions are in order |
| `Steering.OldestIsHead` | internal/db/store_steering.go:79-84 | the oldest message of the current run is the head of the agent's queue |
| `Pump.ServeHolds` | internal/subagent/steering.go:14-27 | the message a claim was given stays the oldest of its agent until its holder acknowledges it, for as long as the run goes on |
| `Pump.SteeringIsFifo` | internal/subagent/steering.go:14-27 | if each acknowledgement is of the message last given, what was sent since the queue was last discarded is what was acknowledged followed by what is pending, through every finish, interruption, expiry and follow-up |
| `Repeats.RepeatDeletesReissued` | internal/db/store_steering.go:97-118 | over any history since a committed acknowledgement, repeating it deletes a message if and only if the claim's guard still passes and a message was queued for the agent while the largest id in the table was the one before |
| `Repeats.RepeatLosesMessage` | internal/db/migrations/0001_initial.sql:60-71 | from every coherent state whose only message is the oldest of a running claim, serving an acknowledgement, a new message and the acknowledgement again loses the new message, which nobody was given, if and only if the first had the first id |
| `Identities.ChildResolves` | internal/db/store_mail_read.go:32-39 | a conversation resolves to the one agent whose child it is |
| `Identities.ChildIdentityIsStable` | internal/db/store_mail_read.go:17-40 | a conversation that resolves to an agent resolves to it in every later state |
| `Identities.CachedChildrenStay` | internal/subagent/mailbox.go:36-52 | the children in the never-invalidated cache stay right over any history |
| `Identities.RootIdentityIsStable` | internal/db/store_mail_read.go:32-36 | a root's answer stays the same if and only if no agent has its conversation as child |
| `Identities.RootMayBecomeChild` | internal/db/store_worker.go:98-109 | from every state with an unattached live startup its holder may attach a root conversation, and the root's answer changes |
| `IdentityCache.Cache.Fill` | internal/subagent/mailbox.go:46-52 | a success is cached, and children in the cache stay sound whatever other processes have committed since the lookup |
| `IdentityCache.Cache.Identify` | internal/subagent/mailbox.go:27-53 | a cached answer is returned without the store, a miss asks the store and caches a success, others may commit between the two, and children in the cache stay sound |
| `Budgets.ReachableIsReadable` | internal/db/store_mailbox.go:158-160 | every mail of every reachable database fits the read budget |
| `Budgets.ChangeKeepsReadable` | internal/db/store_mail_events.go:83-92 | so it stays through every legal change, if a posted message has been checked |
| `Reading.CollectIs` | internal/db/store_mail_read.go:146-162 | a read collects exactly these mails if and only if all are in the caller's inbox and together fit the budget |
| `Reading.OneMailCanBeRead` | internal/db/store_mail_read.go:130-179 | a mail of the caller that fits the budget, as every stored mail does, can be read alone |
| `Outcomes.RenewalLasts` | internal/db/store_worker.go:294-318 | after a heartbeat the same lease passes the guards at exactly the times before a minute from now |
| `Outcomes.CancelKeepsFence` | internal/db/store_agents.go:271-290 | canceling a live claim ends its run, discards its queue, announces nothing yet and leaves its holder the lease for a minute |
| `Outcomes.ClaimStartsNext` | internal/db/store_agents.go:194-225 | a follow-up holds the next generation for a minute and leaves every earlier run, every pending message and every other agent as it was |
| `Outcomes.AbortUndoesCreate` | internal/db/store_agents.go:232-258 | aborting a first reservation right after it restores the whole database |
| `Outcomes.AbortAccepted` | internal/db/store_agents.go:239-251 | and is accepted from its holder until its lease ends |
| `Outcomes.SentIsReadable` | internal/db/store_mailbox.go:132-170 | a sent mail is the last of all, and its recipient reads it as it was sent |
| `WorkerAnswers.ActiveGuard` | internal/db/store_validation.go:50-73 | the guard of active claims lets the holder of an unexpired active claim pass and nobody else; a run unknown for the agent is not found, any other claim is lost |
| `WorkerAnswers.HolderStays` | internal/db/store_worker.go:21-48 | reconciling first neither makes nor ends a holder, nor touches its row |
| `WorkerAnswers.FinishAnswers` | internal/db/store_worker.go:241-273 | the holder's outcome is accepted if and only if its claim is active, its conversation does not contradict the child and is no other agent's, and a completion finds a running agent with a non-empty conversation; every other case has its error |
| `WorkerAnswers.FinishLeaves` | internal/db/store_worker.go:274-292 | afterwards agent and run have the status of the outcome, the agent has no lease, the run has just this result and error, and the answer shows these rows |
| `WorkerAnswers.FinishServed` | internal/db/store_worker.go:211-292 | the same for a request served from any coherent state, whatever is reconciled first |
| `WorkerAnswers.CompleteCancelAnswers` | internal/db/store_worker.go:331-366 | the answer is true for the holder of a canceling claim and for a complete cancellation, false if and only if the run is not the active one or its agent is neither canceling nor canceled, and an error in every other case |
| `WorkerAnswers.TrueMeansCanceled` | internal/db/store_worker.go:73-96 | whenever the answer is true the agent is canceled without a lease and its run is over, and no other row has changed |
| `WorkerAnswers.RenewAnswers` | internal/db/store_worker.go:294-318 | a heartbeat is accepted from the holder of a claim in the status it is for, and answers a minute from now |
| `WorkerAnswers.AbortAnswers` | internal/db/store_agents.go:232-258 | only the holder of an unstarted first reservation may abort it; an unknown run is no error, a started one a conflict |
| `WorkerAnswers.AbortLeaves` | internal/db/store_agents.go:248-256 | an abort removes the agent with its runs and messages and nothing else |
| `WorkerAnswers.AttachAnswers` | internal/db/store_worker.go:98-158 | a conversation is attached by the holder alone, if it is the agent's already or nobody's to an agent without one, and only that column changes |
| `WorkerAnswers.MarkRunningAnswers` | internal/db/store_worker.go:161-190 | the holder of an active claim marks it running in a conversation it may attach, with the error of every other case |
| `WorkerAnswers.MarkRunningLeaves` | internal/db/store_worker.go:178-207 | agent and run are running then, and the run keeps its first start time |
| `WorkerAnswers.NextAnswers` | internal/db/store_steering.go:62-94 | the holder of a running claim is given the head of its agent's queue, if there is one |
| `WorkerAnswers.AcknowledgeAnswers` | internal/db/store_steering.go:97-118 | the holder of an active claim deletes the message of that id if its agent's queue has one, answers whether it has, and deletes nothing else |
| `CallerAnswers.FetchAnswers` | internal/db/store.go:240-297 | an owner is shown its own agents with the active or any other run of theirs, and nothing of anybody else's |
| `CallerAnswers.CreateAnswers` | internal/db/store_agents.go:42-106 | a new agent is accepted if and only if its owner has fewer than three claims, there are fewer than eight, and the name is free; it is stored with the name, owner, mode, directory and task given, and nothing else changes |
| `CallerAnswers.ClaimAnswers` | internal/db/store_agents.go:161-229 | a follow-up is accepted from the owner if and only if the agent is not held, is not idle without a conversation, and both limits leave room, with the error of every other case; the new run has the task given |
| `CallerAnswers.ClaimServed` | internal/db/store_agents.go:161-229 | the same for a request served from any coherent state, on the state that reconciling leaves |
| `CallerAnswers.CancelAnswers` | internal/db/store_agents.go:262-306 | the owner may cancel an agent at any time: an active one is canceling with a minute left and its run canceled, one that was not canceled yet is canceled at once with its run as it was, and its queue is empty |
| `CallerAnswers.EnqueueAnswers` | internal/db/store_steering.go:17-59 | the owner may steer an agent if and only if an unexpired claim is running it; the message is appended, and the answer tells whether others were waiting |
| `CallerAnswers.InterruptAnswers` | internal/db/store_worker.go:369-392 | exactly the agents starting or running under the runtime are interrupted, and the answer is their number |
| `MailboxAnswers.LookupAnswers` | internal/db/store_mail_read.go:17-40 | the answer is who the conversation is, an agent's child before a root, if and only if that is in a room |
| `MailboxAnswers.JoinAnswers` | internal/db/store_mailbox.go:54-81 | joining opens the participant's room and changes nothing else, and the lookup gives that participant from then on |
| `MailboxAnswers.SendAnswers` | internal/db/store_mailbox.go:132-170 | a mail is sent if and only if sender and recipient are two contacts of an open room and it fits the budget, under the sender's own name |
| `MailboxAnswers.ReadAnswers` | internal/db/store_mail_read.go:130-179 | one to ten mails are read if and only if all are in the caller's inbox and fit 36,000 bytes together, in the order asked for |
| `MailboxAnswers.ReadMarks` | internal/db/store_mail_read.go:163-179 | exactly the mails read are marked, and only those that were unread |
| `MailboxAnswers.AcknowledgementMarks` | internal/db/store_mail_events.go:53-61 | exactly main's unread notice of that run, agent and owner is marked |
| `Stores.Store.PublishEventMail` | internal/db/store_mail_events.go:65-94 | inserts the event and one mail for main and each peer in id order, once per key and only in a room |
| `Stores.Store.PublishJoinedMail` | internal/db/store_mail_events.go:18-29 | publishes only if exactly one run of the agent has started |
| `Stores.Store.RecipientsOf` | internal/db/store_mail_events.go:77-82 | the recipients are main and then every other agent of the room in id order |
| `Stores.Store.InterruptRow` | internal/db/store_worker.go:50-71 | interrupts an active agent and its run and announces it |
| `Stores.Store.CompleteCancelRow` | internal/db/store_worker.go:73-96 | completes a canceling agent and announces it |
| `Stores.Store.ReconcileLeases` | internal/db/store_worker.go:21-48 | releases every claim that expires by the cutoff and returns how many there were |
| `Inputs.ValidNameIsShort` | internal/types/names.go:9-29 | a name that passes the check of one to three kebab-case words is ASCII and at most 128 bytes long |
| `Inputs.ValidNames` | internal/types/names.go:9-29 | a name is valid if and only if it is at most 48 bytes long and one to three words of lower-case letters and digits joined by single hyphens, beginning with a letter |
| `Inputs.ValidSteerings` | internal/db/store_steering.go:17-24 | a valid text may be sent as steering if and only if it has one to ten thousand characters |
| `Inputs.ValidLetters` | internal/db/store_mailbox.go:132-143 | subject and body must be valid texts of at least one character and at most 256 and 16,000 bytes |
| `Stores.Store.Create` | internal/db/store_agents.go:42-106 | checks the name and the trimmed inputs, then reserves an agent and its first run within the limits and hands out the lease that matches, or changes nothing |
| `Stores.Store.Get` | internal/db/store_agents.go:109-120 | reconciles and returns the agent with the selected run |
| `Stores.Store.Claim` | internal/db/store_agents.go:161-229 | checks the trimmed task, then reserves the next generation of a claimable agent, rekeys its queue and hands out the lease that matches, or changes nothing |
| `Stores.Store.Abort` | internal/db/store_agents.go:232-258 | deletes an unstarted first reservation with its rows; a missing one is not an error |
| `Stores.Store.Cancel` | internal/db/store_agents.go:262-306 | discards the queue and moves an active agent to canceling with a new expiry, an inactive one to canceled |
| `Stores.Store.AttachConversation` | internal/db/store_worker.go:112-133 | attaches a free conversation to an active claim, write-once |
| `Stores.Store.AttachCancelingConversation` | internal/db/store_worker.go:137-158 | the same for a claim being canceled |
| `Stores.Store.MarkRunning` | internal/db/store_worker.go:161-207 | marks agent and run running, keeps the first start time and announces the first start |
| `Stores.Store.Terminal` | internal/db/store_worker.go:211-292 | records the outcome of a live claim, repeats a recorded one, and refuses any other |
| `Stores.Store.RenewLease` | internal/db/store_worker.go:294-318 | renews the row's expiry and then the holder's, or neither |
| `Stores.Store.CompleteCancel` | internal/db/store_worker.go:331-366 | completes a live cancellation, and tells a completed, superseded or foreign one apart |
| `Stores.Store.InterruptRuntime` | internal/db/store_worker.go:369-392 | interrupts every starting or running row under this runtime and counts them |
| `Stores.Store.ReconcileExpired` | internal/db/store_worker.go:395-403 | leaves no expired claim and returns how many it ended |
| `Stores.Store.EnqueueSteering` | internal/db/store_steering.go:17-59 | refuses an empty or over-long message, then appends the trimmed one for a running, unexpired claim and tells whether others were pending |
| `Stores.Store.NextSteering` | internal/db/store_steering.go:62-94 | returns the oldest message of a running claim |
| `Stores.Store.AcknowledgeSteering` | internal/db/store_steering.go:97-118 | deletes the message if it is the claim's own |
| `Stores.Store.LookupMailbox` | internal/db/store_mail_read.go:17-40 | refuses an empty conversation; answers the child's identity first, then a root's, and only in a room; writes nothing |
| `Stores.Store.JoinMailbox` | internal/db/store_mailbox.go:54-81 | the transaction of a participant not yet in a room: reconciles, finds the participant again and opens the room |
| `Stores.Store.ResolveMailbox` | internal/db/store_mailbox.go:37-81 | refuses an empty conversation, answers a known participant without a transaction, and otherwise joins in whatever state other processes have left by then |
| `Stores.Store.SendMail` | internal/db/store_mailbox.go:132-170 | refuses an empty, over-long or invalid text, then stores one mail between two contacts of a room if it fits the read budget |
| `Stores.Store.ReadMails` | internal/db/store_mail_read.go:130-179 | returns the selected mails and marks them read, keeping first read times, or changes nothing |
| `Stores.Store.CollectMails` | internal/db/store_mail_read.go:146-162 | selects the mails in the order asked for and stops at the first that is missing or exceeds the budget |
| `Stores.Store.AckTerminalMail` | internal/db/store_mail_events.go:53-61 | marks only main's unread notice of the run |
| `Runtimes.ReservationOwns` | internal/db/store_agents.go:102-106 | the lease handed out with a committed claim is the one that matches |
| `Runtimes.OthersAddNone` | internal/db/store_agents.go:83-90 | no request but a runtime's own Create or Claim gives it a starting or running row |
| `Runtimes.InterruptLeavesNone` | internal/db/store_worker.go:369-392 | interrupting a runtime leaves it no starting or running row |
| `Ownership.ActKeepsJobs` | internal/subagent/setup.go:20-51 | every control step keeps each map listing exactly the goroutines between the critical sections that enter and leave it |
| `Ownership.TransactKeepsJobs` | internal/subagent/setup.go:36-51 | so does every store transaction of a job |
| `Shutdown.StepSound` | internal/subagent/shutdown.go:70-144 | every step of every goroutine keeps what each stage of the shutdown has drained |
| `Shutdown.ShutdownDrains` | internal/subagent/shutdown.go:70-93 | in every interleaving, when the shutdown returns, reservations, setups, owned runs and cleanups are empty and no row of any store is starting or running under this runtime |
| `Shutdown.ShutdownReleases` | internal/subagent/shutdown.go:129-144 | and no job holds a client or a lease of the host |
| `FirstPass.FirstPassLeaves` | internal/subagent/shutdown.go:95-115 | in every run, no runner the first pass took is live when it has ended, and any other live runner either belongs to a run already released or was launched, after the pass took its tasks and before it canceled them, by a setup it took |
| `Crossings.FirstPassLeaksExactly` | internal/subagent/shutdown.go:70-79 | after any run, once the first pass takes its tasks, some continuation ends it beside a live runner of an owned run if and only if it takes a setup that is not canceled and about to launch, or about to renew a claim still active in its store |
| `FirstRun.FirstPassDoesNotSuffice` | internal/subagent/shutdown.go:75-79 | a run of a single spawn from a new session ends the first pass beside a live runner |
| `ClientFence.StepFences` | internal/subagent/cleanup.go:32-62 | every step keeps the claims in play held, unless their own job ends them or their lease runs out |
| `ClientFence.OpenClientHoldsClaim` | internal/subagent/worker.go:97-114 | while a run's client is open, its answer is not recorded and its lease has not run out, it holds its agent under the same claim |
| `ClientFence.HeldIsNotClaimed` | internal/db/store_agents.go:182-184 | a follow-up of an agent whose claim is held and has not expired is refused |
| `ClientFence.NoClaimUnderOpenClient` | internal/subagent/cleanup.go:8-10 | so at no step of a run is a later generation of the agent claimed before the client has closed, under the same two exceptions |
| `ClientFence.LeaseOutlivesClient` | internal/subagent/cleanup.go:45-61 | the host's lease is given back only after the client has closed, and a finished cleanup has given it back |
| `Owners.OwnedHasOwner` | internal/subagent/shutdown.go:23-35 | in every run of the protocol, a run found in ownedRuns has exactly one owner that has started and not ended, and that is the one named: its runner if and only if one was launched, otherwise its setup; it can be canceled, and the branches for a cleanup or no owner are never taken |
| `Owners.RunnerIffLaunched` | internal/subagent/setup.go:196-201 | a job has a runner if and only if an uncanceled setup has launched it |
| `Decisions.OnlyAcceptedGoOn` | internal/subagent/setup.go:36-51 | a claim is set up only if after its commit neither its caller nor the session was found to have stopped |
| `Decisions.CanceledIsNotOverwritten` | internal/subagent/cleanup.go:45-56 | a cleanup writes an outcome only if the parent had not canceled the run when its client was closed |
| `Decisions.FailuresAreWritten` | internal/subagent/worker.go:96-113 | a cleanup is spared from writing a failure only if the runner has sent its answer to the store or the parent has canceled the run |
| `Sections.Runtime.MarkParentCanceled` | internal/subagent/shutdown.go:14-32 | finds the owned run of the agent, marks it canceled, and names its runner if it has one and its setup otherwise, which then can be canceled |
| `Sections.Runtime.TakeTasks` | internal/subagent/shutdown.go:95-109 | takes exactly the unfinished setups and the unfinished runners of owned runs |
| `Utf8.CutAtRuneStart` | internal/db/store_mail_events.go:126-130 | a prefix of valid UTF-8 is valid if and only if it ends at a rune start |
| `Utf8.ToValidIsValid` | internal/db/store_mail_events.go:122 | replacing invalid runs always gives valid UTF-8 |
| `Utf8.ToValidKeepsValid` | internal/db/store_mail_events.go:122 | and changes nothing that is valid |
| `Utf8.RunIsReplacedOnce` | internal/db/store_mail_events.go:122 | a run of invalid bytes between valid texts is replaced as a whole by one U+FFFD |
| `Scalars.ValidIffEncoded` | internal/db/store_mail_events.go:122 | a text is valid UTF-8 if and only if it is the encoding of some Unicode scalar values |
| `JsonText.EscapeBound` | internal/db/store_mailbox.go:174-184 | escaping grows a text at most sixfold |
| `JsonText.EscapeMonotone` | internal/db/store_mailbox.go:174-184 | escaped size grows with the prefix at rune boundaries |
| `JsonDecoding.DecodeEncode` | internal/db/store_mailbox.go:180 | a JSON string decoder gives back the encoded text, with each invalid byte replaced by U+FFFD |
| `JsonDecoding.EscapeIsHarmless` | internal/db/store_mailbox.go:180 | an encoded text has no control byte, no "<", ">" or "&" and no U+2028 or U+2029 |
| `JsonDecoding.EncodedSize` | internal/db/store_mailbox.go:180 | its exact size: two bytes for each of seven escapes, six for the other escaped runes and for invalid bytes, and the rune's own otherwise |
| `MailBudget.MailReadBytes` | internal/db/store_mailbox.go:174-184 | the loop counts the allowance and twice the encoded size of each of the nine strings |
| `JsonDecoding.MailCosts` | internal/db/store_mailbox.go:170-184 | the size of a mail is 1,060 bytes and twice what the runes of its nine strings take |
| `JsonDecoding.PlainMailFits` | internal/db/store_mailbox.go:158-160 | a mail without anything to escape fits if and only if its strings have no more than 17,470 bytes |
| `MailBudget.BoundedMailText` | internal/db/store_mail_events.go:121-131 | the rune scan stops at the last rune start within the limit |
| `MailBudget.BoundedText` | internal/db/store_mail_events.go:121-131 | the result is valid UTF-8 within the limit, and a valid text that fits is kept |
| `MailBudget.BoundedMailBody` | internal/db/store_mail_events.go:100-119 | the binary search ends with the largest limit whose cut fits |
| `MailBudget.SearchFindsLongest` | internal/db/store_mail_events.go:100-119 | over budget, the result fits if and only if the body is longer than the suffix and the suffix alone fits, and then no longer cut fits |
| `Lifecycle.NoticeWithinBudget` | internal/db/store_mail_events.go:18-48 | a lifecycle mail with generated ids and a valid name fits the budget whole, so its search is never needed |
| `Paths.ResolveFrom` | internal/paths/paths.go:38-73 | the loop with its recursion and shared counter ends on every file system with the path and the hops of the specification |
| `Paths.Resolve` | internal/paths/paths.go:28-36 | resolves from the root, a relative path from the working directory |
| `Paths.RelativeIsBelow` | internal/paths/paths.go:29-33 | a relative path is resolved behind the working directory's names, and so from where that directory is located, with the hops that took |
| `Paths.RelativeName` | internal/paths/paths.go:29-33 | a single name that is no link is resolved to that name in the working directory |
| `Paths.AbsoluteIsFromRoot` | internal/paths/paths.go:28-35 | an absolute path does not depend on the working directory, nor does any path if that is not known |
| `Paths.SplitRender` | internal/paths/paths.go:40 | a clean absolute path splits into its names again |
| `Paths.WalkIsMachine` | internal/paths/paths.go:38-73 | on every file system the recursion is the same as working on an explicit stack of components |
| `Paths.WorklistConcat` | internal/paths/paths.go:67-70 | resolving components in sequence is resolving the front and then the rest |
| `Paths.WalkIsWorklist` | internal/paths/paths.go:38-73 | where pathname resolution succeeds, the recursion gives the same path and follows as many links |
| `Paths.WorklistIsSolid` | internal/paths/paths.go:24-27 | every prefix of the resolved path exists and is no link, or one that cannot be read |
| `Paths.ResolveIsPathnameResolution` | internal/paths/paths.go:24-36 | where pathname resolution succeeds, whether unreadable links fail it or are kept as they are, the text returned is its path and resolving it again changes nothing |
| `Paths.StableIff` | internal/paths/paths.go:24-36 | on every file system, resolving the result again changes nothing if and only if walking it follows no link, or the first link it follows leads back to it |
| `Paths.StableWithinBudget` | internal/paths/paths.go:60-64 | where the second walk finds everything within its hops, that is if and only if it follows no link |
| `Paths.ChainStableIff` | internal/paths/paths.go:60-64 | a chain of links, each to the next, ends where the hops run out, and the result is stable if and only if there are no more links than hops |
| `Paths.SelfLinkIsStable` | internal/paths/paths.go:60-64 | a link to itself uses up the hops and is stable all the same |
| `Paths.MissingIsKept` | internal/paths/paths.go:49-54 | from the first missing entry on the rest is cleaned as text, and without ".." walking the result follows no link and it is stable |
| `Paths.MissingParentIsNotStable` | internal/paths/paths.go:49-54 | with ".." it may lead to a link that is left unresolved |
| `Framing.DecimalDigits` | internal/subagent/framing.go:82 | the printed decimal reads back as the same number |
| `Framing.AtoiOfDecimal` | internal/subagent/framing.go:51 | and parses within the 64-bit range |
| `Framing.FrameReader.ReadString` | internal/subagent/framing.go:29 | takes the stream up to and including the next line feed, or all that is left |
| `Framing.FrameReader.Read` | internal/subagent/framing.go:25-71 | the header loop and the body read do to the stream what the specification says, with its error for every malformed frame |
| `Framing.FrameWriter.Write` | internal/subagent/framing.go:79-89 | appends exactly one frame |
| `Headers.FrameText` | internal/subagent/framing.go:79-84 | a frame is the length header, a blank line and the payload |
| `Framing.FrameReads` | internal/subagent/framing.go:25-89 | a written frame is read back with exactly its payload and exactly its bytes consumed |
| `Framing.CutFrameFails` | internal/subagent/framing.go:35-37 | every proper non-empty prefix of a frame is an unexpected end |
| `Framing.BrokenStream` | internal/subagent/framing.go:25-71 | a stream that broke off anywhere yields exactly the complete frames, and a clean end if and only if it broke off between frames |
| `Framing.RoundTrip` | internal/subagent/framing.go:25-89 | reading everything written yields exactly the payloads and then the end |
| `Headers.LengthHeaderReads` | internal/subagent/framing.go:47-55 | a length header is read in any case and spacing, with or without a plus; a minus before anything but zero and a number past the 64-bit range are refused |
| `Headers.OtherHeaderReads` | internal/subagent/framing.go:47-50 | a header of any other name says nothing about the length |
| `Headers.LastLengthCounts` | internal/subagent/framing.go:28-70 | whatever other headers a frame has, the last length counts, up to 512 MiB |
| `Headers.NoLengthFails` | internal/subagent/framing.go:57-59 | headers without a length are refused |
| `Headers.MalformedFails` | internal/subagent/framing.go:51-54 | a length that is none is refused where it stands |
| `Headers.LineFeedReads` | internal/subagent/framing.go:38-44 | a line feed alone ends a line too, and blank lines before the headers are passed over |

## Left out

- SQLite, connection pools, busy timeouts, write-ahead logging, file locks, the staging and rename of an import, and SQL migration are not modelled; a transaction is atomic and serialised.
- Failures of SQLite itself, such as a busy or full database or a commit whose result is not known, appear only as the repeat that `Repeats.RepeatLosesMessage` describes.
- Ids, conversations and texts passed to the other operations are taken as trimmed; Create, Claim, EnqueueSteering, SendMail and the mailbox lookups trim and check theirs.
- Random ids and tokens are parameters; run ids are assumed fresh, and constant-time token comparison is equality.
- Clock readings are real numbers without rounding, and no order between them is assumed.
- The order in which SQLite lists the agents table is one parameter of a request, used by both selections of an interruption.
- A notice row keeps the values its texts are formatted from; the Notices module spells out the texts.
- The three lease columns are one optional value, as the schema allows only all or none.
- `List`, `ListContacts` and `ListMails` are left out: reads with ordering and paging, whose reconciliation is that of `Get`.
- `Shutdown.ShutdownDrains`: assumes, as the code's own result ignores it, that the interruption of each store commits, and that no initialisation clears the flag afterwards; that tasks do end is not claimed.
- `Sections.Runtime.RegisterReservation`: the goroutines' program counters are part of the job record, so the object also records where its callers are.
- The runtime's liveRuns map, the second lookup beside ownedRuns, is not modelled; nothing here depends on it.
- The client, session, progress and host leases of the Kodelet SDK are steps that succeed, fail or never come; heartbeats, retries and their delays are further requests that may or may not arrive before a lease expires.
- `Protocol` is modelled on values, as interleavings of many goroutines cannot be methods of one object; the update in place of its maps is in `Sections`.
- waitForActiveRun's polling and progress, tools, schemas, widgets, logging and the process entry points are left out.
- `JsonDecoding.DecodeEncode`: the decoder refuses escaped surrogates, of which the encoder writes none.
- In `Paths` the file system does not change during a resolution.
