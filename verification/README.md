# Verified model of Crypto Pigeon's delivery, backup and data transformations

This Dafny project models the parts of Crypto Pigeon whose correctness spans several
functions, processes or crashes, and proves what they promise. `dafny verify
dfyconfig.toml` checks everything.

**Durable delivery.** `VaultTables` gives the SQL tables of a vault and its transactions
as functions. `DeliveryWorld` is the step system: any number of vaults and daemon
processes, a network that loses, delays, reorders and duplicates, the relay queue, locks,
vault switches, transport restarts and crashes. Every step is one critical section, one
arrival or one failure; a rolled-back transaction and a lost reply change nothing and are
no step. `DeliveryBase` to `DeliveryFencing` hold the invariant part by part,
`DeliveryTheorems` states the guarantees over whole runs, `DeliveryExactlyOnce` what becomes
of every opened text, `DeliveryReceipts` what statuses owe to receipts. An envelope has
*landed* when the peer opened it or holds it in its inbox, or the relay holds it or let it
expire.
`Databases`, `TorRouting`, `LocalDaemon` and `Receiving` are the code itself on mutable
state, proved against the same functions; `DaemonRefinement` shows that a receive round with
arbitrary faults, followed by its acknowledgement, is a run of the step system, and
`SessionRefinement` the same for sending, flushing and completing in the Tor modes and for
locking and unlocking. `DownloadFencing` runs attachment downloads beside all of this, and
`RelayOnlyRegression` is a concrete run in which a status falls. `RequestChain` is the promise chain that makes the
sections critical; `QueueIds` is the relay's naming of envelopes.

**Versioned backup.** `BackupStore` holds the relay's PUT and DELETE routes on mutable
tables; `BackupLog` interleaves their transactions and statements under the locks
PostgreSQL gives them; `InstanceLock` studies the device lock; `BackupClients` adds several
desktop clients with queued uploads, lost replies and crashes; `VaultRotation` follows the
directory swaps of import, restore and password change, stopping at any await.

**Transformations.** `SevenShares` (split, rebalance, scatter, collect), `SignalBudget`,
`ControlLines` and `TorControl` (Tor control connection), `Socks`, `Prekeys`, `Base64`,
`InviteText`, `Invites` and `InviteExample`, `Attachments`.

## Assumptions

- A committed database transaction is atomic and durable; random identifiers, nonces and
  row numbers are new. SQLite numbers a new row above the present ones.
- The clock does not go back (for `SignalBudget`, the contract says what follows when it
  does).
- Encryption, signatures, hashes and compression are ideal: a ciphertext opens with its own
  key only, a signature is its signer and what was signed, a digest determines its content,
  inflating undoes deflating. For invites this is the predicate `Invites.Ideal`, which
  `InviteExample.PlainestIsIdeal` meets. Peers follow the protocol.
- A Signal session is a counter kept in the vault database, so a rollback restores it; each
  key opens one ciphertext once.
- A queued request releases the chain only after it has entered it. `RequestChain` proves
  exclusion under this condition and shows what breaks without it.
- Deleting a message deletes its outbox row, as the foreign key of `message_outbox` says.
- In `BackupLog`, writes of a transaction become visible when it commits, row locks are held
  until then, and a row that does not exist cannot be locked.

## What the code does not keep

Each of these is proved, with the exact condition under which the promise does hold.

- The relay-only answer writes `sent` over any status (`messages.ts:193`), so a delivered or
  read message can go back. `RelayOnlyRegression.DeliveredBecomesSent` is a run from empty
  vaults in which it does; over any run no status falls if and only if every such answer
  comes while its message is at most `sent` (`DeliveryTheorems.StatusesClimbIff`).
- Two first uploads of one device under different lookup tokens can both find no lock row;
  the second then takes the device from the first without a claim
  (`InstanceLock.UnclaimedChangeIff`, `LockIsTakenWithoutClaim`).
- `OLD_BACKUP_REMOVAL_FAILED_PASSWORD_UNCHANGED` stands for every answer that is not 2xx
  (`secure-vault.ts:282`). It is true of the relay's own refusals, 403 and 409. After a 500
  the relay's connection to its database may have broken behind the DELETE, and then the old
  password no longer opens the backup (`BackupStore.StatusTellsIff`,
  `VaultRotation.RotateOnRelay`). A request without any answer is reported as what it is,
  not by this error. The new backup is stored by then, so nothing is lost.
- The relay's deletion checks the writer in one statement and deletes in another; it takes
  a row of that writer unless the token was deleted and used again in between
  (`BackupLog.DeletionTakesOwnRow`).
- A file with a type longer than 255 characters, or a name of which nothing remains without
  its control characters, is encrypted and uploaded and then refused by the sender's own
  schema; the chunks stay behind (`Attachments.SendFile` gives the exact condition).
- An envelope id in UUID form, which the relay's schema allows, comes back without its
  dashes (`QueueIds.IdSurvivesIff`).
- `createServerlessInvite` does not check that the signing key matches the device key inside
  the invite; the link parses if and only if it does (`Invites.ParsingCreatedInvite`, and
  `InviteExample.OtherKeyIsRefused` for one such pair). The program's callers take both
  from the same device, so its links always parse (`Invites.OwnInviteParses`).
- A one-time prekey uploaded again, as after a lost reply, can be handed out again: once
  per upload, not once per key (`Prekeys.UploadGoesOutIff`, `SameKeyGoesOutTwice`).
- A last-resort prekey uploaded to the id of a one-time prekey becomes a one-time prekey. A
  device has a last-resort prekey if and only if one was the first upload to its id
  (`Prekeys.LastResortOfferedIff`).

## Model

| member | source | states |
|---|---|---|
| DeliveryTheorems.Conservation | apps/local-daemon/src/tor-routing.ts:17-47 | in every run a committed envelope that is not ephemeral is in its sender's outbox or control outbox, the relay queue, the peer's inbox or the peer's seen ids, unless its disappearing deadline or the relay's expiry passed |
| DeliveryTheorems.RetriesKeepTheBytes | apps/local-daemon/src/messages.ts:117-203 | in every run every copy of an envelope, in an outbox, an inbox, a running job, a packet, a push or the relay, is the one committed at creation |
| DeliveryTheorems.KeysAreNeverShared | apps/local-daemon/src/messages.ts:117-169 | two committed envelopes never share a ratchet key although rolled-back transactions reuse indices |
| DeliveryRatchet.OtherStepsLeaveRatchets | apps/local-daemon/src/messages.ts:175-203 | flushing, posting, retrying, acknowledging, locking and crashing advance no ratchet |
| DeliveryTheorems.OpenedExactlyWhenSeen | apps/local-daemon/src/messages.ts:294-361 | the recipient's ratchet has consumed an envelope exactly when its id is in seen_envelope_ids, across rollbacks and redelivery |
| DeliveryTheorems.ShownAndAnsweredOnce | apps/local-daemon/src/messages.ts:222-369 | an envelope produces at most one received row and at most one receipt |
| DeliveryTheorems.DeliveredOnce | apps/local-daemon/src/messages.ts:323-326 | no two `delivered` receipts report the same message |
| DeliveryExactlyOnce.OpenedTextsOnce | apps/local-daemon/src/messages.ts:318-361 | on every run a text that was opened was inserted as a message row exactly once and answered by exactly one receipt, which reports this message to its sender |
| DeliveryExactlyOnce.RowsComeFromDistinctEnvelopes | apps/local-daemon/src/messages.ts:318-322 | on every run no two received rows of a vault come from the same envelope, and each was counted once |
| DeliveryTheorems.FirstTransfersInOrder | apps/local-daemon/src/messages.ts:175-203 | a transfer of a text was started only after every earlier text of its conversation landed or passed its deadline |
| DeliveryTheorems.StatusIsHonest | apps/local-daemon/src/messages.ts:303-308 | in every mode `delivered` means opened by the peer, `sent` means landed, and `read` means landed or timed out |
| DeliveryTheorems.ReadInDirectMode | apps/local-daemon/src/messages.ts:307-307 | while nothing goes over the relay, every message marked read by an up-to receipt reached the peer or expired |
| DeliveryTheorems.StatusesClimbIff | apps/local-daemon/src/messages.ts:187-195 | over any run in any mode, no status falls if and only if every relay-only answer comes while its message is at most `sent` |
| DeliveryTheorems.StatusesClimb | apps/local-daemon/src/messages.ts:187-195 | hence a message that keeps its row never goes back between two points of a run with timely answers |
| RelayOnlyRegression.DeliveredBecomesSent | apps/local-daemon/src/messages.ts:187-196 | a run from empty vaults: stored, answer lost, opened, receipt received, posted again, and the late answer turns `delivered` into `sent` |
| DeliveryTheorems.StatusOnlyClimbs | apps/local-daemon/src/tor-routing.ts:39-39 | in the Tor modes, which know no such answer, a status only climbs over any stretch of any run |
| DeliveryReceipts.DeliveredReceiptShows | apps/local-daemon/src/messages.ts:306-306 | on every run with timely relay-only answers: once a vault has opened a `delivered` receipt, its message is `delivered` or `read` for as long as it is there |
| DeliveryReceipts.ReadReceiptShows | apps/local-daemon/src/messages.ts:307-307 | on every such run: once a vault has opened a read receipt, the message it names and all sent before it in the conversation are `read` |
| DeliveryReceipts.StatusesAreEarned | apps/local-daemon/src/messages.ts:187-203 | on every run in every mode: a queued message is still in the outbox, `delivered` was reported for this message, and `read` by a receipt of the peer that names it or one not sent before it |
| DeliveryStatus.RelayOnlyClimbsIff | apps/local-daemon/src/messages.ts:192-195 | the update itself, as a step of the two results above: no status falls if and only if the message was at most `sent` |
| DeliveryTheorems.OneJobPerEnvelope | apps/local-daemon/src/tor-routing.ts:27-28 | at most one transfer per envelope runs in a process, in every run |
| DeliveryTheorems.LateCompletionsAreFenced | apps/local-daemon/src/tor-routing.ts:38-41 | a completing job changes only the vault it was started for, only while database and transport are still the same ones, and only after its envelope was accepted |
| DeliveryTheorems.StepKeepsInvariant | apps/local-daemon/src/server.ts:62-99 | every step of the system keeps the whole invariant |
| DeliveryTheorems.RunKeepsInvariant | apps/local-daemon/src/server.ts:62-99 | so does every run |
| DeliveryLedger.StepKeepsLedger | apps/relay-server/src/queue.ts:64-76 | idempotent relay insert, scoped acknowledgement, expiry, deposit and completion keep the account of every envelope |
| DeliveryLedger.TransactionReleases | apps/local-daemon/src/consumer.ts:21-23 | an envelope leaves its sender's tables only when it landed, timed out or was ephemeral |
| DeliveryOrder.HeadIsFirst | apps/local-daemon/src/messages.ts:177-183 | everything of the conversation ahead of the selected row has timed out |
| DeliveryEffects.StepKeepsEffects | apps/local-daemon/src/messages.ts:318-361 | shown rows, receipts and what receipts name stay tied to opened envelopes |
| Receiving.ReceiveOne | apps/local-daemon/src/messages.ts:294-368 | row by row: commits exactly when the contact is trusted, the ciphertext is its and for this device, the key is unused and no statement fails; then a text is stored with its timer and answered, a `delivered` receipt moves its message if queued or sent, a `read` receipt moves all it covers, and nothing else changes; otherwise every table is as it was |
| Receiving.SyncMessages | apps/local-daemon/src/messages.ts:205-385 | each round of the loop is one of these, and the whole is the fold over all pending envelopes; a pending envelope is acknowledged exactly when it is seen afterwards |
| Receiving.SyncOpensExactly | apps/local-daemon/src/messages.ts:222-369 | a synchronisation opens exactly the pending envelopes of trusted contacts with unused keys whose transaction went through, and returns their number |
| Receiving.AcksAreSeen | apps/local-daemon/src/messages.ts:219-234 | whatever faults strike, acknowledged ids are seen and newly seen ids are acknowledged |
| Receiving.RedeliveryChangesNothing | apps/local-daemon/src/messages.ts:228-233 | redelivering seen envelopes acknowledges them again and changes no table |
| DaemonRefinement.SyncIsARun | apps/local-daemon/src/messages.ts:222-369 | the receive loop with arbitrary faults is a run of `Receive` steps with the same result |
| DaemonRefinement.SyncAndAckIsARun | apps/local-daemon/src/tor-routing.ts:18-22 | in every mode receiving, acknowledging at the inbox and then, if that request gets through, at the relay for the ids the inbox did not hold is a run, and every delivery guarantee holds again afterwards |
| SessionRefinement.Send | apps/local-daemon/src/messages.ts:76-173 | on the heap, sending is one step of the system, or no step after a fault at any statement |
| SessionRefinement.Flush | apps/local-daemon/src/messages.ts:175-203 | in a Tor mode a flush is the step that starts the job of the head exactly when the head goes to a job and none runs for it, and otherwise no step |
| SessionRefinement.Complete | apps/local-daemon/src/tor-routing.ts:38-44 | a transfer that completes, however late and whatever objects it captured, is the guarded step of the system |
| SessionRefinement.Lock | apps/local-daemon/src/server.ts:68-68 | locking is the step of the system that no captured session survives |
| SessionRefinement.Open | apps/local-daemon/src/server.ts:79-91 | unlocking and switching give a database object with a name of its own, as the step of the system does |
| LocalDaemon.SendMessage | apps/local-daemon/src/messages.ts:76-173 | ratchet advance, message row with its timer and retry bytes are committed together, or a fault at any statement leaves every table as it was; each refusal has its exact reason |
| LocalDaemon.QueueControl | apps/local-daemon/src/consumer.ts:11-17 | inside the caller's transaction: one control row with the ratchet advance, or a refusal that changes nothing |
| LocalDaemon.FlushOutbox | apps/local-daemon/src/messages.ts:175-203 | `sent` is the index of the first row that the relay is not asked about or does not accept: the rows before it are posted in order, marked sent and removed, and nothing else changes; if that row goes to a job, it is the one job started unless it runs already |
| LocalDaemon.QueueStartsWithHead | apps/local-daemon/src/messages.ts:177-183 | the first row of the ordered SELECT is the head the step system speaks of |
| LocalDaemon.FlushControls | apps/local-daemon/src/consumer.ts:18-25 | `done` is the index of the first control row that has not expired and is not accepted: exactly the rows before it go, and if it goes to a job that job is started |
| TorRouting.Routing.RouteAck | apps/local-daemon/src/tor-routing.ts:18-22 | the acknowledged ids leave the inbox and exactly those it did not hold are passed on to the relay |
| TorRouting.NotRemovedExactly | apps/local-daemon/src/tor-routing.ts:19-20 | without duplicates the relay hears of exactly the envelopes Tor did not bring |
| TorRouting.Routing.RouteSend | apps/local-daemon/src/tor-routing.ts:23-47 | step of `SessionRefinement.Flush`: at most one job per envelope id, captured with its session, and 503; no table changes |
| TorRouting.Routing.FinishJob | apps/local-daemon/src/tor-routing.ts:38-41 | only the job's own database can change, only while it and its running transport are current; an accepted envelope then leaves both outboxes and its message, if queued, becomes sent; the slot is freed in every case |
| TorRouting.Routing.Lock | apps/local-daemon/src/server.ts:68-68 | after locking no job passes its guard |
| TorRouting.Routing.Open | apps/local-daemon/src/server.ts:79-91 | after unlocking or switching no earlier job passes its guard |
| TorRouting.DownloadBlob | apps/local-daemon/src/tor-routing.ts:66-74 | with any sequence of locks, unlocks, switches, failures and restarts before every answer and before every write, exactly the chunks before the first unfit answer or the first thing that happens to the session are cached, each with its own nonce, and only in the database the download began with; without either, the whole file |
| TorRouting.Interfere | apps/local-daemon/src/server.ts:68-91 | whatever happens to the session in any order, a transport that is still current and running has kept its database, and it is current exactly when nothing happened |
| DownloadFencing.GuardsAgree | apps/local-daemon/src/tor-routing.ts:71-73 | on every run of any number of processes, downloads and jobs the guard on the transport lets exactly the same downloads through as the guard on transport and database, and finds the database the download began with |
| DownloadFencing.ChunksGoHome | apps/local-daemon/src/tor-routing.ts:73-73 | on every run every chunk was written to the database its download began with and fits its manifest |
| DownloadFencing.DownloadedIsAPrefix | apps/local-daemon/src/tor-routing.ts:68-74 | on every run what a download has written is a prefix of its manifest, unless it was deleted under it |
| DownloadFencing.WriteKeepsNoGapIff | apps/local-daemon/src/tor-routing.ts:79-79 | a write leaves the cache without gaps if and only if the chunk before was not deleted |
| DownloadFencing.CachesHaveNoGaps | apps/local-daemon/src/tor-routing.ts:66-79 | on runs without such deletions every cache is a prefix of its manifest at every moment |
| DownloadFencing.StepKeepsInvariant | apps/local-daemon/src/server.ts:79-91 | every step keeps the tie between a running transport and the database it was started under |
| RequestChain.SectionsNeverOverlap | apps/local-daemon/src/server.ts:63-64 | if every section releases the chain after entering it, no two overlap and they run in order of arrival |
| RequestChain.EarlyReleaseOverlaps | apps/local-daemon/src/server.ts:103-109 | an early release always lets two sections in at once |
| QueueIds.IdSurvivesIff | apps/relay-server/src/queue.ts:9-16 | the recipient sees the sender's id exactly when it is 32 lower-case hex digits |
| QueueIds.RowsAreDistinct | apps/relay-server/src/queue.ts:9-12 | two hexadecimal ids share a row exactly when they differ in nothing but case |
| BackupStore.BackupRoutes.Put | apps/relay-server/src/vault-backup.ts:16-71 | uninterrupted, an upload is accepted if and only if it is well-formed, signed by its writer, the next version of the same writer or the stored backup again, and its device is unnamed, or vouched for and free, held by this instance or claimed; each refusal has exactly its own condition, in order; an accepted one leaves the stated rows, lock and sessions; interrupted at any statement it leaves every table as it was |
| BackupStore.PutAloneAnswers | apps/relay-server/src/vault-backup.ts:16-69 | the function used for runs of the relay accepts, refuses and stores by these conditions |
| BackupStore.BackupRoutes.Delete | apps/relay-server/src/vault-backup.ts:8-15 | step of `BackupStore.StatusTellsIff` and `VaultRotation.RotateOnRelay`: the specified reply and rows for two statements with anything in between and a break at any point |
| BackupStore.StatusTellsIff | apps/relay-server/src/vault-backup.ts:8-15 | a failed deletion left every row exactly when its status is 403 or 409; a 500 can come after the row is gone |
| BackupStore.PutReplacesItsPredecessor | apps/relay-server/src/vault-backup.ts:31-69 | an accepted upload replaces exactly the version before it with the same writer, or is the stored backup again; a replay without a claim changes nothing |
| BackupStore.PutAloneRespectsLocks | apps/relay-server/src/vault-backup.ts:50-57 | run alone, an upload changes a lock row only by a claim, which ends every session of the device |
| BackupLog.BackupLogIsLinear | apps/relay-server/src/vault-backup.ts:27-70 | over any interleaving, since the last deletion the acknowledged versions are exactly 1 to n in order, by one writer, with one content per version |
| BackupLog.ReplayChangesNothing | apps/relay-server/src/vault-backup.ts:58-61 | an identical upload without a claim changes no table whatever else is under way |
| BackupLog.DeletionTakesOwnRow | apps/relay-server/src/vault-backup.ts:8-15 | on every interleaving with uploads and other deletions a deletion removes a row of its own writer, unless the token was deleted and used again between its statements |
| BackupLog.PutAloneIsARun | apps/relay-server/src/vault-backup.ts:27-70 | the route run alone is a run of the transaction system |
| BackupLog.StepKeepsInvariant | apps/relay-server/src/vault-backup.ts:29-43 | advisory lock and row locks keep what every open upload has read true until it ends |
| InstanceLock.UnclaimedChangeIff | apps/relay-server/src/vault-backup.ts:50-56 | an upload without a claim changes an existing lock row if and only if it read no row, names another instance and is no replay |
| InstanceLock.LockStaysUntilClaimed | apps/relay-server/src/vault-backup.ts:50-57 | once no upload that missed the row is under way, only a claim changes it, on every run |
| InstanceLock.ClaimIsEffective | apps/relay-server/src/auth.ts:41-63 | until the next claim only the claiming instance authenticates, every unclaimed upload of another instance is stopped, and the sessions the claim found never authenticate again |
| InstanceLock.LockIsTakenWithoutClaim | apps/relay-server/src/vault-backup.ts:54-55 | a concrete run of two first uploads in which the second takes the lock without a claim |
| BackupClients.CommitRowIsCommitPut | apps/relay-server/src/vault-backup.ts:62-68 | the row effect used for the clients is that of the relay's upload |
| BackupClients.StoredVersionNeverAhead | apps/local-daemon/src/secure-vault.ts:171-182 | no client's stored version exceeds the relay's, through lost replies, failed uploads and crashes |
| BackupClients.NoUnseenOverwrite | apps/local-daemon/src/secure-vault.ts:143-186 | an upload is accepted as version n+1 only if its client wrote or downloaded version n as it stands, and the reported version is the signed one |
| BackupClients.AcceptedInCaptureOrder | apps/local-daemon/src/secure-vault.ts:171-184 | accepted versions of one client are in the order its snapshots were captured, even when uploads in between fail |
| VaultRotation.ImportStorage | apps/local-daemon/src/secure-vault.ts:195-218 | stopped or failing at any await, no vault directory is lost; it succeeds exactly when every await does and the dated name is free, and then the old directory is kept under that name |
| VaultRotation.SwapOrUndo | apps/local-daemon/src/secure-vault.ts:214-215 | the swap succeeds exactly when both renames can and do; one that fails moves the old directory back |
| VaultRotation.RestoreSecure | apps/local-daemon/src/secure-vault.ts:219-253 | the same, with its exact condition, for restoring and for a password change without a relay backup |
| VaultRotation.Swap | apps/local-daemon/src/secure-vault.ts:284-285 | succeeds exactly when both renames can and do; if the root is left empty, the old directory is under its dated name |
| VaultRotation.RotateOnRelay | apps/local-daemon/src/secure-vault.ts:271-288 | succeeds exactly when every await does, the new credentials were free, no backup came between and the dated name is free, and then swaps directory and row; at every stopping point no directory is lost, the relay holds the old or the new row once the first upload settled, and the old or the new password works; the reported failure comes only from an answer, is true after 409, and after a broken connection exactly when the connection broke before the DELETE or a newer backup came between |
| SevenShares.SplitSeven | apps/local-daemon/src/horcrux.ts:10-16 | seven shares, six of them the drawn ones, that reconstruct the secret; anything but 48 bytes is refused |
| SevenShares.ReconstructSeven | apps/local-daemon/src/horcrux.ts:17-22 | succeeds exactly on seven shares of 48 bytes and returns their sum |
| SevenShares.OrderDoesNotMatter | apps/mobile-android/native/src/main/java/app/cryptopigeon/nativeclient/SevenShares.java:11-15 | reconstruction depends only on which shares there are, not on their order |
| SevenShares.SeventhIsUnique | apps/mobile-android/native/src/main/java/app/cryptopigeon/nativeclient/SevenShares.java:7-10 | for any six shares and any value exactly one seventh share reconstructs that value |
| SevenShares.Rebalance | apps/local-daemon/src/horcrux.ts:40-40 | share 7 becomes the external share and the sum of shares 6 and 7 stays |
| SevenShares.RebalancingKeepsTheSecret | apps/mobile-android/native/src/main/java/app/cryptopigeon/nativeclient/NativeFragments.java:36-36 | hence rebalancing keeps the secret |
| SevenShares.HorcruxStore.Scatter | apps/local-daemon/src/horcrux.ts:37-52 | afterwards the seven places hold genuine shares that reconstruct the wrapped key, the seventh being the external one if given |
| SevenShares.HorcruxStore.Collect | apps/local-daemon/src/horcrux.ts:53-68 | succeeds exactly when all seven shares match their digests and returns what they reconstruct |
| SevenShares.GenuineSharesDetermineTheKey | apps/mobile-android/native/src/main/java/app/cryptopigeon/nativeclient/NativeFragments.java:49-65 | shares that match the digests of a scatter reconstruct the key that was scattered |
| SevenShares.ScatterThenCollect | apps/local-daemon/src/horcrux.ts:37-68 | collecting after scattering returns the wrapped key in every later state that passes the digest check |
| SignalBudget.Budget.Take | apps/relay-server/src/signaling.ts:8-17 | decides as a limiter that never forgets: fewer than 30 accepts of the pair in the last 60 seconds, and a free place among 10000 pairs with recent signals |
| SignalBudget.Budget.Prune | apps/relay-server/src/signaling.ts:11-11 | drops exactly the pairs whose last signal left the window |
| SignalBudget.AnyWindowWithinLimit | apps/relay-server/src/signaling.ts:13-15 | no window of 60 seconds, wherever it lies, contains more than 30 accepts of a pair |
| SignalBudget.PruneKeeps | apps/relay-server/src/signaling.ts:11-13 | the pruned map still answers every later question as the full record would |
| SignalBudget.KeysAreUnorderedPairs | apps/relay-server/src/signaling.ts:12-12 | two requests share a key exactly when they name the same two users |
| ControlLines.CutAppend | apps/local-daemon/src/tor-transport.ts:89-89 | a packet boundary anywhere, even inside a line break, changes no line |
| ControlLines.CutIsExact | apps/local-daemon/src/tor-transport.ts:89-89 | the lines with their line breaks, and the rest, are the text again, and no break is left inside any of them |
| TorControl.TorTransport.Receive | apps/local-daemon/src/tor-transport.ts:89-101 | the reader's loop computes the state of the run theorems for every packet |
| TorControl.TorTransport.Command | apps/local-daemon/src/tor-transport.ts:102-102 | step of `TorControl.RepliesMatchCommands`: a command is written exactly when none waits and the transport is open |
| TorControl.TorTransport.Close | apps/local-daemon/src/tor-transport.ts:149-149 | step of `TorControl.RepliesMatchCommands`: closing settles the waiting command, and a second close changes nothing |
| TorControl.TorTransport.Timeout | apps/local-daemon/src/tor-transport.ts:102-102 | step of `TorControl.RepliesMatchCommands`: the timer settles the waiting command before it closes |
| TorControl.PacketsDoNotMatter | apps/local-daemon/src/tor-transport.ts:89-101 | any split of the stream yields the same replies, state and wake-ups |
| TorControl.EventsLeaveReplies | apps/local-daemon/src/tor-transport.ts:90-100 | interleaved 650 lines never alter a reply |
| TorControl.WakesExactlyOnProgress | apps/local-daemon/src/tor-transport.ts:92-98 | an event wakes the retry loop exactly when a service, a circuit or the bootstrap became ready, and never after closing |
| TorControl.LivenessIsHeeded | apps/local-daemon/src/tor-transport.ts:95-96 | DOWN forgets circuit and published services, UP marks the circuit ready, whatever follows on the line |
| TorControl.CircuitIsHeeded | apps/local-daemon/src/tor-transport.ts:96-96 | a built circuit marks the circuit ready |
| TorControl.UploadIsHeeded | apps/local-daemon/src/tor-transport.ts:92-94 | an uploaded descriptor adds exactly its service, with or without the suffix |
| TorControl.BootstrapIsHeeded | apps/local-daemon/src/tor-transport.ts:97-97 | the bootstrap progress is the number reported, at most 100 |
| TorControl.RepliesMatchCommands | apps/local-daemon/src/tor-transport.ts:101-102 | on every run, with timeouts and closing at any point: the reply lines are cut after each line of three digits and a space; the k-th promise settled is that of the k-th command, with the lines of the k-th reply if its last line begins with `250 ` and with its three digits as failure otherwise; each is settled at most once and after closing all of them are |
| Socks.Socket.Connect | apps/local-daemon/src/tor-transport.ts:154-162 | succeeds exactly on the replies of RFC 1928, sections 3 and 6, consumes exactly their bytes and leaves all the rest; writes the two requests; each failure has its exact condition |
| Socks.Socket.Read | apps/local-daemon/src/tor-transport.ts:161-161 | takes exactly n bytes off the stream however the packets were cut |
| Socks.Shape | apps/local-daemon/src/tor-transport.ts:162-162 | a stream is a success reply exactly when it reaches the end its first bytes announce |
| Prekeys.Upload | apps/relay-server/src/prekeys.ts:57-83 | all rows of an upload or none |
| Prekeys.NeverHandedOutTwice | apps/relay-server/src/prekeys.ts:214-279 | with any number of concurrent bundles, rollbacks and re-uploads an upload is in at most one committed bundle, for ever, and what a bundle takes is the latest upload to its id |
| Prekeys.EveryUploadIsAccountedFor | apps/relay-server/src/prekeys.ts:57-121 | every upload is handed out, replaced before use, or waiting, and only one of these |
| Prekeys.LastResortStays | apps/relay-server/src/prekeys.ts:96-111 | a last-resort row stays one and is never consumed, whatever is uploaded over it |
| Prekeys.LastResortOfferedIff | apps/relay-server/src/prekeys.ts:96-111 | on every run a device has a last-resort prekey to offer if and only if one was the first upload to its id |
| Prekeys.UploadGoesOutIff | apps/relay-server/src/prekeys.ts:68-70 | what is uploaded over a row, the same key again or another, of either kind, can be in the next bundle if and only if the row is a one-time row |
| Prekeys.SameKeyGoesOutTwice | apps/relay-server/src/prekeys.ts:96-111 | a run in which two bundles carry the same key, uploaded again in between as one-time or as last-resort key |
| Prekeys.CleanupKeepsTheLatest | apps/relay-server/src/prekeys.ts:341-353 | cleanup leaves every device a latest signed prekey, and with distinct upload times the same one |
| Base64.DecodeEncode | packages/protocol/src/serverless-invite.ts:5-5 | decoding gives back what was encoded, with either alphabet |
| Base64.IsBase64Exactly | apps/mobile-android/native/src/main/java/app/cryptopigeon/nativeclient/ServerlessInvite.java:41-41 | the re-encoding check accepts exactly the one encoding of n bytes |
| InviteText.ReadPrintedArray | packages/protocol/src/serverless-invite.ts:15-16 | the printed array is read back element by element |
| InviteText.AndroidPrintsTheSame | apps/mobile-android/native/src/main/java/app/cryptopigeon/nativeclient/ServerlessInvite.java:16-16 | escaping every slash and replacing it back gives the desktop's text |
| Invites.AndroidAgrees | apps/mobile-android/native/src/main/java/app/cryptopigeon/nativeclient/ServerlessInvite.java:14-17 | Android signs the same bytes as the desktop for every valid invite |
| Invites.SigningText | packages/protocol/src/serverless-invite.ts:13-17 | the text that is signed, field by field in order |
| Invites.SigningBytesAreInjective | packages/protocol/src/serverless-invite.ts:13-17 | different valid invites have different signing bytes |
| Invites.SigningBytesFit | packages/protocol/src/serverless-invite.ts:29-29 | the signing bytes of a valid invite always fit the 8192-byte inflate limit |
| Invites.ParsingCreatedInvite | packages/protocol/src/serverless-invite.ts:19-35 | parsing a created link gives back the invite if and only if it names the public half of the key that signed it, and is otherwise refused as a signature |
| Invites.OwnInviteParses | apps/local-daemon/src/serverless-contacts.ts:12-18 | every link a device creates of itself is read back as its invite, with no further condition |
| InviteExample.PlainestIsIdeal | packages/protocol/src/serverless-invite.ts:19-35 | the assumptions about compression and signatures can be met |
| InviteExample.OtherKeyIsRefused | packages/protocol/src/serverless-invite.ts:19-35 | one invite and two keys: both links are created, the first parses, the second is refused |
| Invites.AcceptedInvitesAreSigned | packages/protocol/src/serverless-invite.ts:24-35 | what the parser accepts is valid and signed by its own key over exactly its bytes |
| Attachments.EncryptChunks | apps/local-daemon/src/attachments.ts:96-127 | chunk i is slice i of the file, sealed with its nonce and with attachment, index and count as associated data |
| Attachments.Download | apps/local-daemon/src/attachments.ts:178-229 | succeeds exactly when the manifest is accepted, every chunk opens in its place, and digest and size agree; returns the file of the digest |
| Attachments.JoinedExactly | apps/local-daemon/src/attachments.ts:190-217 | what is put together is the concatenation of all plaintexts if every chunk has its nonce and is sealed under the key for its place, and nothing otherwise |
| Attachments.MakeAad | apps/local-daemon/src/attachments.ts:57-64 | the buffer filled in place is the identifier and three big-endian words |
| Attachments.AadInjective | apps/local-daemon/src/attachments.ts:57-64 | the associated data determines attachment, index and count |
| Attachments.RoundTrip | apps/local-daemon/src/attachments.ts:96-127 | cutting and joining is the identity for every file |
| Attachments.SendThenDownload | apps/local-daemon/src/messages.ts:83-83 | for every file, name and type: what is sent is accepted by the receiver and downloaded as the same file; sent is exactly what is at most 25 MiB, with a type of at most 255 characters and a name that is not empty once sanitised |
| Attachments.SendFile | apps/local-daemon/src/server.ts:462-463 | the exact condition under which a file is sent, and what was uploaded when it is not |
| Attachments.SanitizedIsSafe | apps/local-daemon/src/attachments.ts:75-81 | the name in the manifest contains nothing a file system refuses, a safe short name is kept, and nothing is left exactly of names made of control characters |
| Attachments.MovedChunkIsRejected | apps/local-daemon/src/attachments.ts:200-217 | a chunk served in another one's place is never accepted, whatever the nonces are |
| Attachments.EverythingIsAccepted | apps/relay-server/src/attachments.ts:12-16 | up to 25 MiB the count is 1 to 400 and every chunk passes the relay's and the spool's validators |
| Attachments.ValidatorsAgree | apps/local-daemon/src/tor-routing.ts:49-58 | relay and spool accept the same blobs and the same chunks |

## Left out

- Liveness: an unreachable peer at the head of the outbox holds up the rest, and an
  envelope that cannot be decrypted stays in the inbox; only safety is proved.
- Restoring an old backup inside the delivery model: it rewinds the ratchet and the seen
  ids, so the delivery guarantees do not span it.
- Peers that break the protocol, and the strength of the cryptography.
- Attachment placeholders and profile rows written by the message transactions, and the
  typing indicator kept in memory.
- Creating a contact from a fetched prekey bundle while receiving: it appears as the step
  that establishes a session, not inside the loop of `SyncMessages`.
- Malformed envelopes, which the receive loop skips before looking at them.
- HTTP, WebSocket and process plumbing, timers and rate limits of routes, the user
  interface, Android services, packaging, logging.
- The backup timer does not enter the request chain; nothing is claimed about its order
  with message transactions.
- BackupClients.NoUnseenOverwrite: between deletions of the token only, since a deletion starts the versions anew.
- BackupStore.BackupRoutes.Put: the base64 and schema checks of the request body are represented by its decoded fields.
- VaultRotation.RestoreSecure: filling the staging directory is one step with an arbitrary partial result, because nothing outside that directory depends on it.
- SevenShares.HorcruxStore.Scatter: writing the places is one step; a crash in between is covered by the staging directory in `VaultRotation`.
- Invites.ParsingCreatedInvite: the JSON reader knows arrays of plain strings and natural numbers, and the link reader no percent-encoding; other texts that the original parsers accept are refused here.
- Socks.Socket.Connect: requires a host of at most 255 bytes, which the onion pattern guarantees.
- Prekeys.NeverHandedOutTwice: each row of an upload is its own step, which allows more interleavings than its transaction; the order by upload time is left open; the rows of a registration count as first uploads.
- SessionRefinement.Flush: in the Tor modes; the relay-only loop is proved against its own specification in `LocalDaemon.FlushOutbox`.
- TorControl.RepliesMatchCommands: assumes that Tor answers no command before it is written and that every asynchronous event is a single line, as for the four events subscribed.
- DaemonRefinement.SyncIsARun: takes the pending list as fetched at the start, as the loop does.
