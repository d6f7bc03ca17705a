# Verification models of the WhatsApp gateway backend

Dafny models of five parts of the backend and proofs about them:

1. **The OAuth login handshake.** The Redis key space (requests, reverse user-code index, per-sender counters,
   authorization codes, STOP pointers) with each Lua script and command as one atomic step, a clock, keys that Redis
   may drop once their time is over, and callers that read first and act later. `Pending` holds the scripts as
   functions, `PendingStore` the same scripts as the in-place updates they are, `Handshake` the runs, the other
   `Handshake*` files one theme each, `PendingScans`/`LiveHandshake` the two SCAN loops and `LiveLogin` the callers.
2. **The API-key cache and the JWKS refresh**, both fenced by a generation number while a slow lookup runs outside the
   lock (`KeyCache`, `KeyCacheVerifier`, `Jwks`, `JwksVerifier`).
3. **Attachment storage**: connections, session bindings, asset rows, the object store, and workers whose transactions
   are sequences of separate acts that can end anywhere (`Media*`).
4. **The crypt15 container**: the Protocol Buffers wire format as a grammar, the cursor loop that looks a field up, the
   framing with its optional flag byte, and the accepted forms of a root key (`Wire`, `Crypt15`, `RootKey`).
5. **The simulated WhatsApp peer**: blocking sends and their accounting, the resumable event log with overlapping client
   loops, and the story check against the story run (`SendLedger`, `SendConservation`, `SendOutcomes`, `FakePeer`, `EventCursor`,
   `EventClient`, `Stories`).

In every state machine a step whose guard fails changes nothing, so *every* sequence of steps is a run and the theorems
are about all sequences. Methods of classes carry the code's own control flow. Their contracts either equate the new
state with the specification function or say that what they did, together with whatever others did in between, is a run,
so that everything proved of runs holds of them.

`dafny verify dfyconfig.toml` checks the project.

## Assumptions

- Redis scripts, MySQL row locks and the peer's mutex make each step atomic. Clocks never run backwards; a reading that a
  caller took earlier may be old. Browser codes, authorization codes and asset ids are fresh; hashes are injective.
- Redis may drop a key at any time after its deadline, and never before.
- Objects are deleted by the worker alone, a request to the object store takes effect at once or never, and publishing a
  notification never fails with a validation error (`backend/internal/media/worker.go:110-121` would otherwise mark a
  ready row failed). The clock stays below the largest 64-bit millisecond by at least one backoff cap.

## Where the code and its documentation differ

The models follow the code.

- `backend/internal/oidp/pending.go:376-379` says that a code collision changes neither record. The script overwrites:
  `FinalizeCollision` gives the exact condition, `FinalizeCollisionExample` an instance.
- `backend/internal/oidp/pending.go:238-241` says that closing a request removes its reverse user-code index. The scripts
  delete the key by session and code without looking at it (lines 288, 706), so a verified flow that is closed after its
  used marker has lapsed takes the code from a later login that got the same one: `CodeWorks` gives the exact condition,
  `LostCodeExample` a run.
- `backend/internal/oidp/pending.go:337-339` promises to deny every pending or verified request of a client. A GET that
  fails is passed over in silence (lines 352-355): `SkippedReads` gives the exact condition for a scan left to itself,
  `SkippedReadExample` an instance, `ScanSettles` what holds with anything interleaved.
- `backend/internal/backup/crypt15.go:84-89` lists the raw and serialized keys as accepted. Both are trimmed first, so
  keys that begin or end in a whitespace rune are refused or changed: `RawKeyLoads`, `SerializedKeyLoads`.
- `site-marketing/content/docs/architecture/media-storage.mdx:82-83` says that a state change and its event are committed
  together. When the insert of the event fails and the transaction lives on, `step` stages a retry over the change and
  commits both (`backend/internal/media/worker.go:110-136`, `221-230`): `EventsMatchChanges` gives the exact condition
  on the acts of a run, an insert that fails in a transaction that is then committed, and `EventMissingExample` a run.
- `backend/internal/media/storage.go:68-70` accepts a retention that fits when the connection is saved. By the time of a
  capture it may no longer fit and wraps into the past: `ExpiryAhead` gives the exact condition.

## Model

| member | source | states |
|---|---|---|
| PendingStore.PendingStore.ReserveUserCode | backend/internal/oidp/pending.go:495-506 | set if absent, for the time left to the deadline |
| PendingStore.PendingStore.Load | backend/internal/oidp/pending.go:200-209 | the record, unless its own deadline has passed or it is marked expired |
| PendingStore.PendingStore.Create | backend/internal/oidp/pending.go:161-195 | the whole new store is Create's: both keys written, or neither when the request exists or the code is in use |
| PendingStore.PendingStore.ClaimVerified | backend/internal/oidp/pending.go:544-631 | the in-place claim script leaves the store and gives the answer of Claim, branch by branch |
| PendingStore.PendingStore.Bump | backend/internal/oidp/pending.go:587-603 | the mismatch branch: counter, rate limit, attempt limit, denial and index removal in that order |
| PendingStore.PendingStore.Accept | backend/internal/oidp/pending.go:616-630 | the winning end: deadline cut to the grace, used marker, notice |
| PendingStore.PendingStore.ClaimWrongCode | backend/internal/oidp/pending.go:636-661 | the sender's counter grows by one, in a fresh window when it was missing |
| PendingStore.PendingStore.RememberStop | backend/internal/oidp/pending.go:665-667 | the STOP key holds the flow for ten minutes |
| PendingStore.PendingStore.StopScript | backend/internal/oidp/pending.go:695-711 | denies only a verified request, and clears its index and the pointer |
| PendingStore.PendingStore.Transition | backend/internal/oidp/pending.go:242-291 | compare-and-set to denied or expired with its filters and its retained lifetime |
| PendingStore.PendingStore.Finalize | backend/internal/oidp/pending.go:380-432 | first finalization stores code and record, a repeated one returns the record, anything else changes nothing |
| PendingStore.PendingStore.RedeemAuthCode | backend/internal/oidp/pending.go:455-468 | the code is gone after any redemption, successful or late |
| Pending.ClaimCases | backend/internal/oidp/pending.go:569-631 | every claim leaves the store alone, drops its own entry, counts a mismatch, or wins |
| HandshakeEntries.EntryMoves | backend/internal/oidp/pending.go:188-195 | over all runs a user-code entry is made only out of nothing or, by a creation with that very key, out of a reservation; a live one only becomes used, for the same flow, or goes; no creation touches a live or used one |
| HandshakeEntries.ReserveExact | backend/internal/oidp/pending.go:495-506 | a reservation gets exactly a free key whose deadline lies ahead, for the time left |
| HandshakeEntries.CreateExact | backend/internal/oidp/pending.go:158-195 | in every reachable world a creation succeeds if and only if its deadline lies ahead and the code is not in the hands of another flow, and then both keys last until the deadline; else nothing changes |
| HandshakeEntries.ReservationHolds | backend/internal/oidp/provider.go:1066-1085 | after the reservation of a free code and any steps but a creation with it, the login's request is created and its code leads to it |
| HandshakeEntries.CodeWorks | backend/internal/oidp/pending.go:544-631 | however a run goes on, while the created request is pending and in time a claim with its code, mode and command wins it, if and only if no other flow with the same session and code was closed meanwhile |
| HandshakeEntries.LostCodeExample | backend/internal/oidp/pending.go:268-291 | a run in which closing a verified flow takes the code from a later pending one |
| HandshakeAnswers.ClaimExact | backend/internal/oidp/pending.go:544-631 | every claim in every reachable world: answer and effect on the flows by what the code leads to, the mode, the command, the sender's tries and the request's attempts |
| HandshakeAnswers.UsedMarker | backend/internal/oidp/pending.go:616-630 | after a win the code is marked used for the winner until the flow's deadline, a minute at most |
| HandshakeAnswers.LowerSpelled | backend/internal/oidp/pending.go:613-613 | the command is lowered letter by letter, for the 26 capitals only |
| HandshakeAnswers.WrongCodeExact | backend/internal/oidp/pending.go:636-661 | a wrong code counts one try of its sender and is refused as too many from the sixth of a window |
| HandshakeAnswers.StopExact | backend/internal/oidp/pending.go:695-711 | a STOP denies its flow if and only if it is verified and there, with code and pointer removed and the block set; one in time is there |
| HandshakeAnswers.StopFollowsWin | backend/internal/oidp/pending.go:663-711 | remembering a win, reading it back and stopping denies the flow, while it is verified and in time |
| HandshakeAnswers.TransitionExact | backend/internal/oidp/pending.go:226-291 | closing takes effect if and only if the flow is there, meant by the filters, and pending or allowed verified; how long the closed record stays |
| HandshakeAnswers.FinalizeExact | backend/internal/oidp/pending.go:376-432 | finalization succeeds if and only if the flow is verified or finalized, there and in time; the first brings the grant, later ones get it back and change nothing |
| HandshakePersistence.FlowsPersist | backend/internal/oidp/pending.go:197-209 | over all runs a flow that is neither denied nor expired and in time is in the store as last recorded and is what Load gives |
| HandshakePersistence.RedeemExact | backend/internal/oidp/pending.go:450-468 | a redemption succeeds if and only if the code is there and the deadline its finalization stored has not passed; before that deadline a code works exactly until it is redeemed |
| HandshakeFlows.ReachableFlows | backend/internal/oidp/pending.go:200-291 | over all runs: status order, terminal records never rewritten, identity set once, deadline never grows |
| HandshakeFlows.LoadWithinDeadline | backend/internal/oidp/pending.go:200-209 | Load never returns a flow past its first deadline, nor a verified one past its grace |
| HandshakeIndex.IndexAlwaysSound | backend/internal/oidp/pending.go:188-195 | in every reachable world a live index entry whose request exists names a pending request of its own session and code |
| HandshakeIndex.OneLiveEntry | backend/internal/oidp/pending.go:188-195 | two live entries never name one existing request |
| HandshakeIndex.ClaimBranches | backend/internal/oidp/pending.go:569-615 | the status-based already_used branch and the session test never fire; expiry and victory are characterised exactly |
| HandshakeCodes.SingleUse | backend/internal/oidp/pending.go:380-468 | one code per flow, at most one redemption of it, never stored again after, all finalizations answered alike (section 4.1.2 of RFC 6749) |
| HandshakeCodes.FinalizeCollision | backend/internal/oidp/pending.go:376-432 | finalization leaves all stored codes alone if and only if it does not move the request, or the code is new or brings the same record; it leaves everything alone if and only if it does not move the request |
| HandshakeCodes.FinalizeCollisionExample | backend/internal/oidp/pending.go:376-432 | after two creations, claims and finalizations the first client's code yields the second client's grant |
| HandshakeBinding.RedemptionIsBound | backend/internal/oidp/provider.go:429-446 | a successful redemption returns exactly what the one finalization of its flow stored, with the client, redirect URI and challenge of that flow's request (section 4.1.2 of RFC 6749, section 4.4 of RFC 7636) |
| HandshakeStops.OneWinner | backend/internal/oidp/pending.go:616-630 | a flow is won at most once, and its identity is the winner's for good |
| HandshakeStops.StopDeniesOwnFlow | backend/internal/oidp/pending.go:663-711 | a STOP that changes anything denies a verified flow of its own sender, which is never finalized afterwards |
| HandshakeStops.DeniedForGood | backend/internal/oidp/pending.go:695-711 | a denied flow stays as it is and never gets a code |
| HandshakeMisses.AttemptAccounting | backend/internal/oidp/pending.go:587-603 | pending means at most nine attempts, ten means denied, attempts are exactly the recorded misses, five per sender and window |
| HandshakeMisses.NoWindowExhausts | backend/internal/oidp/pending.go:587-661 | no single sender's window can exhaust a request |
| HandshakeWindows.WindowsApart | backend/internal/oidp/pending.go:587-594 | the windows of one sender open at least five minutes apart, the n-th n - m windows after the m-th |
| HandshakeWindows.SenderRate | backend/internal/oidp/pending.go:587-661 | over any run a sender adds at most five attempts, to whatever requests, per five minutes begun |
| HandshakeNotices.NoticesMatchFlows | backend/internal/oidp/pending.go:268-291 | the notices published for a flow are exactly those its record implies, each once |
| LiveLogin.Gateway.HandleLogin | backend/internal/oidp/login_interceptor.go:184-225 | the commands sent and the exact answer, with any of them lost on the way or back; a win is remembered for STOP unless that command is lost, an expired claim is counted |
| LiveLogin.Gateway.HandleStop | backend/internal/oidp/login_interceptor.go:121-136 | a missing or unreadable STOP key changes nothing and reads as expired; otherwise it holds a flow this sender won, the answer is the script's, and "denied" means denied |
| LiveLogin.Gateway.HandleFinalize | backend/internal/oidp/provider.go:377-452 | the answer and the commands for each state of the flow, with failing reads, lookups and replies; the payload is bound to the request that was loaded; every grant given for a flow is the same minted one, whoever finalized it first |
| PendingScans.ScanSettles | backend/internal/oidp/pending.go:297-374 | after a scan without error, whatever ran between its reads and writes, every request whose key it read is closed |
| PendingScans.ScanCounts | backend/internal/oidp/pending.go:340-374 | the count is the number of requests the scan itself moved, also when keys repeat; expiry overwrites only pending ones |
| PendingScans.QuietScanCounts | backend/internal/oidp/pending.go:297-374 | left to itself a scan closes, and counts once each, exactly the requests it is meant for whose key it read |
| PendingScans.SkippedReads | backend/internal/oidp/pending.go:350-355 | left to itself a scan leaves a request open exactly when no read of its key succeeded |
| PendingScans.SkippedReadExample | backend/internal/oidp/pending.go:350-355 | a scan that reports success and leaves its client's request open |
| LiveHandshake.LiveHandshake.DenyClientPending | backend/internal/oidp/pending.go:340-374 | the nested loops do what the scan specification says, count and error included |
| LiveHandshake.LiveHandshake.ExpireBySession | backend/internal/oidp/pending.go:297-332 | likewise for the session scan |
| KeyCache.RevokedStaysOut | backend/internal/authz/apikey_cache.go:93-213 | after a revocation and its eviction no entry holds the key and no later call returns it, whatever was in flight |
| KeyCache.HitsExactly | backend/internal/authz/apikey_cache.go:127-160 | a lookup hits if and only if the principal was the last published for the raw key, less than ttl ago, with no eviction since that means it |
| KeyCache.EvictLeaves | backend/internal/authz/apikey_cache.go:169-213 | which entries each kind of eviction leaves; an empty id evicts nothing |
| KeyCache.CallsAreFaithful | backend/internal/authz/apikey_cache.go:93-124 | what a call returns or an entry holds is an API key with organization and key id and came from the delegate; retries never exceed evictions during the call |
| KeyCache.FetchedFromStore | backend/internal/authz/apikey_cache.go:111-117 | what the delegate returned was the store's row at that moment |
| KeyCacheVerifier.CachingKeyVerifier.Lookup | backend/internal/authz/apikey_cache.go:127-141 | a hit, or a miss that drops the expired entry |
| KeyCacheVerifier.CachingKeyVerifier.StoreIfGeneration | backend/internal/authz/apikey_cache.go:146-160 | publishes only in the generation observed |
| KeyCacheVerifier.CachingKeyVerifier.EvictBy | backend/internal/authz/apikey_cache.go:204-213 | bumps the generation and removes exactly the matching entries |
| KeyCacheVerifier.LiveVerifier.VerifyKey | backend/internal/authz/apikey_cache.go:93-124 | the steps of the retry loop among any other calls, exactly; they are a run of the cache, and the loop turns at most once more than evictions ran; undisturbed, it answers with the cached principal, or else with the row and caches it, if and only if the row is there, reachable and an API key with organization and key id |
| Jwks.RefreshDiscipline | backend/internal/authz/jwt.go:192-225 | one fetch at a time, generation counts publications, one success per observed generation, spaced unknown-key fetches, never an empty set |
| Jwks.ServedSets | backend/internal/authz/jwt.go:164-190 | what is served is a published set no older than the one first seen; a call fails only if it saw none; who leaves the gate takes the newest set along if it is newer than what it saw; two guards never fire |
| Jwks.TrustedSets | backend/internal/authz/jwt.go:164-172 | over all interleavings a call goes without a refresh if and only if the set it saw was published less than refreshEvery before its reading of the clock and has its key id |
| Jwks.JudgedMeans | backend/internal/authz/jwt.go:167-176 | a call that goes without is served what it saw, any other goes on to refresh |
| JwksVerifier.JwtVerifier.Refresh | backend/internal/authz/jwt.go:192-225 | with any others before each of its steps it is a run, step by step from the gate to its release, and settles the call with what it returns; undisturbed, which branch is taken and what it leaves |
| JwksVerifier.JwtVerifier.KeySetFor | backend/internal/authz/jwt.go:164-190 | among any others, also between the reading of the cache and of the clock, it is a run; it serves a non-empty published set no older than the one it saw, and nothing only if it saw none; undisturbed, exactly when it fetches, by the age of the set, the key id and the last fetch, what it serves and what it leaves behind |
| Media.BackoffDelay | backend/internal/media/worker.go:123-131 | the loop yields the base times two to the attempts, capped, and never leaves the cap on the way |
| Media.DelayWithin | backend/internal/media/worker.go:123-131 | the delay lies between base and cap for every number of attempts |
| Media.DelayDoubles | backend/internal/media/worker.go:123-131 | the base at first, then twice as long after each failure, until the cap |
| Media.ExpiryAhead | backend/internal/media/capture.go:89-94 | a deadline lies ahead if and only if the accepted retention still fits at capture |
| Media.ExpiryWrapsExample | backend/internal/media/storage.go:68-70 | an accepted retention that makes the next day's assets expire at once |
| MediaAsset.PerformKeeps | backend/internal/media/worker.go:94-231 | every act of a worker, answered or not, keeps the asset's invariant and that of the row it would commit |
| MediaRuns.StepSound | backend/internal/media/worker.go:80-231 | every step of anyone keeps the world sound |
| MediaRuns.DeleteKeeps | backend/internal/media/storage.go:194-223 | deleting a connection never takes a row with work left |
| MediaRuns.BucketSteps | backend/internal/media/storage.go:89-193 | creating, saving and linking leave every connection's owner and destination as they are |
| MediaGuarantees.StoreAgrees | backend/internal/media/worker.go:141-231 | ready and unexpired means the object is there and is the version on record, expired means it is not; one upload at most; the connection is there with its first destination |
| MediaDue.NotStranded | backend/internal/media/worker.go:94-131 | in every reachable world a pending row, one with a notification and one past its deadline come due within a backoff cap; a published or rejected one exactly at its deadline; never, if and only if nothing is left to do |
| MediaDue.TakenWithinCap | backend/internal/media/worker.go:80-93 | so a worker can take any row with work left one cap later, unless another has it |
| MediaGuarantees.CapturedRow | backend/internal/media/capture.go:72-99 | what a capture records: a pending row due at once, with the retention's deadline, ahead if and only if it still fits |
| MediaGuarantees.LinkTakes | backend/internal/media/storage.go:165-193 | linking and unlinking decide where the session's captures go, within the own organization |
| MediaGuarantees.SaveTakes | backend/internal/media/storage.go:89-145 | saving changes the retention of the own connection with its own destination, nothing else |
| MediaGuarantees.UploadsFromSource | backend/internal/media/worker.go:141-211 | downloads and uploads only with the source still there, and process is entered at most twice |
| MediaGuarantees.GoneForGood | backend/internal/media/worker.go:147-169 | after expired is committed no later state holds the object, at any destination |
| MediaGuarantees.RunSince | backend/internal/media/worker.go:80-231 | over whole runs states only move forward; deadline, identity and destination never change |
| MediaGuarantees.CaptureReplays | backend/internal/media/capture.go:95-103 | one row per message and index, and a replay changes nothing whatever id it brings |
| MediaGuarantees.DeleteLeavesNothing | backend/internal/media/storage.go:194-223 | deletion succeeds if and only if the connection is the own, no session uses it and its rows are expired and announced, and leaves no row, work or object of its assets |
| MediaEvents.EventsMatchChanges | backend/internal/media/worker.go:212-231 | every committed change has exactly one event if and only if no transaction in which the insert of the event failed was committed; nothing leaves the outbox unpublished |
| MediaEvents.UnloggedMeansRefused | backend/internal/media/worker.go:110-139 | from any sound state, some commit leaves a change without its event exactly when an insert fails and the same transaction is committed after all |
| MediaExample.EventMissingExample | backend/internal/media/worker.go:221-230 | a run that ends with a ready row and no event |
| MediaWorker.Service.Process | backend/internal/media/worker.go:141-231 | the code's branches over a changing world are a run; the asset in memory is the worker's; success stages row and event, due at once: expired if the deadline had passed before, ready if it has not by then; a rejection only of rejected content; certain when no request fails |
| MediaWorker.Service.SelectDue | backend/internal/media/worker.go:87-93 | the earliest due row that nobody has locked, or none is due |
| MediaWorker.Service.StepOnce | backend/internal/media/worker.go:80-140 | takes the earliest due unlocked row; its transaction to commit or rollback is a run and leaves no lock; when nothing fails it publishes the notification or commits a ready or expired row that is due by then |
| MediaWorker.Service.CleanUp | backend/internal/media/worker.go:147-169 | the cleanup half |
| MediaWorker.Service.Upload | backend/internal/media/worker.go:170-208 | the upload half |
| MediaWorker.Service.Record | backend/internal/media/worker.go:212-231 | the row, due at once, and its event are staged, or the act failed |
| MediaWorker.Service.Notify | backend/internal/media/worker.go:94-106 | the notification is cleared only after it was published |
| MediaWorker.Service.Settle | backend/internal/media/worker.go:110-135 | what is staged for a rejection and for a retry; when that update fails nothing is staged and the transaction is not committed |
| MediaWorker.Service.End | backend/internal/media/worker.go:136-139 | a commit installs the staged row; a lost one leaves the rows and what was done to the object store |
| Wire.PbFieldBytes | backend/internal/backup/crypt15.go:200-248 | the cursor loop returns what the specification returns, within the buffer and ending on every input |
| Wire.FieldBytesAgrees | backend/internal/backup/crypt15.go:200-248 | on arbitrary bytes: found if and only if they are well-formed fields up to the first wanted one, missing if and only if a message without it |
| Wire.FieldPrinted | backend/internal/backup/crypt15.go:202-243 | a field printed in front of anything is read back |
| Wire.FieldIsThere | backend/internal/backup/crypt15.go:202-243 | what is read is a well-formed field, byte for byte in front |
| Wire.VarintFits | backend/internal/backup/crypt15.go:203-208 | what the varint reader accepts fits 64 bits, so a field number fits an int |
| Crypt15.ParseInvertsFrame | backend/internal/backup/crypt15.go:128-148 | a framed file is split back if and only if it has the flag or its header does not start like it |
| Crypt15.ParseIsFraming | backend/internal/backup/crypt15.go:128-148 | whatever is accepted is the framing of its parts |
| Crypt15.ExtractIVAgrees | backend/internal/backup/crypt15.go:152-165 | an IV is found if and only if the header carries it and it has 16 bytes |
| Crypt15.HeaderIsNotFlag | backend/internal/backup/crypt15.go:131-135 | no header that carries a field starts with byte 0x01 |
| Crypt15.FileRoundTrip | backend/internal/backup/crypt15.go:128-165 | with or without the flag the header, the payload and the IV come back |
| RootKey.HexKeyLoads | backend/internal/backup/crypt15.go:90-97 | 64 hex digits in either case amid any whitespace give the key |
| RootKey.RawKeyLoads | backend/internal/backup/crypt15.go:98-100 | a raw key is accepted, unchanged, if and only if neither end is a whitespace rune |
| RootKey.RawKeyRefused | backend/internal/backup/crypt15.go:90-100 | families of 32-byte keys that are refused |
| RootKey.SerializedKeyLoads | backend/internal/backup/crypt15.go:101-106 | a serialized file gives its last 32 bytes if and only if they do not end in a whitespace rune |
| RootKey.KeyForms | backend/internal/backup/crypt15.go:90-108 | a file gives a key if and only if, trimmed, it spells it, is it, or is a longer serialized file that ends in it |
| RootKey.TrimSpaceCuts | backend/internal/backup/crypt15.go:91-91 | trimming cuts exactly the surrounding whitespace runes |
| RootKey.DecodesSpelling | backend/internal/backup/crypt15.go:93-97 | hex decoding succeeds exactly on spellings, two digits a byte |
| SendConservation.SendsBalance | backend/internal/fakewhatsapp/server_operations.go:35-104 | attempts, outcomes, captures and all blocked counters balance whenever the lock is free, messages included |
| SendConservation.NoLostWakeup | backend/internal/fakewhatsapp/server_operations.go:163-172 | a release or disconnect lets every waiting sender of the session go on, and nobody waits at a forgotten gate |
| SendConservation.SettledForGood | backend/internal/fakewhatsapp/server_operations.go:35-104 | attempts are only appended and a settled outcome never changes |
| SendOutcomes.ArriveOutcome | backend/internal/fakewhatsapp/server_operations.go:35-161 | outcome, capture and id of a send, by its session's connection and scenario |
| SendOutcomes.WakeOutcome | backend/internal/fakewhatsapp/server_operations.go:75-104 | a released send meets the connection and the scenario of that moment and is not blocked again |
| SendOutcomes.ConfigureCuts | backend/internal/fakewhatsapp/server.go:176-210 | a failing scenario takes down exactly the number's sessions |
| SendOutcomes.DisconnectRefuses | backend/internal/fakewhatsapp/server.go:250-261 | after a disconnect new and waiting sends of the session are refused |
| SendOutcomes.NamesDiffer | backend/internal/fakewhatsapp/server_operations.go:134-138 | no two generated message ids are alike |
| FakePeer.Server.Operation | backend/internal/fakewhatsapp/server_operations.go:35-63 | the state when a send is answered or goes to sleep |
| FakePeer.Server.Resume | backend/internal/fakewhatsapp/server_operations.go:75-104 | from any balanced state, the state after a released send, balanced again |
| FakePeer.Server.Cancel | backend/internal/fakewhatsapp/server_operations.go:64-73 | from any balanced state, the state after an abandoned send, balanced again |
| FakePeer.Server.Perform | backend/internal/fakewhatsapp/server_operations.go:106-161 | what a send captures and answers under each scenario |
| FakePeer.Server.ReleaseSend | backend/internal/fakewhatsapp/server_operations.go:163-172 | the gate is closed and forgotten |
| FakePeer.Server.Disconnect | backend/internal/fakewhatsapp/server.go:250-261 | the session is down and its gate closed |
| FakePeer.Server.Configure | backend/internal/fakewhatsapp/server.go:176-210 | exactly the connected sessions of the number go down under a failing scenario |
| EventCursor.ClaimedInOrder | backend/internal/fakewhatsapp/client.go:201-247 | over any overlap of loops the log's events are claimed, each once, in order, without gaps |
| EventCursor.EachEventHandledOnce | backend/internal/fakewhatsapp/client.go:226-246 | no event is handled twice, and each claimed one has been handled or is in the hands of exactly one loop |
| EventCursor.NextInLine | backend/internal/fakewhatsapp/client.go:226-244 | a claim of the current loop is of the very next event, a stale loop claims nothing, and no event is skipped as old |
| EventCursor.AsksForTheRest | backend/internal/fakewhatsapp/client.go:203-226 | only the current, uncancelled loop asks, from the cursor on, and is given all that lies behind it; any other ends |
| EventCursor.NeverBack | backend/internal/fakewhatsapp/client.go:96-154 | cursor, generation and claims never move back |
| EventClient.Client.StartConnect | backend/internal/fakewhatsapp/client.go:107-115 | a new generation and context, the old one cancelled |
| EventClient.Client.EndConnect | backend/internal/fakewhatsapp/client.go:116-138 | a loop starts exactly for the latest, uncancelled connect |
| EventClient.Client.Disconnect | backend/internal/fakewhatsapp/client.go:140-148 | the generation moves on and the context is cancelled |
| EventClient.Client.Events | backend/internal/fakewhatsapp/client.go:201-247 | what one loop claims follows directly on what was claimed before it started, and has been handled; left alone it claims everything behind the cursor |
| EventCursor.AppendKeeps | backend/internal/fakewhatsapp/server.go:356-369 | sequence numbers stay exactly 1 to n |
| Stories.ValidateStory | backend/internal/fakewhatsapp/scenarios.go:272-357 | the checking loop accepts exactly the stories whose every step is well-formed, resolvable from earlier steps and no duplicate |
| Stories.CheckContent | backend/internal/fakewhatsapp/scenarios.go:374-405 | what each kind of message must carry |
| Stories.CheckStep | backend/internal/fakewhatsapp/scenarios.go:284-355 | the loop's body decides one step from the sets kept so far |
| Stories.RunScenario | backend/internal/fakewhatsapp/scenarios.go:94-116 | stops at the first failure with exactly the results up to it |
| Stories.RunStep | backend/internal/fakewhatsapp/scenarios.go:134-232 | result and names after one step |
| Stories.ResultIs | backend/internal/fakewhatsapp/scenarios.go:134-232 | what each step reports: the id its call gave, the message an effect was for, or the first thing that failed |
| Stories.DeliveredSum | backend/internal/fakewhatsapp/scenarios.go:104-112 | the deliveries reported are the sum over the steps that went well |
| Stories.AcceptedNeverAtFault | backend/internal/fakewhatsapp/scenarios.go:155-243 | with the ids the server's handlers give, no reached step of an accepted story fails on an alias, a quote, a message id or its type, whatever the calls do |
| Stories.FaultIffDangling | backend/internal/fakewhatsapp/scenarios.go:155-243 | with replies of any kind, a step of an accepted story fails on its own exactly when the latest id it refers to is empty |
| Stories.RunsThrough | backend/internal/fakewhatsapp/scenarios.go:94-116 | when all calls succeed a story runs to its end if and only if its references resolve |

## Left out

- Transport and encoding: HTTP, gRPC, Redis and SQL wire formats, JSON and cjson. Malformed records are not modelled.
- Cryptography: SHA is an injection (keys of the model are the hashed values themselves), AES-GCM, HKDF, zlib and SQLite
  reading are not modelled; neither is `gcmDecrypt`'s fallback between the two file layouts.
- Integer widths of counters: generations, sequence numbers and attempts do not wrap. Deadlines do (`Expiry`).
- The rest of the login: `NewUserCode`, the mint rate limit, stream limits, refresh tokens, PKCE and client checks of
  `tokenFromCode`, the interceptor's command matching, group candidates and per-session app cache.
- The handshake does not claim that a rate-limited sender cannot verify: the code does not give it.
- LiveLogin.Gateway.HandleLogin: starts at the claim; recognising the message and the feedback sent back are not modelled.
- LiveLogin.Gateway.HandleFinalize: the identity and grant lookups are a yes or no, and building the redirect is not
  modelled. Of the payload it stores, scopes, nonce, challenge method, ACR and authentication time are left out.
- HandshakeBinding.RedemptionIsBound: ends at the redemption; comparing the payload with the caller is `tokenFromCode`'s.
- PendingScans.ScanSettles: speaks of requests whose key the scan read. That SCAN returns every key present throughout is
  Redis' guarantee, and a failed GET is passed over as described above.
- KeyCacheVerifier.LiveVerifier.VerifyKey: a cached key may outlive its own expiry by up to the ttl, which is intended.
- JwksVerifier.JwtVerifier.KeySetFor: a caller that finds the gate taken after the steps others were given waits no longer, as if its
  context had ended.
- JwksVerifier.JwtVerifier.Refresh: under the gate the rate test and the `lastRefresh` it leaves share one reading of the clock.
- MediaWorker.Service.SelectDue: asset ids are ordered as numbers.
- Media: names, credentials and validation of connections, message payload editing, mimetypes, sizes, stickers and the
  content endpoint. Sessions are not deleted. A PUT whose connection broke takes effect at once or never.
- Notifications are published at least once; a ready notification may be superseded by the expired one before it is
  published.
- EventClient.Client.Events: handlers run outside the lock and those of different loops may overlap or overtake each other; only the
  claims are ordered. The connected flag, which handlers of a stale loop may still change, is not modelled.
- FakePeer.Server.Operation: sends only. Uploads, history, groups, actors, transcripts and echo events do not touch the
  accounting.
- Stories.ValidateStory: address parsing is a parameter. Of the calls only how they end and the ids they give are modelled.
