# Purrivacy: verified models of the stateful core

This project models, in Dafny, the parts of Purrivacy whose state an unbounded run can drive
anywhere, and proves what every run of them keeps. There is one module per component:

| module | component | form |
|---|---|---|
| `FileSession`, `WebSession`, `AnyHost`, `StreamProtocol`, `Stranding` | streaming a file from the host through the hidden WebView into the crypto stream | class with the session's fields; state machines over the segments between awaits, once under any host and once with the app's own |
| `OutputChunks` | re-cutting the crypto stream's output and draining it into a file | class and loops |
| `MemoryStore` | bounded process-local rate-limit counters | class and loops over an insertion-ordered table |
| `RedisStore` | shared rate-limit counters, two atomic scripts over keys with expiry | class over a keyspace |
| `StoreAgreement` | when the two stores give the same answers | lemmas over runs of both |
| `RateLimiter` | admission, refunds and the fallback store, over either store | class; state machine with books kept per counter lifetime |
| `AuthMachine`, `AuthEffects`, `UserLoading` | the auth reducer (9 phases, 35 events), what its events do, and the load-generation guard that feeds it | pure functions; class for the guard |
| `SessionRefresh` | single-flight session refresh against a rotating server, with MFA state updates of the stored session | class; state machine of callers, refreshes, updates and server |
| `Transitions` | the resumable transition runner | method with loops over a progress store |
| `PagedDeletion` | paged, filtered, chunked deletion | methods with loops; a relation for all possible answers |
| `Redactor` | the log redactor on a cyclic graph | class with the mutable `seen` set |
| `PgpExecutor` | the id-correlated request executor | class; state machine |
| `OperationCenter` | the registry of long-running operations | pure functions |

A handler that awaits is cut into the segments between its awaits. A segment is a function from
state to state; where the source mutates an object, a class holds its fields and each method is
proved to be that function in place. Runs are sequences of events in any order the handlers
allow, and the results below hold for every run unless a row says otherwise. `dafny verify
dfyconfig.toml` checks the whole project.

## Where the code does not do what its documentation suggests

The models follow the code. Each item has a lemma, with the exact condition where there is one.

- A failed file session ends the crypto stream's input as if the file were complete: every failure
  sets `done` along with `error`, and `pull` asks `done` first, so `controller.error` is never
  reached (`StreamProtocol.FailureLooksLikeEndOfFile`, `StreamProtocol.TruncatedInput`, exactly when in
  `StreamProtocol.ClosesEarlyIff`).
- `fileOpEnd` wakes the parked pull but not the parked chunk batches: after it they can still be
  released exactly if a pull is about to run or the output was not cancelled
  (`StreamProtocol.EndStrandsParkedBatches`).  A batch can be stranded this way exactly if the file has
  more than three slices (`Stranding.StrandingPossibleIff`; a run: `Stranding.FourthBatchStranded`).
- The increment script heals a counter without expiry; a refund does so only when it floors the
  counter, and leaves any counter of at least one without expiry (`RedisStore.DecrementLeavesOrphan`).
- The two rate-limit stores are not interchangeable after a refund to zero (`RateLimiter.StoresDiffer`);
  over any run they answer alike exactly if no request meets a live counter that stands at zero
  (`StoreAgreement.StoresAgreeIff`).
- "Signed out or locked" does not imply "nothing decrypted": cancelling an MFA challenge returns to
  the phase it interrupted (`AuthMachine.SignedOutWithDecrypted`, exact condition per step in
  `AuthMachine.EntersWithDecryptedIff`).
- The phase 'authenticated' outlives the session, users and decrypted data that entering it required,
  by exactly four events (`AuthMachine.AuthenticatedOutlivesItsEvidence`; a run:
  `AuthMachine.AuthenticatedWithoutSession`).
- The load guard compares generations, not users: a commit is another user's exactly if generation and
  switch stand and the user has changed (`UserLoading.CommitsAcrossUsers`; a run: `UserLoading.ForeignCommit`).
- A refresh token can be presented again after the server rotated it, which the server treats as theft.
  One way is a remote MFA state that reads the stored session, waits while a refresh stores its answer,
  and writes the old session back (`SessionRefresh.MfaUpdateReplays`); the others are an answer that is
  lost (`SessionRefresh.LostAnswerReplays`) or not written (`SessionRefresh.LostWriteReplays`). The exact
  conditions are in `SessionRefresh.StepKeepsFresh`, per run in `SessionRefresh.RunFreshIff`, and
  `SessionRefresh.FreshIffSafe` shows that nothing weaker would do.
- A paged deletion that is not truncated is complete exactly when a page cannot fill up with
  excluded documents, or nothing is deletable (`PagedDeletion.CompleteIff`).
- The registry keeps the most recently started finished records, not the most recently finished: a
  record can disappear in the very action that finishes it (`OperationCenter.FinishingDroppedIff`).
- A call whose payload cannot be serialised rejects its promise but leaves its table entry and timer
  behind (`PgpExecutor.NeverBothIff`).
- A step reported as failed is nevertheless persisted, and not called again, exactly if it ran and its
  write was done but reported as failed (`Transitions.FailedWriteStillCounts`; a run:
  `Transitions.FailedWriteExample`).
- The redactor's words are found inside other words: a key such as `description`, which contains `ip`,
  is hidden (`Redactor.CapitalsSecret`, exactly when in `Redactor.SecretIff`).
- The redactor has no guard on arrays: a cycle through arrays alone never ends
  (`Redactor.EndsIffNoArrayTrap`; the smallest: `Redactor.SelfHoldingArray`).

## Model

| member | source | states |
|---|---|---|
| `FileSession.FileSession.Pull` | apps/mobile/src/components/HiddenPGPWebView.tsx:425-439 | One turn of the pull loop in place: a queued chunk is handed out and every parked batch is woken; otherwise `done` closes before `error` is looked at; otherwise the pull parks. |
| `FileSession.FileSession.ChunkBatch` | apps/mobile/src/components/HiddenPGPWebView.tsx:453-478 | The decode-and-push loop, chunk by chunk with one wake-up each, leaves the session the batch segment describes: everything before the first undecodable chunk is queued, then the batch parks, is acknowledged or fails the session. |
| `FileSession.PushOneMore` | apps/mobile/src/components/HiddenPGPWebView.tsx:463-471 | Pushing chunks one at a time, each shifting one waiter, is the same as pushing all of them and waking that many waiters. |
| `FileSession.DecodableStops` | apps/mobile/src/components/HiddenPGPWebView.tsx:463-468 | What a batch queues is exactly its chunks before the first that does not decode. |
| `FileSession.FileSession.CheckBatch` | apps/mobile/src/components/HiddenPGPWebView.tsx:472-477 | A batch parks only above its cap in an open session; an error rejects it and, through the catch, wakes everybody while the session is still listed. |
| `FileSession.FileSession.PushChunk` | apps/mobile/src/components/HiddenPGPWebView.tsx:467-470 | One chunk enters at the back and wakes the first parked pull. |
| `FileSession.FileSession.Fail` | apps/mobile/src/components/HiddenPGPWebView.tsx:633-641 | The first error is kept, the session is done, and both waiter lists are emptied and woken. |
| `FileSession.FileSession.FinishInput` | apps/mobile/src/components/HiddenPGPWebView.tsx:601-608 | Input is done and one parked pull wakes; parked batches do not. |
| `FileSession.FileSession.Chunk` | apps/mobile/src/components/HiddenPGPWebView.tsx:480-493 | A single chunk is refused, failing the session, when it does not decode or four are queued; otherwise it is pushed. |
| `FileSession.BatchAnswered` | apps/mobile/src/components/HiddenPGPWebView.tsx:453-478 | A batch is rejected if and only if a chunk does not decode or the session has failed, and the session keeps its first error; otherwise all its chunks are queued, and it parks if and only if the session is open and the queue longer than the cap asked for, six by default. |
| `FileSession.ChunkAnswered` | apps/mobile/src/components/HiddenPGPWebView.tsx:480-493 | A single chunk is taken if and only if it decodes and fewer than four are queued; a refusal fails the session and leaves the queue alone. |
| `FileSession.CheckAnswered` | apps/mobile/src/components/HiddenPGPWebView.tsx:472-477 | A released batch is rejected if and only if the session has failed, and then wakes whoever is parked while the session is listed; it parks again if and only if the queue is still above its cap. |
| `FileSession.FailureWakesAll` | apps/mobile/src/components/HiddenPGPWebView.tsx:633-641 | A failure keeps the first error, closes the session and wakes every parked pull and batch. |
| `AnyHost.CallKeepsWaiting` | apps/mobile/src/components/HiddenPGPWebView.tsx:423-493 | Every handler call and every turn of the pull keeps the reasons for waiting, for batches of any size and cap, single chunks and sessions already deleted. |
| `AnyHost.NobodyWaitsForNothing` | apps/mobile/src/components/HiddenPGPWebView.tsx:423-620 | Under any host: a parked pull faces an empty, open, error-free queue, each parked batch a queue longer than its own cap, never both at once; and unless the output was cancelled, a pull that will release the parked batches can run. |
| `AnyHost.BufferBoundedByCaps` | apps/mobile/src/components/HiddenPGPWebView.tsx:453-486 | Under any host whose batches hold at most a given number of chunks and ask for caps of at most a given size, an open session queues at most that cap (or the four single chunks may make it) plus the chunks of unanswered batches. |
| `AnyHost.AppHostIsAHost` | apps/mobile/src/services/fileCryptoService.ts:81-106 | Each event of the app's own protocol is one allowed call on the session, or does not touch it: the app's host is one of the hosts. |
| `AnyHost.FirstErrorStays` | apps/mobile/src/components/HiddenPGPWebView.tsx:635 | Under any host, a failed session keeps its first error. |
| `AnyHost.EndReleasesPull` | apps/mobile/src/components/HiddenPGPWebView.tsx:610-620 | Deleting the session wakes a parked pull, which then closes. |
| `StreamProtocol.StepKeeps` | apps/mobile/src/components/HiddenPGPWebView.tsx:407-478 | Every event of host, bridge and WebView keeps the invariant: why each side is parked, where every byte is, the window's arithmetic. |
| `StreamProtocol.NoDeadlock` | apps/mobile/src/components/HiddenPGPWebView.tsx:423-477 | With the app's host, in every reachable state: a parked pull faces an empty, open, error-free queue, a parked batch a queue above its own cap, which is the host's, and the two are never parked at once. |
| `StreamProtocol.BufferBounded` | apps/mobile/src/services/fileCryptoService.ts:65-98 | At most `drainBelow` chunks plus those of unanswered batches are queued while the session is open; never more than 6 chunks (3 MB) for a file of any size, failures included. |
| `StreamProtocol.InputConserved` | apps/mobile/src/components/HiddenPGPWebView.tsx:423-471 | Bytes delivered, then queued, then on the bridge are at every moment the prefix of the file cut off so far; nothing is lost, repeated or reordered. |
| `StreamProtocol.ClosedMeansWholeFile` | apps/mobile/src/services/fileCryptoService.ts:81-106 | In an error-free run the stream is closed only after exactly the whole file was delivered. |
| `StreamProtocol.RejectionEndsFeeding` | apps/mobile/src/services/fileCryptoService.ts:75-105 | A rejected or timed-out batch ends the feeding for good: the end of input is sent at once, never twice, and no further slice is cut. |
| `StreamProtocol.ArrivalAnswered` | apps/mobile/src/components/HiddenPGPWebView.tsx:453-478 | An arriving batch is rejected if and only if its session is gone or has failed, and acknowledged at once if and only if the queue has room or the input is done. |
| `StreamProtocol.ErrorFreeRunsFinish` | apps/mobile/src/services/fileCryptoService.ts:89-106 | An error-free run has at most ten events per slice and six more; one that cannot go on has delivered the file, closed the stream and answered every batch: no wake-up is lost. |
| `StreamProtocol.StepBurns` | apps/mobile/src/components/HiddenPGPWebView.tsx:425-477 | Every error-free event uses up fuel, re-parking and re-waking included, so no run of wake-ups spins. |
| `StreamProtocol.OnlyFinishedStops` | apps/mobile/src/components/HiddenPGPWebView.tsx:423-477 | No deadlock before `fileOpEnd`, failing runs included: if host, bridge and WebView have nothing left to do by themselves, the stream is closed, the host has stopped, the bridge is empty and nobody is parked. |
| `StreamProtocol.FailureParksNobody` | apps/mobile/src/components/HiddenPGPWebView.tsx:632-641 | Once a session has an error, neither the pull nor any batch is parked, whatever arrives later. |
| `StreamProtocol.FailureLooksLikeEndOfFile` | apps/mobile/src/components/HiddenPGPWebView.tsx:435-436 | No reachable state has errored the stream; on a failed session whose queue is empty, a pull that starts or resumes closes it instead. |
| `StreamProtocol.ClosesEarlyIff` | apps/mobile/src/components/HiddenPGPWebView.tsx:427-436 | Exactly when a turn of the pull closes the stream before the whole file was delivered: done, nothing queued, and part of the file not cut off yet or still on the bridge. |
| `StreamProtocol.TruncatedInput` | apps/mobile/src/components/HiddenPGPWebView.tsx:632-641 | A run in which the stream of a one-byte file waits for input, an operation on the session fails, and the wake-up is a clean end of an empty input. |
| `StreamProtocol.EndStrandsParkedBatches` | apps/mobile/src/components/HiddenPGPWebView.tsx:610-620 | After the session is deleted, some continuation releases its parked batches if and only if a pull is about to run or the output was not cancelled. |
| `Stranding.FourthBatchStranded` | apps/mobile/src/components/HiddenPGPWebView.tsx:607-620 | On any file of more than three slices, the run in which the stream takes one slice, two more are queued, and the output is cancelled while the fourth batch is parked: it stays parked for good. |
| `Stranding.StrandingPossibleIff` | apps/mobile/src/components/HiddenPGPWebView.tsx:610-620 | Some run on the file strands a parked batch if and only if the file has more than three slices. |
| `Stranding.StepCounts` | apps/mobile/src/components/HiddenPGPWebView.tsx:425-470 | Every event keeps the count of slices: those handed over, queued and on the bridge were issued from inside the file, and a stream that has asked for input is idle only after a delivery. |
| `StreamProtocol.CutIntoSlices` | apps/mobile/src/services/fileCryptoService.ts:89-98 | The slices spell the file, none is empty, all but the last have 512 KiB, and their number is the ceiling of the quotient. |
| `StreamProtocol.RemainingIsCeiling` | apps/mobile/src/services/fileCryptoService.ts:89-90 | The number of slices left is the ceiling of the bytes left over the chunk size. |
| `OutputChunks.OutputSession.ResultChunk` | apps/mobile/src/components/HiddenPGPWebView.tsx:570-597 | A slice has `min(rest, maxLength)` bytes and is the front of everything not handed out; `done` is reported exactly when less than `maxLength` was left. |
| `OutputChunks.PullSessionToFile` | apps/mobile/src/services/fileCryptoService.ts:121-151 | The drain loop writes exactly the stream's bytes; every slice but the last is full, `done` ends it the first time, after the stated number of pulls. |
| `OutputChunks.PullsIsQuotientPlusOne` | apps/mobile/src/services/fileCryptoService.ts:130-146 | That number is floor(total / maxLength) + 1. |
| `OutputChunks.SlicesDetermined` | apps/mobile/src/components/HiddenPGPWebView.tsx:574-587 | The slices depend on the stream's bytes only, not on how its values cut them. |
| `MemoryStore.MemoryRateLimitStore.Increment` | apps/server/src/api/rate-limit/memoryRateLimitStore.ts:30-47 | Clean up, count in a live entry or restart it, or make room and add one: the new table and the answer. |
| `MemoryStore.MemoryRateLimitStore.Decrement` | apps/server/src/api/rate-limit/memoryRateLimitStore.ts:49-54 | A refund counts down above zero and touches nothing else. |
| `MemoryStore.MemoryRateLimitStore.MaybeCleanup` | apps/server/src/api/rate-limit/memoryRateLimitStore.ts:61-71 | Once per interval the walk that deletes while it iterates leaves exactly the unexpired entries in order. |
| `MemoryStore.MemoryRateLimitStore.EvictIfFull` | apps/server/src/api/rate-limit/memoryRateLimitStore.ts:73-99 | A full table loses its expired entries, or else the first entry of minimal reset time. |
| `MemoryStore.IncrementRefines` | apps/server/src/api/rate-limit/memoryRateLimitStore.ts:30-47 | An increment always answers what an unbounded, never-cleaned map would, and the two agree on everything live afterwards if and only if the key had a slot or one was free. |
| `MemoryStore.DecrementRefines` | apps/server/src/api/rate-limit/memoryRateLimitStore.ts:49-54 | A refund keeps the two stores in agreement. |
| `MemoryStore.RunRefines` | apps/server/src/api/rate-limit/memoryRateLimitStore.ts:30-99 | From agreeing stores, along any run with a non-decreasing clock and room for each new key, all answers are the simple store's. |
| `MemoryStore.MemoryStoreRefines` | apps/server/src/api/rate-limit/memoryRateLimitStore.ts:30-99 | From the empty store cleanup and eviction are unobservable under those conditions. |
| `MemoryStore.EvictionObservable` | apps/server/src/api/rate-limit/memoryRateLimitStore.ts:88-98 | Without room they are observable: an evicted key starts over at one. |
| `MemoryStore.EvictionVictim` | apps/server/src/api/rate-limit/memoryRateLimitStore.ts:73-99 | A live entry is evicted only from a full table (one within its bound holds nothing expired then), its reset time is minimal, and every other live entry stays. |
| `MemoryStore.SizeBounded` | apps/server/src/api/rate-limit/memoryRateLimitStore.ts:73-99 | In any run, with any clock, the table never holds more than `maxKeys` entries (one if `maxKeys` is zero), with distinct keys. |
| `MemoryStore.CleanupPurges` | apps/server/src/api/rate-limit/memoryRateLimitStore.ts:61-71 | An increment at least a minute after the last cleanup leaves no expired entry of another key; an earlier one does not clean up. |
| `MemoryStore.PurgedCount` | apps/server/src/api/rate-limit/memoryRateLimitStore.ts:78-86 | What a purge leaves is as many entries as the simple store has live keys. |
| `RedisStore.RedisRateLimitStore.Increment` | apps/server/src/api/rate-limit/redisRateLimitStore.ts:22-33 | The script, command by command, and the client's reading of its answer: a missing, zeroed or expiry-less key starts a whole window, any other keeps its expiry. |
| `RedisStore.RedisRateLimitStore.Decrement` | apps/server/src/api/rate-limit/redisRateLimitStore.ts:40-47 | Counts down above zero keeping the expiry; otherwise sets zero for a whole window; never below zero. |
| `RedisStore.RunKeepsExpiry` | apps/server/src/api/rate-limit/redisRateLimitStore.ts:22-47 | If all keys are non-negative and expire within their window, they still do after any interleaving of scripts and clock. |
| `RedisStore.CountersExpire` | apps/server/src/api/rate-limit/redisRateLimitStore.ts:15-47 | From an empty keyspace every counter is non-negative with a TTL of at most one window, and is gone when left alone that long. |
| `RedisStore.IncrementHealsOrphan` | apps/server/src/api/rate-limit/redisRateLimitStore.ts:28-31 | One increment gives a whole window to a key without expiry, whatever its count. |
| `RedisStore.DecrementLeavesOrphan` | apps/server/src/api/rate-limit/redisRateLimitStore.ts:40-47 | After a refund the expiry is missing if and only if it was missing before and the count was at least one. |
| `RateLimiter.RateLimiter.Handle` | apps/server/src/api/rate-limit/createRateLimiter.ts:124-165 | Up to its first await's outcome: count on the shared store and decide, or, when it fails, refuse if fail-closed and otherwise go on to the fallback. |
| `RateLimiter.RateLimiter.HandleFallback` | apps/server/src/api/rate-limit/createRateLimiter.ts:149-156 | The fallback store counts the request and decides; other requests may have come in between. |
| `RateLimiter.RateLimiter.OnFinish` | apps/server/src/api/rate-limit/createRateLimiter.ts:97-116 | Only an admitted request has a listener; it fires once and refunds skipped responses to the store that counted. |
| `RateLimiter.CountCurrent` | apps/server/src/api/rate-limit/memoryRateLimitStore.ts:30-47 | On either store an increment answers the current count plus one; other keys keep their count or their lifetime ends. |
| `RateLimiter.RefundCurrent` | apps/server/src/api/rate-limit/redisRateLimitStore.ts:40-47 | On either store a refund lowers a positive count by one, never goes below zero, and leaves other keys alone. |
| `RateLimiter.StepKeepsBooks` | apps/server/src/api/rate-limit/createRateLimiter.ts:97-164 | Arrivals, fallbacks, failures that were nevertheless counted, late refunds and clock keep the books balanced on both stores. |
| `RateLimiter.AdmissionBound` | apps/server/src/api/rate-limit/createRateLimiter.ts:97-164 | In every lifetime of every counter, on either kind of store, admitted minus refunded never exceeds `maxRequests`, the count is exactly what the books explain, and no request refunds twice. |
| `RateLimiter.BooksRecordArrival` | apps/server/src/api/rate-limit/createRateLimiter.ts:124-156 | The books behind the bound count each request, as admitted or in vain, while the lifetime of its counter lasts. |
| `RateLimiter.BooksRecordRefund` | apps/server/src/api/rate-limit/createRateLimiter.ts:106-109 | And each refund. |
| `RateLimiter.BooksStartAfresh` | apps/server/src/api/rate-limit/memoryRateLimitStore.ts:40-46 | A counter that is gone starts new books. |
| `RateLimiter.RefundGoesHome` | apps/server/src/api/rate-limit/createRateLimiter.ts:97-116 | A finished response changes no counter but the one that counted its request; a rejected request changes none. |
| `RateLimiter.RefundedIffSkipped` | apps/server/src/api/rate-limit/createRateLimiter.ts:97-116 | A finished response gives back exactly one count on the counter that admitted it if and only if it is to be skipped, the limiter refunds, it was not settled before, and the store takes the command. |
| `RateLimiter.LateRefundWindow` | apps/server/src/api/rate-limit/redisRateLimitStore.ts:40-47 | A refund that finds its counter gone leaves a zero for one window in the shared store and nothing in the memory store. |
| `RateLimiter.StepRefundsOnce` | apps/server/src/api/rate-limit/createRateLimiter.ts:97-116 | Every logged refund belongs to a finished admitted request, each at most once. |
| `RateLimiter.DecisionsStand` | apps/server/src/api/rate-limit/createRateLimiter.ts:124-165 | No later event changes a decision or who counted the request; one that is falling back is decided by its own fallback increment only. |
| `RateLimiter.AdmittedIffRoom` | apps/server/src/api/rate-limit/createRateLimiter.ts:130-156 | When the shared store answers, a request is admitted there if its current count is below the limit and rejected otherwise; it counts one more, and the fallback store is not asked. |
| `RateLimiter.FallbackAdmitsIffRoom` | apps/server/src/api/rate-limit/createRateLimiter.ts:149-156 | The same for the fallback store, by its own count. |
| `RateLimiter.DownRefusedIffFailClosed` | apps/server/src/api/rate-limit/createRateLimiter.ts:132-149 | When the shared store fails, the request is refused if and only if the limiter fails closed, and otherwise goes on to the fallback. |
| `RateLimiter.FirstRequestOpensWindow` | apps/server/src/api/rate-limit/createRateLimiter.ts:131 | On either kind of store the first request of a key counts until the limiter's window has passed, and then no longer. |
| `RateLimiter.StoresDiffer` | apps/server/src/api/rate-limit/redisRateLimitStore.ts:24-26 | After a refund to zero the next request keeps the memory window and restarts the Redis one: a concrete run. |
| `StoreAgreement.ScriptAnswer` | apps/server/src/api/rate-limit/redisRateLimitStore.ts:75-87 | The answer the client reads is the count and expiry of the key the script leaves behind, or a whole window if it leaves none. |
| `StoreAgreement.IncrementAgreesIff` | apps/server/src/api/rate-limit/memoryRateLimitStore.ts:34-46 | On a key that counts the same in both stores, one increment is answered alike if and only if it does not meet a live zero whose reset time is not a whole window away. |
| `StoreAgreement.RunsAgreeIff` | apps/server/src/api/rate-limit/redisRateLimitStore.ts:22-47 | From similar stores, over any increments and refunds on any keys, all answers agree if and only if no increment meets such a zero. |
| `StoreAgreement.StoresAgreeIff` | apps/server/src/api/rate-limit/memoryRateLimitStore.ts:30-99 | The same for the bounded memory store from empty, when it has room for each new key. |
| `AuthMachine.StepDisciplined` | apps/mobile/src/features/auth/state/authStateMachine.ts:207-583 | Every event keeps the saved phase disciplined: only in MFA, sign-out or deletion, never the phase itself, never a sign-out or deletion while in one. |
| `AuthMachine.RunDisciplined` | apps/mobile/src/features/auth/state/authStateMachine.ts:296-430 | So does every run. |
| `AuthMachine.EventsIdempotent` | apps/mobile/src/features/auth/state/authStateMachine.ts:207-583 | In every reachable state, any event delivered twice in a row equals delivering it once. |
| `AuthMachine.IdempotenceNeedsDiscipline` | apps/mobile/src/features/auth/state/authStateMachine.ts:309-319 | From an undisciplined state a second cancel would matter. |
| `AuthMachine.SealedUnlessReopened` | apps/mobile/src/features/auth/state/authStateMachine.ts:174-205 | A locked, signed-out or leaving state with nothing decrypted stays so under an event if and only if it is not one of five reopening events in the phase each needs. |
| `AuthMachine.LateDecryptsNeverRehydrate` | apps/mobile/src/features/auth/state/authStateMachine.ts:553-566 | Over any event sequence without those five, decrypted data stays null. |
| `AuthMachine.ReopeningRehydrates` | apps/mobile/src/features/auth/state/authStateMachine.ts:160-171 | Each of the five, where it applies, lets the next decrypt through. |
| `AuthMachine.SignedOutWithDecrypted` | apps/mobile/src/features/auth/state/authStateMachine.ts:296-319 | A four-event run that is signed out with decrypted data. |
| `AuthMachine.EntersWithDecryptedIff` | apps/mobile/src/features/auth/state/authStateMachine.ts:309-430 | Exactly when a step enters a signed-out or locked phase with data still decrypted. |
| `AuthMachine.OnlyReadyAuthenticates` | apps/mobile/src/features/auth/state/authStateMachine.ts:474-497 | The machine starts to show or remember 'authenticated' if and only if the ready event meets a Firebase user, a session, a UI user and decrypted data. |
| `AuthMachine.AuthenticatedHasWitness` | apps/mobile/src/features/auth/state/authStateMachine.ts:474-497 | In any run from the start that ends authenticated, or would return there, such a ready event fired and no state since then, so no terminal transition, ended it. |
| `AuthMachine.TerminalEndsAuthenticated` | apps/mobile/src/features/auth/state/authStateMachine.ts:174-205 | Both terminal transitions end it. |
| `AuthEffects.EndingWipes` | apps/mobile/src/features/auth/state/authStateMachine.ts:174-205 | Each of nine events that end a session, outside its no-op phases, leaves the machine locked or signed out as the event says, sealed, with no user, session or secret, and not authenticated nor on the way back. |
| `AuthEffects.EndingIgnored` | apps/mobile/src/features/auth/state/authStateMachine.ts:210-223 | In its no-op phases such an event changes nothing; a partial cleanup during a sign-out or deletion wipes and leaves the phase to that flow. |
| `AuthEffects.ChallengeReturns` | apps/mobile/src/features/auth/state/authStateMachine.ts:296-319 | An MFA challenge takes the session away, and its cancellation restores the interrupted phase and nothing else. |
| `AuthEffects.FailedLeavingReturns` | apps/mobile/src/features/auth/state/authStateMachine.ts:371-430 | A failed sign-out or deletion, also one started inside the other, returns to the phase in which leaving began, with the session as it was and the error shown. |
| `AuthEffects.ForeignEndingsIgnored` | apps/mobile/src/features/auth/state/authStateMachine.ts:309-351 | Outside their own flow, cancellations, failures, unlocks, a repeated session and a UI that is not ready change nothing. |
| `AuthEffects.SignInArrives` | apps/mobile/src/features/auth/state/authStateMachine.ts:225-288 | From signed out, a Firebase user, a session, decrypted data and a ready UI make the machine authenticated with exactly these. |
| `AuthEffects.UnlockArrives` | apps/mobile/src/features/auth/state/authStateMachine.ts:322-340 | From a lock, the lock is shown until the unlock has succeeded, however early user and session arrive; then the UI can become authenticated. |
| `AuthEffects.FirebaseUserTakesEffect` | apps/mobile/src/features/auth/state/authStateMachine.ts:225-249 | A Firebase user is remembered in every phase, moves only the start and signed-out, and does not clear a lock. |
| `AuthEffects.SessionTakesEffect` | apps/mobile/src/features/auth/state/authStateMachine.ts:258-288 | A missing or challenged session arrives in every phase, ends a challenge, a lock and the start, and keeps an unlock's phase and lock. |
| `AuthEffects.SecretsStoredIff` | apps/mobile/src/features/auth/state/authStateMachine.ts:539-566 | A password or decrypted data is stored if and only if the phase allows it, and can always be removed. |
| `AuthEffects.SingleTakesEffect` | apps/mobile/src/features/auth/state/authStateMachine.ts:499-582 | Every event that sets one thing takes effect in every phase, keeps phase and saved phase, and touches no other part of the session. |
| `AuthEffects.SingleShowsOnlyItsOwn` | apps/mobile/src/features/auth/state/authStateMachine.ts:499-537 | Nor any other display flag. |
| `AuthEffects.ProgressClearsError` | apps/mobile/src/features/auth/state/authStateMachine.ts:457-504 | Loading, settling and becoming authenticated clear a shown error, unless they change nothing. |
| `AuthMachine.AuthenticatedOutlivesItsEvidence` | apps/mobile/src/features/auth/state/authStateMachine.ts:478-486 | From an authenticated state with all its evidence, an event keeps the phase and removes evidence if and only if it is one of four. |
| `AuthMachine.EvidenceKeptIff` | apps/mobile/src/features/auth/state/authStateMachine.ts:290-294 | Over a run that stays authenticated, the evidence is complete at every moment if and only if none of the four came. |
| `AuthMachine.AuthenticatedWithoutSession` | apps/mobile/src/features/auth/state/authStateMachine.ts:290-294 | A run from the start that ends authenticated without a session. |
| `UserLoading.UserLoader.InvalidateLoads` | apps/mobile/src/features/auth/hooks/useUserLoading.ts:26-29 | The generation is bumped and loading switched off. |
| `UserLoading.UserLoader.BeginLoad` | apps/mobile/src/features/auth/hooks/useUserLoading.ts:31-38 | The generation and user are captured, unless loading is off or nobody is signed in. |
| `UserLoading.UserLoader.SettleLoad` | apps/mobile/src/features/auth/hooks/useUserLoading.ts:39-59 | The result, null after a failure, is dispatched exactly if generation, switch and user still stand. |
| `UserLoading.StaleNeverCommits` | apps/mobile/src/features/auth/hooks/useUserLoading.ts:51-58 | A load of an earlier generation, or one that is over, never commits again. |
| `UserLoading.LateLoadsNeverCommit` | apps/mobile/src/features/auth/hooks/useUserLoading.ts:23-60 | Over any number of overlapping loads and any later events, a load begun before an invalidation never commits after it. |
| `UserLoading.NothingUntilAllowed` | apps/mobile/src/features/auth/hooks/useUserLoading.ts:26-38 | Once loading is off, nothing is begun and nothing committed until it is allowed again. |
| `UserLoading.UndisturbedLoadCommits` | apps/mobile/src/features/auth/hooks/useUserLoading.ts:31-59 | A load that is not disturbed hands its result to the auth machine. |
| `UserLoading.SealedThroughLoads` | apps/mobile/src/features/auth/hooks/useUserLoading.ts:26-60 | Loads that do commit into a sealed machine leave it sealed. |
| `UserLoading.CommitsAcrossUsers` | apps/mobile/src/features/auth/hooks/useUserLoading.ts:52-57 | A settling load commits data of another user if and only if generation and switch stand, somebody is signed in, and it is not the user it loaded. |
| `UserLoading.GuardedRunCommitsOwn` | apps/mobile/src/features/auth/hooks/useUserLoading.ts:26-60 | If every user change is followed by an invalidation before any load settles, every commit of the run is the current user's own. |
| `UserLoading.ForeignCommit` | apps/mobile/src/features/auth/hooks/useUserLoading.ts:51-58 | A run without it, in which user 2 sees what was decrypted for user 1. |
| `SessionRefresh.SessionManager.RefreshSession` | apps/mobile/src/api/session/sessionManager.ts:237-242 | A caller joins the refresh in the slot, or starts one and puts it there. |
| `SessionRefresh.SessionManager.ReturnFromRefresh` | apps/mobile/src/api/session/sessionManager.ts:244-248 | It returns the outcome of the refresh it joined; only the starter empties the slot. |
| `SessionRefresh.SessionManager.StoreSessionResponse` | apps/mobile/src/api/session/sessionManager.ts:54-58 | The new token is stored before the refresh settles. |
| `SessionRefresh.SessionManager.ReadStoredSession` | apps/mobile/src/features/security/services/storedSessionService.ts:145-148 | An MFA state update reads the stored session, refresh token included; without one it ends. |
| `SessionRefresh.SessionManager.WriteSessionBack` | apps/mobile/src/features/security/services/storedSessionService.ts:150-156 | It writes that session back, whatever has been stored since. |
| `SessionRefresh.StepKeepsFlight` | apps/mobile/src/api/session/sessionManager.ts:237-249 | Every event keeps: only the refresh in the slot is unsettled, its starter is still waiting, and who returned has its outcome. |
| `SessionRefresh.OneRefreshAtATime` | apps/mobile/src/api/session/sessionManager.ts:237-249 | In every run, losses included: at most one refresh is in progress, all joiners get its outcome, and the slot holds a refresh only while its starter still waits for it. |
| `SessionRefresh.CallJoins` | apps/mobile/src/api/session/sessionManager.ts:238-240 | In every reachable state, a call while a refresh is in progress waits for that very refresh and changes nothing else. |
| `SessionRefresh.CallStarts` | apps/mobile/src/api/session/sessionManager.ts:242 | A call on an empty slot starts the one refresh in progress. |
| `SessionRefresh.JoinersGetOutcome` | apps/mobile/src/api/session/sessionManager.ts:237-249 | Over any continuation, whoever called while a refresh was in progress returns with that refresh's outcome. |
| `SessionRefresh.SuccessIffStored` | apps/mobile/src/api/session/sessionManager.ts:291-295 | A refresh succeeds if and only if its answer was just stored, with the token the server put in place of the one presented. |
| `SessionRefresh.PresentedToken` | apps/server/src/features/session/application/rotateRefreshToken.ts:59-108 | A refresh presents the stored token; the server rotates it if it accepts it and it was not used before, and revokes the family if it was. |
| `SessionRefresh.StoredByOthers` | apps/mobile/src/features/security/services/storedSessionService.ts:41-69 | Another session brings its own token, clearing leaves none, an update writes back the token it read and a failed one nothing. |
| `SessionRefresh.StepKeepsFresh` | apps/server/src/features/session/application/rotateRefreshToken.ts:59-108 | From a state in which nothing that can be presented is used up, an event loses that if and only if it is a lost or unwritten answer while the used token is stored, or a write-back of a used token when no answer is on its way. |
| `SessionRefresh.RunFreshIff` | apps/mobile/src/api/session/sessionManager.ts:31-52 | Along any run every state stays so if and only if none of these events occurs. |
| `SessionRefresh.FreshIffSafe` | apps/server/src/features/session/application/rotateRefreshToken.ts:59-64 | In every reachable state the family can still be revoked without any of them if and only if the state is no longer fresh. |
| `SessionRefresh.NoTokenReuse` | apps/server/src/features/session/application/rotateRefreshToken.ts:59-64 | If each rotation's answer is delivered and stored, and no refresh stores its answer between the read and the write-back of an MFA state update, no request carries a rotated token and the family is never revoked, whatever other sessions are stored or cleared meanwhile. |
| `SessionRefresh.MfaUpdateReplays` | apps/mobile/src/features/security/services/storedSessionService.ts:139-156 | A run from the start in which every answer is delivered and stored and an MFA state update nevertheless leads to the family's revocation. |
| `SessionRefresh.LostAnswerReplays` | apps/mobile/src/api/session/sessionManager.ts:271-293 | A run from the start in which one lost answer does. |
| `SessionRefresh.LostWriteReplays` | apps/mobile/src/api/session/sessionManager.ts:291-293 | And one in which the answer could not be written. |
| `SessionRefresh.RefreshEnds` | apps/mobile/src/api/session/sessionManager.ts:251-296 | A refresh takes at most four steps of its own, and one is always possible until it settles. |
| `Transitions.ExecuteTransition` | apps/server/src/core/transitions/transitionRunner.ts:48-104 | The two loops and the store's updates are the attempt function: status, completed steps, results, persisted progress and calls made. |
| `Transitions.CallOnTrack` | apps/server/src/core/transitions/transitionRunner.ts:70-91 | Running the first unpersisted step, whatever happens, keeps the progress a prefix and the calls in order. |
| `Transitions.AttemptOnTrack` | apps/server/src/core/transitions/transitionRunner.ts:56-104 | An attempt, however it ends, keeps the progress a prefix and the calls in order, in whatever order the store lists the steps, calls no step that was persisted when it began, and gives up progress only by completing and clearing; completing means every step has succeeded. |
| `Transitions.CompletesIff` | apps/server/src/core/transitions/transitionRunner.ts:70-103 | A readable attempt completes if and only if every step not persisted yet runs and can be written. |
| `Transitions.ResumesInOrder` | apps/server/src/core/transitions/transitionRunner.ts:48-104 | Over any attempts from an empty store, the persisted steps are a prefix of the list and no step runs before all before it succeeded; a step persisted at any moment is not called again by any later attempt up to and including the one that completes and clears. |
| `Transitions.ResumingIsTransparent` | apps/server/src/core/transitions/transitionRunner.ts:56-103 | For deterministic steps, an attempt that completes after any others, in whatever order the store lists what it kept, reports the steps and, as lookups, the results of one uninterrupted run; in the same order if the store lists them in the order written. |
| `Transitions.RestoredReads` | apps/server/src/core/transitions/transitionRunner.ts:56-68 | Restored results read as the persisted steps' results, undefined ones included. |
| `Transitions.FailedWriteStillCounts` | apps/server/src/core/transitions/transitionRunner.ts:75-90 | For any attempt that ends in a failed step: that step is persisted if and only if it ran and its write was done but reported as failed, and then no later attempt up to the one that clears calls it. |
| `Transitions.FailedWriteExample` | apps/server/src/core/transitions/transitionRunner.ts:75-90 | Two attempts of a one-step transition: failed, then completed without calling the step. |
| `PagedDeletion.DeleteDocumentsInChunks` | apps/server/src/infrastructure/firebase/chunkedWrites.ts:3-33 | All references are deleted chunk by chunk and counted; a failing batch leaves only given references deleted; with chunks of at most 500 no batch fails for its size. |
| `PagedDeletion.Deletable` | apps/server/src/infrastructure/firebase/chunkedWrites.ts:68 | The filter keeps exactly the page's documents that are not excluded. |
| `PagedDeletion.DeletePagedQueryResults` | apps/server/src/infrastructure/firebase/chunkedWrites.ts:52-87 | Excluded documents are never deleted, even when a batch fails; `deletedCount` is the exact drop in matching documents; the outcome is one the page relation allows, with pages of 400 and 10 pages by default; and no batch exceeds what the database takes. |
| `PagedDeletion.OnlyDeletable` | apps/server/src/infrastructure/firebase/chunkedWrites.ts:68-75 | Whatever the pages, every excluded document remains and nothing new appears. |
| `PagedDeletion.UntruncatedIsComplete` | apps/server/src/infrastructure/firebase/chunkedWrites.ts:62-86 | With fewer excluded documents than a page holds and at least one page allowed, an untruncated answer leaves exactly the excluded ones. |
| `PagedDeletion.TruncatedDidItsShare` | apps/server/src/infrastructure/firebase/chunkedWrites.ts:77-83 | A truncated answer deleted at least maxPages * (pageSize - excluded) documents, and at least one. |
| `PagedDeletion.CompleteIff` | apps/server/src/infrastructure/firebase/chunkedWrites.ts:69-73 | "Not truncated means complete" holds for every choice of pages if and only if excluded documents are fewer than a page and a page is allowed, or nothing is deletable. |
| `Redactor.LogRedactor.Redact` | apps/server/src/utils/logger.ts:16-55 | On a graph whose every cycle passes through an object, the traversal with its mutable `seen` set ends, gives the rendering, and leaves `seen` as it found it. |
| `Redactor.RenderClean` | apps/server/src/utils/logger.ts:43-48 | At any depth, whatever stands under a secret-matching key is '[redacted]'. |
| `Redactor.SecretIff` | apps/server/src/utils/logger.ts:13 | A key is secret if and only if a listed word stands in it somewhere, letter by letter in any case. |
| `Redactor.CaseIrrelevant` | apps/server/src/utils/logger.ts:13 | Keys that differ only in case are secret alike. |
| `Redactor.ListedAreSecret` | apps/server/src/utils/logger.ts:13 | Each of the 31 listed words is itself a secret key. |
| `Redactor.CapitalsSecret` | apps/server/src/utils/logger.ts:13 | TOKEN is secret, and so is description, which contains ip. |
| `Redactor.LogIsPlain` | apps/server/src/utils/logger.ts:13 | A key in which no word can begin is not. |
| `Redactor.EntryHiddenIff` | apps/server/src/utils/logger.ts:43-49 | An entry of a shown object is '[redacted]' if and only if a listed word stands in its key; any other shows its value's rendering. |
| `Redactor.RenderByPath` | apps/server/src/utils/logger.ts:34-54 | What stands at each place of the output is determined by the graph path to it alone. |
| `Redactor.RedactionExact` | apps/server/src/utils/logger.ts:16-55 | '[circular]' exactly where the path arrives at an object it has been through, '[redacted]' exactly under a secret key, everything else, shared objects included, rendered each time. |
| `Redactor.EndsIffNoArrayTrap` | apps/server/src/utils/logger.ts:28-30 | The traversal ends for every value of a finite graph if and only if no set of arrays holds itself, that is, no cycle runs through arrays alone. |
| `Redactor.TrapNeverEnds` | apps/server/src/utils/logger.ts:28-30 | On such a cycle no call depth suffices. |
| `Redactor.SelfHoldingArray` | apps/server/src/utils/logger.ts:28-30 | An array that holds itself is a graph on which the traversal does not end. |
| `PgpExecutor.HiddenPgpExecutor.ExecutePgpOperation` | apps/mobile/src/shared/hooks/useHiddenPgpExecutor.ts:33-118 | A fresh id, timer and table entry; without a WebView they are taken back and the promise rejected; an unserialisable payload rejects it and leaves them. |
| `PgpExecutor.HiddenPgpExecutor.OnMessage` | apps/mobile/src/shared/hooks/useHiddenPgpExecutor.ts:124-157 | Malformed and unknown messages change nothing; a reply closes its id with the remote error, the validated result, or a rejection. |
| `PgpExecutor.HiddenPgpExecutor.OnTimer` | apps/mobile/src/shared/hooks/useHiddenPgpExecutor.ts:71-76 | A timer closes its id if it is still pending. |
| `PgpExecutor.HiddenPgpExecutor.Dispose` | apps/mobile/src/shared/hooks/useHiddenPgpExecutor.ts:25-31 | Every pending id is rejected and its timer cleared; nothing pending or running is left. |
| `PgpExecutor.StepKeeps` | apps/mobile/src/shared/hooks/useHiddenPgpExecutor.ts:25-157 | Every event keeps: one running timer per pending id, every issued id pending or settled, each resolved value valid for its own operation; and no id becomes both unless a payload cannot be serialised. |
| `PgpExecutor.ExactlyOnce` | apps/mobile/src/shared/hooks/useHiddenPgpExecutor.ts:25-157 | Over any interleaving those hold, and no later event changes an outcome. |
| `PgpExecutor.ReplySettles` | apps/mobile/src/shared/hooks/useHiddenPgpExecutor.ts:138-156 | A reply settles the call it answers and no other: a failure with the remote message, a success with its result if and only if the validator of that call's operation accepts it. |
| `PgpExecutor.StrayMessageIgnored` | apps/mobile/src/shared/hooks/useHiddenPgpExecutor.ts:126-139 | A message that cannot be parsed, or answers nothing pending, changes nothing. |
| `PgpExecutor.TimeoutSettles` | apps/mobile/src/shared/hooks/useHiddenPgpExecutor.ts:71-76 | A timer rejects its own call as timed out. |
| `PgpExecutor.DisposalSettles` | apps/mobile/src/shared/hooks/useHiddenPgpExecutor.ts:25-31 | Disposal rejects every pending call and no other. |
| `PgpExecutor.CallRegisters` | apps/mobile/src/shared/hooks/useHiddenPgpExecutor.ts:33-118 | A call gets the next id and the outcome it has at once: none, no WebView, or a payload that cannot be serialised. |
| `PgpExecutor.NeverBothIff` | apps/mobile/src/shared/hooks/useHiddenPgpExecutor.ts:71-98 | Along a run no id is ever pending and settled at once if and only if every payload can be serialised. |
| `PgpExecutor.OutcomesFinal` | apps/mobile/src/shared/hooks/useHiddenPgpExecutor.ts:138-156 | No event changes a promise that has its outcome. |
| `OperationCenter.PruneExact` | apps/mobile/src/app/state/operationCenterState.ts:124-129 | Pruning keeps every running record and exactly the first ten finished ones, in order. |
| `OperationCenter.StartedGoesFirst` | apps/mobile/src/app/state/operationCenterState.ts:89-92 | A new record goes to the front; one whose id is taken is ignored. |
| `OperationCenter.UpdatedAsPatched` | apps/mobile/src/app/state/operationCenterState.ts:94-99 | An update sets exactly the fields it names on the record it names. |
| `OperationCenter.SeenMarksOne` | apps/mobile/src/app/state/operationCenterState.ts:101-106 | Seeing marks exactly that record. |
| `OperationCenter.RemovalExact` | apps/mobile/src/app/state/operationCenterState.ts:108-116 | Dismissing removes exactly the finished record of that id, clearing exactly the finished records. |
| `OperationCenter.RunGood` | apps/mobile/src/app/state/operationCenterState.ts:84-156 | Over any actions whose patches leave ids alone, ids stay distinct and at most ten records are finished. |
| `OperationCenter.OnlyFinishedLeave` | apps/mobile/src/app/state/operationCenterState.ts:108-129 | Under every action, a record leaves only while finished. |
| `OperationCenter.RunOnlyFinishedLeave` | apps/mobile/src/app/state/operationCenterState.ts:84-156 | Over any run, whoever is gone at the end left at one action and had finished by then. |
| `OperationCenter.OrderKept` | apps/mobile/src/app/state/operationCenterState.ts:84-129 | Survivors keep their relative order under every action. |
| `OperationCenter.RunOrderKept` | apps/mobile/src/app/state/operationCenterState.ts:84-156 | Over any run, two records that stay keep their relative order. |
| `OperationCenter.PatchedIdIff` | apps/mobile/src/app/state/operationCenterState.ts:94-99 | A patch that sets an id keeps ids distinct if and only if it is the record's own, or the record or the new id does not exist. |
| `OperationCenter.FinishingDroppedIff` | apps/mobile/src/app/state/operationCenterState.ts:124-129 | A finished record survives pruning if and only if fewer than ten finished records stand before it. |

## Left out

- OpenPGP, hashing, Firebase, Redis networking, HTTP and the bridge itself: streams are sequences of byte strings, the server issues fresh tokens, a query page is any set of matching documents of the right size.
- base64: a chunk either decodes to its bytes or does not decode.
- Durations of timers: a timer is an event that may fire; only the rate-limit stores have a clock.
- The file size limit, progress callbacks, SHA-256 digests, key handling and the signature verdict attached to the last slice: they do not touch the queue.
- `fileOpStatus` and `fileOpSelfTest`: reads and a benchmark.
- The host's set of in-flight batches is modelled by its size; a promise that an unavailable executor rejects before the host waits again is not distinguished from a later rejection.
- StreamProtocol.EndStrandsParkedBatches: covers the WebView side only; on the host the batch's own timer rejects it, which is a separate event of the protocol.
- StreamProtocol.OnlyFinishedStops: takes the crypto operation to have built its stream, or still to build it; when one fails before that, no pull ever starts, while the models let one start (batches are then rejected as in `StreamProtocol.FailureParksNobody`).
- After a cancel has reached the input stream, enqueueing a chunk throws and wakes nobody; the model lets a pull that was already woken deliver it, an order the microtask queue does not produce.
- Response headers, `Retry-After`, the displayed remaining count and the limiter's error objects.
- RateLimiter.AdmissionBound: one limit and window for all keys of a limiter, and no other process counting on the same Redis keys; both would need their own books.
- RedisStore.RunKeepsExpiry: each key has one window, whoever calls; limiters that share a key with different windows are not modelled.
- Number overflow of counters: counts are unbounded integers.
- The retry loop that decrypts with a pending password, and the hooks that dispatch events: `UserLoading` takes any order of them.
- `createSession` appears in `SessionRefresh` as another session being stored or the stored session being cleared; the forced-fresh flag, access tokens, MFA policy and expiry on the server are one nondeterministic accept or refuse.
- SessionRefresh.NoTokenReuse: a request that fails on the network without an answer is taken not to have reached the server; one that did is the lost answer of `SessionRefresh.LostAnswerReplays`.
- SessionRefresh.RefreshEnds: a refusal by the server settles the refresh in one step, because for this endpoint every MFA and token error is thrown at once (apps/mobile/src/api/request/httpErrorHandler.ts:65-75); the wait of the rate-limit handler (lines 88-91 there) is one step of unknown duration.
- Running a transition without a store, persisted steps that are not in the list, and progress that the store discards when it reads it (expired, another user's, or undecryptable).
- Transitions.ResumesInOrder: after the attempt that clears the progress the next one starts the list anew, so a step may then be called again.
- Documents inserted while a paged deletion runs, and a `filter` that changes its answer.
- Redactor.LogRedactor.Redact: asks for a graph without cycles of arrays alone, because on one the traversal does not end; getters, symbols, and repeated or inherited keys are not modelled.
- Log levels, serialisation of log entries, and the operation registry's counters, id generator and byte formatting: stateless one-liners beside the traversal and the reducer.
- HTTP error mapping, field validation of responses and notifications, key pagination and the Kotlin modules: no state of their own.
