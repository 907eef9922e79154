# Syntrix: protocol and data properties

A Dafny model of the parts of Syntrix that carry its hardest promises, with proofs.

- **Reconnecting stream** (`StreamRegistry`, `StreamProtocol`, `StreamInvariant`, `StreamSteps`,
  `StreamLiveSteps`, `StreamLinkSteps`, `StreamSafety`, `StreamTheorems`, `StreamGuess`): the gateway's remote stream with
  registration calls, a send queue, one transport attempt at a time, a server, and a reconnect loop that
  restores the active subscriptions. The registry is an object whose locked sections are methods; the protocol
  around it is a machine of labelled steps, and the theorems speak about every run.
- **Values and index keys** (`Bytes`, `Numbers`, `Values`, `JsonUnicode`, `Decimals`, `TypedCodec`,
  `TypedCodecTheorems`, `OrderKeys`, `OrderKeyReader`, `Filters`): canonical values, order-preserving keys, the
  typed codec shared by server and TypeScript client, and filter semantics.
- **Projection and indexing** (`Documents`, `Projections`, `ProjectionTheorems`, `IndexStore`, `IndexService`,
  `IndexReplay`, `IndexReadiness`, `Bootstrap`, `BootstrapTheorems`): from a stored document to its postings, the
  event loop with its progress markers, and the maintenance rebuild.
- **Replica gateway** (`AuthScheduler`, `AuthSchedulerSafety`, `Sums`, `ReplicaConnection`, `ReplicaMachine`,
  `ReplicaCounts`, `ReplicaShape`, `ReplicaSafety`, `ReplicaOnce`, `ReplicaClient`, `ChangeSignal`): fair and
  rate-limited authorization, credits and budgets of a connection, and the change signal.
- **Realtime hub** (`Hub`, `HubSafety`, `HubObject`), **snapshots** (`Snapshot`) and the **console session**
  (`SessionController`).

Code that updates an object in place is a class here. Each of its methods is proved to move the state exactly as a
function does, and that function is what the machines and theorems use. Goroutines become labelled steps that may
interleave in any order; a run is any sequence of enabled steps. Clocks, network answers, store faults and
cancellation are step choices or parameters.

## Where the code falls short of a promise

- After a failed write and before the close that follows, a change can be carried by nobody.
  `ChangeSignal.NoLostChange` states exactly when, `ChangeSignal.FailedWriteLoses` which failing write does it.
- Unsubscribing an identifier before Subscribe has returned it can leave it active and unknown to the server until
  the next reconnect. The stream theorems hold over all runs, such calls included:
  `StreamTheorems.ServerMatchesRegistry` states exactly which subscriptions the server then lacks. A caller avoids it
  by naming in Unsubscribe only identifiers that Subscribe returned: `StreamGuess.PoliteCallersServed` proves that
  enough, identifier by identifier, and `StreamGuess.PoliteCallersAgree` for all of them at once. One call against
  the rule is enough to lose a subscription, from every state at rest with room (`StreamGuess.GuessDisagrees`). The
  stream draws its identifiers at random and hands them out on return, so only a guess can name one earlier.

## Model

| member | source | states |
|---|---|---|
| `StreamTheorems.NoLeakedSubscriptions` | packages/syntrix/internal/streamer/remote_stream.go:183-321 | After any run, once the newest attempt is live and all calls and queues have drained, the server holds only active subscriptions and no pending registration is left, however calls were cancelled, timed out, rejected, withdrawn or answered late, and whoever unsubscribed what. |
| `StreamTheorems.ConnectedServerHoldsActive` | packages/syntrix/internal/streamer/remote_stream.go:467-505 | In every reachable connected state on a live attempt the server holds each active subscription that was not overtaken, and what it holds it holds under the original request. |
| `StreamTheorems.ServerMatchesRegistry` | packages/syntrix/internal/streamer/remote_stream.go:183-321 | Connected, quiet and drained, over all runs: the server holds exactly the active subscriptions that were not overtaken, so server and registry agree if and only if no active one was overtaken on this attempt, that is, had an Unsubscribe queued behind its Subscribe by a caller who named it before Subscribe returned it. |
| `StreamTheorems.ConnectedMeansRestored` | packages/syntrix/internal/streamer/remote_stream.go:467-493 | Connected implies one current attempt, the newest, of the published generation, and every active subscription was acknowledged by that attempt; when Status shows connected, that attempt is alive. |
| `StreamTheorems.GenerationsIncrease` | packages/syntrix/internal/streamer/remote_stream.go:506-586 | Attempts open strictly increasing generations; after a retirement every past generation is below the published one. |
| `StreamTheorems.CapacityRespected` | packages/syntrix/internal/streamer/remote_stream.go:195-198 | At most 256 pending and 4096 active registrations in every reachable state. |
| `StreamTheorems.RetiredGenerationStaysSilent` | packages/syntrix/internal/streamer/remote_stream.go:322-340 | From any state on, Recv hands out only deliveries of the generation current there or a later one. |
| `StreamTheorems.DeliveriesInOrder` | packages/syntrix/internal/streamer/remote_stream.go:322-340 | The generations of received deliveries never decrease and never exceed the published one. |
| `StreamGuess.PoliteCallersServed` | packages/syntrix/internal/streamer/remote_stream.go:168-321 | Over every run, for an identifier that callers unsubscribe only after Subscribe returned it (or before any call drew it): it is never overtaken, and connected, quiet and drained the server holds it exactly when it is active, under the same request. |
| `StreamGuess.PoliteCallersAgree` | packages/syntrix/internal/streamer/remote_stream.go:168-321 | When callers keep that rule about every identifier, nothing is overtaken and server and registry agree whenever connected, quiet and drained. |
| `StreamGuess.GuessDisagrees` | packages/syntrix/internal/streamer/remote_stream.go:294-321 | For every reachable state at rest with room for a subscription, every fresh identifier and every request: unsubscribing the identifier while its registration waits for the answer can end at rest with it active and not held by the server. |
| `StreamGuess.ScriptRuns` | packages/syntrix/internal/streamer/remote_stream.go:168-321 | The run that gets there, step by step, with its end state. |
| `StreamSafety.StepInv` | packages/syntrix/internal/streamer/remote_stream.go:139-586 | Each step of callers, transport and reconnect loop keeps the protocol invariant. |
| `StreamRegistry.RemoteStream.constructor` | packages/syntrix/internal/streamer/remote_stream.go:97-107 | A new stream is connected on attempt 0 at generation 1 with empty registries. |
| `StreamRegistry.RemoteStream.RetireLocked` | packages/syntrix/internal/streamer/remote_stream.go:146-153 | Only the current attempt is retired; the generation moves up and the stream is reconnecting. |
| `StreamRegistry.RemoteStream.AttachAttempt` | packages/syntrix/internal/streamer/remote_stream.go:567-570 | The new attempt becomes current and adopts the published generation. |
| `StreamRegistry.RemoteStream.FinishRestore` | packages/syntrix/internal/streamer/remote_stream.go:487-492 | Connected is published exactly when the attempt is alive, still current and the stream is open. |
| `StreamRegistry.RemoteStream.Terminate` | packages/syntrix/internal/streamer/remote_stream.go:581-584 | The terminal state drops the attempt and keeps both registries. |
| `StreamRegistry.RemoteStream.RegisterPending` | packages/syntrix/internal/streamer/remote_stream.go:190-204 | A pending entry is added exactly on admission; stale, full and withdrawn calls change nothing. |
| `StreamRegistry.RemoteStream.TakeResponse` | packages/syntrix/internal/streamer/remote_stream.go:215-243 | The whole new registry for each combination of currency, withdrawal, expiry and verdict. |
| `StreamRegistry.RemoteStream.AbandonLocked` | packages/syntrix/internal/streamer/remote_stream.go:255-266 | Only the owner of the entry acts; a dead attempt frees the charge at once, a live one asks for a cleanup. |
| `StreamRegistry.RemoteStream.UnsubscribeLocked` | packages/syntrix/internal/streamer/remote_stream.go:294-313 | Removes the active subscription and names the attempt to notify, or refuses on a closed stream. |
| `StreamRegistry.RemoteStream.WriterDischarge` | packages/syntrix/internal/streamer/remote_stream.go:436-442 | The charge of an abandoned entry ends when its unsubscribe was written by its own attempt. |
| `StreamRegistry.RemoteStream.DropAttemptEntries` | packages/syntrix/internal/streamer/remote_stream.go:519-525 | The loop removes exactly the pending entries of the finished attempt. |
| `Numbers.NumberKeyOrder` | packages/syntrix/pkg/model/value.go:210-256 | Byte order of number keys is exact numeric order over all int64 values and finite binary64 floats, subnormals and both zeros included; keys coincide exactly on equal numbers. |
| `Numbers.NormalizeInt` | packages/syntrix/pkg/model/value.go:210-256 | Exponent and left-aligned significand of an integer represent its magnitude exactly. |
| `Numbers.NormalizeFloat` | packages/syntrix/pkg/model/value.go:210-256 | The same for a finite float, normal or subnormal. |
| `Numbers.PutBigEndian` | packages/syntrix/pkg/model/value.go:210-256 | Writes a fixed-width big-endian field in place and leaves the rest of the buffer alone. |
| `Numbers.ComplementFrom` | packages/syntrix/pkg/model/value.go:210-256 | Complements the bytes behind the sign byte in place. |
| `Numbers.FillKey` | packages/syntrix/pkg/model/value.go:210-256 | Fills the 12-byte buffer with the key of a nonzero number. |
| `Numbers.BuildNumberKey` | packages/syntrix/pkg/model/value.go:210-256 | The imperative key construction yields the specified 12 bytes. |
| `Values.NormalizeCanonical` | packages/syntrix/pkg/model/value.go:19-92 | Normalization yields a canonical value that differs from the input at most in the sign of zeros. |
| `Values.NormalizeFixed` | packages/syntrix/pkg/model/value.go:19-92 | Canonical values are fixed points, so normalization is idempotent. |
| `Values.CompareValuesMeaning` | packages/syntrix/pkg/model/value.go:258-276 | Comparison succeeds exactly on two scalars and then gives their order; equality is order zero. |
| `Values.OrderTotal` | packages/syntrix/pkg/model/value.go:258-270 | The scalar order is reflexive, antisymmetric and transitive, and so is its equality. |
| `Values.KeyOrder` | packages/syntrix/pkg/model/value.go:186-208 | Byte order of scalar keys is the scalar order across null, booleans, numbers and strings. |
| `Values.KeyIdentity` | packages/syntrix/pkg/model/value.go:186-208 | Two scalars share a key exactly when neither precedes the other. |
| `JsonUnicode.HexCodeUnit` | packages/syntrix/pkg/model/value.go:163-184 | Four hexadecimal digits of either case give their code unit, anything else nothing. |
| `JsonUnicode.ValidateJsonUnicode` | packages/syntrix/pkg/model/value.go:122-161 | The linear pass accepts exactly the valid UTF-8 texts without unpaired surrogate escapes. |
| `JsonUnicode.TokenAccepted` | packages/syntrix/pkg/model/value.go:122-161 | The characters of a string token pass exactly when the UTF-16 they denote has no unpaired surrogate, whether the token is closed or the text ends in it. |
| `JsonUnicode.TextAccepted` | packages/syntrix/pkg/model/value.go:122-161 | A text given in pieces passes exactly when every string token in it is well formed, the one it may end in included, and no Unicode escape lacks its digits. |
| `JsonUnicode.TextSplits` | packages/syntrix/pkg/model/value.go:122-161 | Every valid UTF-8 text splits into such pieces and one of four endings. |
| `JsonUnicode.EveryTextDecided` | packages/syntrix/pkg/model/value.go:122-161 | So every valid UTF-8 text passes exactly when, split so, all its string tokens are well formed and no Unicode escape lacks its digits. |
| `Decimals.Int64Decoders` | packages/syntrix/pkg/model/value.go:364-378 | Both decoders accept exactly the canonical decimal spellings of the int64 range and read the same integer. |
| `TypedCodec.ValidString` | packages/sdks/client-ts/src/api/value.ts:15-26 | The scan accepts exactly the strings without unpaired surrogates. |
| `TypedCodecTheorems.TreeRoundTrip` | packages/syntrix/pkg/model/value.go:284-414 | Decoding the typed tree of any normalized value, at any depth, gives the value back. |
| `TypedCodecTheorems.DecodersAgree` | packages/sdks/client-ts/src/api/value.ts:80-114 | The Go and TypeScript decoders accept the same documents and read the same values. |
| `TypedCodecTheorems.EncodersAgree` | packages/sdks/client-ts/src/api/value.ts:42-78 | The client encoder accepts exactly the values with a normal form and emits the tree the server emits for it. |
| `TypedCodecTheorems.ClientServerRoundTrip` | packages/sdks/client-ts/src/api/value.ts:36-114 | Either decoder applied to what the client encodes yields the normal form. |
| `OrderKeys.EscapeAndTerminate` | packages/syntrix/internal/indexer/encoding/orderkey.go:75-104 | The escaping loop yields the specified field bytes in both directions. |
| `OrderKeys.BuildPrefix` | packages/syntrix/internal/indexer/encoding/orderkey.go:63-73 | The prefix loop concatenates the field encodings or fails with the first bad field. |
| `OrderKeys.EncodeFieldsDefined` | packages/syntrix/internal/indexer/encoding/orderkey.go:75-104 | Exactly the fields with a direction and a scalar, bounded value encode. |
| `OrderKeys.FieldBytesOrder` | packages/syntrix/internal/indexer/encoding/orderkey.go:75-104 | Field encodings are prefix-free and ordered by key, reversed when descending, whatever follows. |
| `OrderKeys.EncodeOrder` | packages/syntrix/internal/indexer/encoding/orderkey.go:45-61 | Byte order of complete keys is tuple order with mixed directions and the document ID as tie-break; keys are equal only for equal tuples and IDs. |
| `OrderKeys.PrefixSelects` | packages/syntrix/internal/indexer/encoding/orderkey.go:63-73 | A prefix is a byte prefix of exactly those keys whose leading fields equal it. |
| `OrderKeyReader.ScanComponent` | packages/syntrix/internal/indexer/encoding/orderkey.go:109-155 | One component is unescaped up to its terminator, or the key is refused. |
| `OrderKeyReader.ExtractDocId` | packages/syntrix/internal/indexer/encoding/orderkey.go:109-155 | The scan returns the last component of a well-formed key and refuses every other key. |
| `OrderKeyReader.ExtractInvertsEncode` | packages/syntrix/internal/indexer/encoding/orderkey.go:109-155 | Extraction returns the document ID of every encoded key. |
| `Filters.UniqueMembers` | packages/syntrix/pkg/model/filter_eval.go:18-62 | Keeps the first member of each scalar key, or fails on a non-scalar. |
| `Filters.NormalizeFilters` | packages/syntrix/pkg/model/filter_eval.go:18-62 | The loop normalizes every filter or fails. |
| `Filters.NormalizeFilterDefined` | packages/syntrix/pkg/model/filter_eval.go:18-86 | Exactly the well-formed filters are admitted. |
| `Filters.NormalizeFilterIdempotent` | packages/syntrix/pkg/model/filter_eval.go:18-62 | Normalizing a normalized filter changes nothing. |
| `Filters.NormalizeFiltersIdempotent` | packages/syntrix/pkg/model/filter_eval.go:18-62 | The same for a conjunction. |
| `Filters.FilterMeaning` | packages/syntrix/pkg/model/filter_eval.go:113-164 | Evaluating a normalized filter gives the meaning of the filter as written; absence is false, and the only error is a stored value without normal form. |
| `Filters.InMeaning` | packages/syntrix/pkg/model/filter_eval.go:113-164 | Membership after removing duplicates is membership in the list as written. |
| `Filters.ContainsMeaning` | packages/syntrix/pkg/model/filter_eval.go:113-164 | Containment after normalization is containment in the stored array. |
| `Filters.RangeMeaning` | packages/syntrix/pkg/model/filter_eval.go:72-86 | Range operators compare only within one family, and then by the scalar order. |
| `Filters.EvaluateFilters` | packages/syntrix/pkg/model/filter_eval.go:88-103 | The loop computes the conjunction, errors included. |
| `Filters.ConjunctionMeaning` | packages/syntrix/pkg/model/filter_eval.go:88-103 | An error exactly when some filter is erroneous; otherwise true exactly when every filter selects. |
| `Documents.LogicalIdentity` | packages/syntrix/internal/core/storage/types/helpers.go:49-78 | An identifier is the identity of a document exactly when database and concrete collection are there and it is the one nonempty path segment below the collection, without NUL. |
| `Documents.FieldsOverlaid` | packages/syntrix/internal/indexer/service.go:446-467 | A document shows exactly its six envelope fields laid over its data, a tombstone only the envelope. |
| `Documents.MatchingTemplates` | packages/syntrix/internal/indexer/template/template.go:270-314 | Exactly the templates whose pattern matches the collection are used. |
| `Projections.GatherMembers` | packages/syntrix/internal/indexer/service.go:515-540 | The member loop: normalized scalars, first of each key, within the posting limit, or the first failure. |
| `Projections.ReadDocumentFields` | packages/syntrix/internal/indexer/service.go:493-546 | The field loop reads the stored values and members of every template field, or fails. |
| `Projections.EncodePostings` | packages/syntrix/internal/indexer/service.go:558-575 | The posting loop encodes one key per member within the byte limit, or fails. |
| `Projections.BuildDocumentProjection` | packages/syntrix/internal/indexer/service.go:469-578 | The whole projection equals its specification, failures included. |
| `ProjectionTheorems.GatherMeaning` | packages/syntrix/internal/indexer/service.go:515-540 | Gathered members have pairwise different keys, and exactly the scalar keys of the stored array. |
| `ProjectionTheorems.PostingIdentity` | packages/syntrix/internal/indexer/service.go:558-575 | Two postings of one document coincide exactly when their members have the same key. |
| `ProjectionTheorems.PostingIffContains` | packages/syntrix/internal/indexer/service.go:469-578 | A posting for a scalar exists exactly when the contains filter on that field is true of the document. |
| `ProjectionTheorems.ProjectionBounded` | packages/syntrix/internal/indexer/service.go:469-578 | Postings strictly ascend, each leads back to the document, their number is that of distinct scalar keys (or one, or none), and count and bytes respect the limits. |
| `ProjectionTheorems.SortKeysSorts` | packages/syntrix/internal/indexer/service.go:576 | Sorting gives an ascending permutation. |
| `AuthScheduler.AuthBudget.DispatchLocked` | packages/syntrix/internal/gateway/realtime/replica_budget.go:148-173 | Refills, grants in order while permits and tokens last, and arms the timer when a token is missing. |
| `AuthScheduler.AuthBudget.Enter` | packages/syntrix/internal/gateway/realtime/replica_budget.go:106-119 | Refuses exactly when the queue is full; otherwise queues and dispatches. |
| `AuthScheduler.AuthBudget.RemoveWaiter` | packages/syntrix/internal/gateway/realtime/replica_budget.go:133-140 | The search loop removes exactly the first occurrence of the ticket. |
| `AuthScheduler.AuthBudget.Leave` | packages/syntrix/internal/gateway/realtime/replica_budget.go:128-145 | A cancelled caller leaves the queue, or gives its permit back if it was granted meanwhile. |
| `AuthScheduler.AuthBudget.ReleaseAuth` | packages/syntrix/internal/gateway/realtime/replica_budget.go:97-102 | One permit returns and the queue is dispatched. |
| `AuthScheduler.RetryAfter` | packages/syntrix/internal/gateway/realtime/replica_budget.go:112-116 | A refused caller is told at least one second and enough for the queue ahead at the refill rate. |
| `AuthSchedulerSafety.ApplyRefines` | packages/syntrix/internal/gateway/realtime/replica_budget.go:97-173 | The machine moves the scheduler exactly as the object methods do. |
| `AuthSchedulerSafety.StepInv` | packages/syntrix/internal/gateway/realtime/replica_budget.go:97-173 | Each step keeps the scheduler invariant. |
| `AuthSchedulerSafety.FirstComeFirstServed` | packages/syntrix/internal/gateway/realtime/replica_budget.go:106-173 | Over every run permits go out in arrival order and nobody still waiting arrived before a served caller. |
| `AuthSchedulerSafety.ConcurrencyBounded` | packages/syntrix/internal/gateway/realtime/replica_budget.go:97-173 | Running permits are exactly those granted and not released, within the limit; the queue is bounded. |
| `AuthSchedulerSafety.RateBounded` | packages/syntrix/internal/gateway/realtime/replica_budget.go:148-173 | The permits granted between any two grants of any run fit the burst plus the rate times the time between. |
| `AuthSchedulerSafety.NeverStranded` | packages/syntrix/internal/gateway/realtime/replica_budget.go:148-173 | A nonempty queue means the limit is reached or the timer is armed. |
| `AuthSchedulerSafety.TimerServes` | packages/syntrix/internal/gateway/realtime/replica_budget.go:148-173 | When the armed timer fires a token is there and the oldest waiter is served. |
| `ReplicaSafety.CreditsConserved` | packages/syntrix/internal/gateway/realtime/replica_client.go:136-145 | Over every run the credit counter is the number of pages whose credit is out, within the limit. |
| `ReplicaSafety.QueueNeverFull` | packages/syntrix/internal/gateway/realtime/replica_requests.go:483-502 | Queued and held frames belong to distinct pages that hold their credit, so a producing worker always finds room. |
| `ReplicaSafety.LedgerExact` | packages/syntrix/internal/gateway/realtime/replica_budget.go:45-88 | Each shared counter is the share of this connection plus that of the others, between zero and its maximum. |
| `ReplicaSafety.EverythingReturned` | packages/syntrix/internal/gateway/realtime/replica_client.go:181-211 | After close and exit of all workers every counter of the connection and its ledger share are zero and no upstream registration is left. |
| `ReplicaOnce.StepForward` | packages/syntrix/internal/gateway/realtime/replica_client.go:136-179 | A step only returns: no credit, permit, source share or registration handed back is ever held again. |
| `ReplicaOnce.RunForward` | packages/syntrix/internal/gateway/realtime/replica_client.go:136-179 | The same over every run, so everything is returned at most once. |
| `ReplicaClient.Client.ReleasePageLocked` | packages/syntrix/internal/gateway/realtime/replica_client.go:136-145 | Credit and bytes go back once peer, worker and buffer are all done with the page, and not before. |
| `ReplicaClient.Client.FinishSourceLocked` | packages/syntrix/internal/gateway/realtime/replica_client.go:146-153 | The source share goes back once. |
| `ReplicaClient.Client.RetireSubLocked` | packages/syntrix/internal/gateway/realtime/replica_client.go:154-179 | Retirement ends the pending page, unindexes the subscription and hands over the release at most once. |
| `ReplicaClient.Client.Close` | packages/syntrix/internal/gateway/realtime/replica_client.go:181-211 | The loop retires every subscription still in force. |
| `ReplicaClient.Client.StartSubscribe` | packages/syntrix/internal/gateway/realtime/replica_requests.go:168-208 | Admission and every refusal, with the identifier spent also when capacity is missing. |
| `ReplicaClient.Client.StartRead` | packages/syntrix/internal/gateway/realtime/replica_requests.go:346-402 | Admission of a page read; a refusal changes nothing. |
| `ReplicaClient.Client.OfferPage` | packages/syntrix/internal/gateway/realtime/replica_requests.go:483-502 | A frame is queued exactly when its page is still wanted. |
| `ReplicaClient.Client.EndLocked` | packages/syntrix/internal/gateway/realtime/replica_client.go:136-145 | Ending a page detaches it from its subscription and releases what it holds. |
| `ReplicaClient.Client.PageFailure` | packages/syntrix/internal/gateway/realtime/replica_requests.go:505-519 | A failed read ends its page once. |
| `ReplicaClient.Client.FinishRead` | packages/syntrix/internal/gateway/realtime/replica_requests.go:404-420 | The deferred section of the worker returns its permit and its mark on the page. |
| `ReplicaClient.Client.Acknowledge` | packages/syntrix/internal/gateway/realtime/replica_requests.go:311-344 | Accepted exactly for the written page of the subscription; then peer and page are done. |
| `ReplicaClient.Client.DiscardFrame` | packages/syntrix/internal/gateway/realtime/replica_client.go:292-306 | A dropped frame gives its buffer back and ends its page. |
| `ReplicaClient.Client.DrainQueue` | packages/syntrix/internal/gateway/realtime/replica_client.go:309-319 | The writer drops every frame left, oldest first. |
| `ReplicaClient.Client.AfterWrite` | packages/syntrix/internal/gateway/realtime/replica_client.go:362-376 | After a write the buffer mark is returned whatever the outcome. |
| `ChangeSignal.NoLostChange` | packages/syntrix/internal/gateway/realtime/replica_requests.go:521-594 | Exactly when a change is lost: over every run, a change of a current subscription that no written frame covers is neither dirty nor carried by a flush or frame if and only if the write of the last flushed frame failed and neither a flush nor a change came after it. |
| `ChangeSignal.DeliveredUnlessWriteFails` | packages/syntrix/internal/gateway/realtime/replica_requests.go:521-594 | In every run without a failed write of a changed frame, each uncovered change is dirty or carried, also after the writer stopped for another reason. |
| `ChangeSignal.DirtyIsFlushed` | packages/syntrix/internal/gateway/realtime/replica_requests.go:529-556 | Nothing but a flush or frame under way keeps the next tick from flushing a dirty subscription. |
| `ChangeSignal.FailedWriteLoses` | packages/syntrix/internal/gateway/realtime/replica_client.go:362-379 | In every reachable state in which the frame is being written, a failing write loses a change exactly when the subscription is current and no change came since the flush. |
| `ChangeSignal.FailedWriteWindow` | packages/syntrix/internal/gateway/realtime/replica_client.go:307-384 | A run that reaches such a write. |
| `ChangeSignal.Subscription.OnChanged` | packages/syntrix/internal/gateway/realtime/replica_requests.go:521-527 | A change sets the dirty mark. |
| `ChangeSignal.Subscription.OnTick` | packages/syntrix/internal/gateway/realtime/replica_requests.go:529-556 | A flush starts exactly when the subscription is dirty, idle and a permit is available, and takes the dirty mark. |
| `ChangeSignal.Subscription.OnBusy` | packages/syntrix/internal/gateway/realtime/replica_requests.go:557-594 | A flush that cannot be authorized now leaves the subscription dirty. |
| `ChangeSignal.Subscription.OnAuthorized` | packages/syntrix/internal/gateway/realtime/replica_requests.go:557-594 | An authorized flush of a current subscription sets the queued mark and offers one frame. |
| `ChangeSignal.Subscription.OnFlushDone` | packages/syntrix/internal/gateway/realtime/replica_requests.go:557-594 | The end of a flush allows the next one. |
| `ChangeSignal.Subscription.OnWritten` | packages/syntrix/internal/gateway/realtime/replica_client.go:363-367 | After the write the queued mark is cleared. |
| `HubSafety.ExactlyOnce` | packages/syntrix/internal/gateway/realtime/hub_replica.go:73-139 | Over every run an acknowledged replica registration is in exactly one place: its call, its active owner, the releasing thread, or one initiated cleanup, which is skipped only for a retired or terminal stream or at shutdown. |
| `HubSafety.LegacyExactlyOnce` | packages/syntrix/internal/gateway/realtime/hub.go:134-225 | The same for a legacy registration, however often it is released. |
| `HubSafety.InvalidatedOnce` | packages/syntrix/internal/gateway/realtime/hub_replica.go:169-222 | An owner is told of its invalidation at most once and only after it lost its active flag. |
| `HubSafety.DeliveredToOwnStream` | packages/syntrix/internal/gateway/realtime/hub.go:234-331 | Deliveries reach only owners and registrations of the delivering stream. |
| `HubSafety.ReplacedStreamsAreInvalidated` | packages/syntrix/internal/gateway/realtime/hub.go:172-195 | An owner registered on a replaced or retired stream has an invalidation under way. |
| `HubObject.RealtimeHub.BeginOwner` | packages/syntrix/internal/gateway/realtime/hub_replica.go:73-93 | An owner starts exactly while an unretired stream is current and the hub is open. |
| `HubObject.RealtimeHub.ValidateOwner` | packages/syntrix/internal/gateway/realtime/hub_replica.go:99-109 | The identifier is stored only for an active owner of the current, unretired, healthy stream. |
| `HubObject.RealtimeHub.ClaimOwner` | packages/syntrix/internal/gateway/realtime/hub_replica.go:121-124 | One caller wins the release of an owner. |
| `HubObject.RealtimeHub.DetachOwner` | packages/syntrix/internal/gateway/realtime/hub_replica.go:126-132 | The winner removes owner and mapping and takes the identifier along. |
| `HubObject.RealtimeHub.CollectOwners` | packages/syntrix/internal/gateway/realtime/hub_replica.go:200-222 | The loop collects exactly the registered owners of the stream. |
| `HubObject.RealtimeHub.CollectDelivery` | packages/syntrix/internal/gateway/realtime/hub_replica.go:148-165 | The loop collects the mapped owners of the stream in the order of the identifiers. |
| `IndexStore.PutAllGet` | packages/syntrix/internal/indexer/mem_store/projection.go:37-61 | After a batch each slot holds the keys of the last replacement for it, or what it held. |
| `IndexStore.ReplayPostings` | packages/syntrix/internal/indexer/mem_store/projection.go:37-61 | Applying a batch twice is applying it once. |
| `IndexService.BuildAll` | packages/syntrix/internal/indexer/service.go:582-661 | The projection loop yields every projection or none. |
| `IndexService.Indexer.CommitProjection` | packages/syntrix/internal/indexer/service.go:662-674 | Postings and stored marker change together, then the marker of the service; a failure changes neither. |
| `IndexService.Indexer.RecordFailure` | packages/syntrix/internal/indexer/service.go:676-684 | The loop marks every partition of the event. |
| `IndexService.Indexer.ResolveRefs` | packages/syntrix/internal/indexer/service.go:582-661 | The serving partitions of all matching templates, or nothing. |
| `IndexService.Indexer.ApplyEvent` | packages/syntrix/internal/indexer/service.go:582-661 | The new service state and the outcome for every event and every fault. |
| `IndexService.Indexer.ReplaceDocument` | packages/syntrix/internal/indexer/service.go:582-661 | The document part of the same. |
| `IndexService.Indexer.InvalidateDatabase` | packages/syntrix/internal/indexer/service.go:823-838 | Postings and partitions of the database go and it is marked retired, or, on a failure, nothing changes. |
| `IndexReplay.FailureChangesNothing` | packages/syntrix/internal/indexer/service.go:582-684 | An event that fails leaves postings, progress markers and catalogs as they were. |
| `IndexReplay.ApplyAllMeaning` | packages/syntrix/internal/indexer/service.go:582-674 | A run of events amounts to one combined replacement and the last marker. |
| `IndexReplay.ReplayConverges` | packages/syntrix/internal/indexer/service.go:582-674 | Replaying any stretch of a run leaves the same store and markers as the run without the replay. |
| `IndexReplay.LastEventWins` | packages/syntrix/internal/indexer/service.go:582-674 | After any run the postings of a document under each matching template are the projection of the last event about it. |
| `IndexReadiness.ReadyMeansReplayed` | packages/syntrix/internal/indexer/service.go:266-430 | In verified mode an admitted query reads the service found by a barrier that was matched and flushed since the last attach and named its marker, with every event received and every database invalidated after it applied in order, none failed. |
| `IndexReadiness.PerformEvents` | packages/syntrix/internal/indexer/service.go:582-661 | Where no database was invalidated, that is the replay of the events that the convergence results speak about. |
| `IndexReadiness.InvalidationLasts` | packages/syntrix/internal/indexer/service.go:823-838 | After an invalidation no event or later invalidation brings back a posting of the database. |
| `IndexReadiness.MarkersAgree` | packages/syntrix/internal/indexer/service.go:266-430 | The marker of the service equals the stored one after every turn and at every attach. |
| `IndexReadiness.RetriesBounded` | packages/syntrix/internal/indexer/service.go:266-430 | At most ten reconnects between barriers. |
| `IndexReadiness.ReconnectLowersReady` | packages/syntrix/internal/indexer/service.go:266-430 | While reconnecting in verified mode no query is admitted. |
| `IndexReadiness.Subscription.AttachStream` | packages/syntrix/internal/indexer/service.go:266-430 | A new stream starts at the stored marker. |
| `IndexReadiness.Subscription.ReconnectStream` | packages/syntrix/internal/indexer/service.go:266-430 | Readiness is withdrawn, the stored marker reloaded and the retry loop entered, or the loop ends. |
| `IndexReadiness.Subscription.RetryStream` | packages/syntrix/internal/indexer/service.go:266-430 | The bounded retry loop, for every sequence of outcomes. |
| `IndexReadiness.Subscription.HandleBarrier` | packages/syntrix/internal/indexer/service.go:266-430 | A barrier makes the service ready, or ends the subscription when it does not match. |
| `IndexReadiness.Subscription.HandleChange` | packages/syntrix/internal/indexer/service.go:266-430 | An event goes through ApplyEvent; its failure ends the loop. |
| `IndexReadiness.Subscription.HandleInvalidation` | packages/syntrix/internal/indexer/service.go:823-838 | An invalidation between two turns, as a move of the loop. |
| `Bootstrap.Builder.constructor` | packages/syntrix/internal/indexer/bootstrap.go:121-133 | A rebuild starts on an empty store. |
| `Bootstrap.Builder.Project` | packages/syntrix/internal/indexer/bootstrap.go:231-245 | All projections of a document, exactly when each can be built and the store takes them. |
| `Bootstrap.Builder.ProjectDocument` | packages/syntrix/internal/indexer/bootstrap.go:231-250 | The projections are stored in one step or nothing is. |
| `Bootstrap.Builder.ScanDocument` | packages/syntrix/internal/indexer/bootstrap.go:222-251 | A document is taken exactly when it is in scope, after its predecessor and projectable. |
| `Bootstrap.Builder.ScanPage` | packages/syntrix/internal/indexer/bootstrap.go:219-254 | A page passes exactly when each of its documents does. |
| `Bootstrap.Builder.BootstrapCollection` | packages/syntrix/internal/indexer/bootstrap.go:210-262 | Success means every presented document was in order and projected; an honest source with such documents always succeeds. |
| `Bootstrap.Builder.ScanNames` | packages/syntrix/internal/indexer/bootstrap.go:160-173 | The same for a page of collection names. |
| `Bootstrap.Builder.BootstrapDatabase` | packages/syntrix/internal/indexer/bootstrap.go:148-177 | The same for the names of one database, as far as the enumeration goes: a page that is not full is the last, a page over the bound is refused. |
| `Bootstrap.Builder.ScanAll` | packages/syntrix/internal/indexer/bootstrap.go:147-178 | The same for the whole inventory, as far as its enumerations go. |
| `Bootstrap.Builder.Run` | packages/syntrix/internal/indexer/bootstrap.go:69-208 | Success means everything enumerated was scanned before the catalogs were published with one generation and boundary; failure publishes nothing; with nothing failing the rebuild succeeds exactly when it is admissible, the store is empty and the source fits. |
| `BootstrapTheorems.EveryDocumentOnce` | packages/syntrix/internal/indexer/bootstrap.go:210-262 | A scan that passes projects no document twice, whatever the source presents. |
| `BootstrapTheorems.EveryDocumentCovered` | packages/syntrix/internal/indexer/bootstrap.go:147-178 | A scan that passes misses no document of a matching collection. |
| `BootstrapTheorems.InventorySorted` | packages/syntrix/internal/indexer/bootstrap.go:112-114 | The inventory lists each requested database once, in order. |
| `BootstrapTheorems.IndexComplete` | packages/syntrix/internal/indexer/bootstrap.go:210-262 | The postings of every logged document are those of its own projection. |
| `BootstrapTheorems.RebuildComplete` | packages/syntrix/internal/indexer/bootstrap.go:69-208 | After a rebuild, for every document the source presented and every template matching its collection, the store holds exactly the postings of its projection. |
| `BootstrapTheorems.NothingElseIndexed` | packages/syntrix/internal/indexer/bootstrap.go:69-208 | Every slot of the rebuilt index belongs to a presented document and a template that matches its collection. |
| `BootstrapTheorems.EnumerationComplete` | packages/syntrix/internal/indexer/bootstrap.go:153-176 | The rebuild sees all collections of a database if and only if every enumeration page but the last is full and the last holds the rest. |
| `SessionController.NeverStuck` | packages/console-client/src/auth/controller.ts:78-166 | A connected busy view has a mutation pending or its latest read in flight. |
| `SessionController.SessionMatchesStatus` | packages/console-client/src/auth/controller.ts:66-76 | Authenticated means a session, anonymous means none. |
| `SessionController.SupersededReadSilent` | packages/console-client/src/auth/controller.ts:78-111 | Once a read is superseded, then after any further steps, whenever and however it settles, it changes neither view nor epoch and leaves the latest read alone. |
| `SessionController.NewerSupersedes` | packages/console-client/src/auth/controller.ts:78-195 | In every reachable state, starting a read or a mutation, or disconnecting, supersedes every read in flight. |
| `SessionController.EpochsGrow` | packages/console-client/src/auth/controller.ts:78-195 | Epochs and tickets never decrease along a run. |
| `SessionController.RefreshFollowsMutation` | packages/console-client/src/auth/controller.ts:78-166 | A refresh requested while a mutation is pending shows nothing at once and is never lost: after any further steps, the turn in which that mutation settles, however it does, starts a new read. |
| `SessionController.InterruptedReadResumes` | packages/console-client/src/auth/controller.ts:113-166 | The same for a read that was in flight when the mutation started. |
| `SessionController.SessionObject.StartRead` | packages/console-client/src/auth/controller.ts:78-94 | The new controller state of a read that starts, or is put off. |
| `SessionController.SessionObject.FinishRead` | packages/console-client/src/auth/controller.ts:95-111 | The state after a read settles. |
| `SessionController.SessionObject.StartMutation` | packages/console-client/src/auth/controller.ts:113-125 | At most one mutation runs; starting one supersedes reads. |
| `SessionController.SessionObject.FinishMutation` | packages/console-client/src/auth/controller.ts:126-166 | The state after a mutation settles, with the follow-up read. |
| `SessionController.SessionObject.Open` | packages/console-client/src/auth/controller.ts:174-180 | Connecting starts the first read. |
| `SessionController.SessionObject.Close` | packages/console-client/src/auth/controller.ts:181-196 | Disconnecting supersedes everything in flight. |
| `Snapshot.FoldIsLatest` | packages/syntrix/internal/gateway/realtime/snapshot.go:57-118 | The fold holds exactly the latest version of each document whose latest version is live. |
| `Snapshot.TotalPut` | packages/syntrix/internal/gateway/realtime/snapshot.go:57-118 | How one document changes the byte total. |
| `Snapshot.PutDocument` | packages/syntrix/internal/gateway/realtime/snapshot.go:57-118 | One document is folded with an exact byte count; refused exactly for a missing identity or a live document over the limits. |
| `Snapshot.FoldPage` | packages/syntrix/internal/gateway/realtime/snapshot.go:57-118 | The page loop folds every document or stops at the first refusal. |
| `Snapshot.FoldWithinIsFold` | packages/syntrix/internal/gateway/realtime/snapshot.go:57-118 | The limit checks never change what is folded. |
| `Snapshot.SortedIds` | packages/syntrix/internal/gateway/realtime/snapshot.go:57-118 | The identifiers held, each once, in byte order. |
| `Snapshot.SelectTotal` | packages/syntrix/internal/gateway/realtime/snapshot.go:57-118 | The bytes of the selected documents are the running total. |
| `Snapshot.PullAll` | packages/syntrix/internal/gateway/realtime/snapshot.go:57-118 | The pull loop folds all pages up to the one that has caught up, or fails as specified. |
| `Snapshot.CollectSnapshot` | packages/syntrix/internal/gateway/realtime/snapshot.go:57-118 | Success is the latest live version of every pulled document in identifier order, at most 1000 documents; the encoding fits the page limit if and only if the bare envelope does, which holds for every identifier that a message can carry. |

## Left out

- Reconnecting stream: heartbeats, backoff times and the activity monitor are reduced to the choice of when an attempt fails.
- Reconnecting stream: the server answers each subscribe once and in order, and deliveries carry only their generation.
- Reconnecting stream: a link is modelled only for the newest attempt, since older ones can no longer be heard.
- Reconnecting stream: the early context check of Subscribe is covered by the choice of when a caller gives up.
- AuthSchedulerSafety.RateBounded: the token bucket is over real numbers, so float rounding is not captured.
- Replica gateway: subscriptions and pages are numbered records instead of heap objects, and close retires them in order of creation instead of map order.
- Replica gateway: authentication messages, control frames, error codes and the decoding of requests.
- Replica gateway: whether the authentication is current when a page is offered is a choice of the surroundings.
- ChangeSignal.NoLostChange: a flush is taken to report cancellation only when the context of the connection has ended.
- Realtime hub: client lists, replica connection close callbacks and the conversion of events; stream health is a parameter, and permits and timeouts of a cleanup are an outcome choice.
- Values: reading and printing JSON bytes; codec strings are UTF-16 units, and the cycle and prototype checks of the TypeScript encoder are omitted.
- Documents.MatchingTemplates: the ordering of matches by pattern score is omitted, and a template fingerprint is taken as given instead of computed.
- Index store: the B-tree, the Pebble backend, read views and legacy index operations; the store is a value that each batch replaces at once.
- IndexReplay.ReplayConverges: asks for a store without empty posting lists, which the empty store is and every batch keeps.
- Bootstrap: logging; the source is described by what it presents page by page.
- Bootstrap.Builder.Run: other reasons for a refused start (already running, templates unreadable) are one parameter.
- Snapshot: pulls are a finite sequence, and running out of it counts as unavailable.
- SessionController: expiry timers and re-entrant listeners.
- The query engine, CEL rules, identity, triggers, Kubernetes and PostgreSQL storage, the command line and the user interface.
