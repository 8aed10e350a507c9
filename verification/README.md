# The messaging stack, from ratchet to chat history

A model of the messaging stack of this repository and proofs about it, bottom to
top. Each layer's results are what the next one needs.

1. **Double Ratchet** (`RatchetFields`, `Ratchet`, `RatchetSafety`,
   `EvictionOrder`, `TwoParty`, `TwoPartyRuns`). The ratchet as it is updated in
   place, with its bounded map of skipped keys, which keeps the order of insertion
   but for `swap_remove`, and its rollback, follows the specification "The Double
   Ratchet Algorithm" (Signal), sections 2.6 and 3.2 to 3.5. Keys are symbolic
   terms: root, chain and message keys are constructors, so two derivations agree
   only if their inputs do; Diffie-Hellman is commutative; a ciphertext opens only
   under its own key, associated data and header. `EvictionOrder` numbers the
   insertions; `TwoPartyRuns` is about every interleaving of sends and deliveries by
   both ends, of anything the network can produce.
2. **Checkpoints and records** (`Bytes`, `RatchetCheckpoint`, `SessionCheckpoint`,
   `Records`, `Wire`, `RelayProtocol`). Byte layouts, decoding exactly what
   encoding writes.
3. **Conditional commits and the messenger** (`Store`, `Durable`,
   `DurableSession`, `Messenger*`, `PendingLists`). One store map, any number of
   instances, each loading, staging on a copy and committing a checkpoint with its
   side records if everything it checked still holds. A commit ends as kept, not
   kept, unknown but kept, or unknown and lost. `MessengerModel` gives each
   transaction, `MessengerRuns` every run of them, with stale reads;
   `MessengerGuarantees` and `MessengerRecovery` are what holds over all runs;
   `MessengerClass` is the code as methods on a store other connections write,
   each performing at most one such transaction; `MessengerReports` is what their
   answers mean, `MessengerCauses` why they fail.
4. **Relay and network layer** (`Relay`, `RelayLaws`, `FirstContact`, `NetworkRules`,
   `Network`, `Scan`). The relay's mailboxes, the two-pass scan and the processing of
   what it meets, receipts, publishing.
5. **Chat history and end to end** (`Chat`, `ChatHistory`, `Conversation*`,
   `EndToEnd`, `EndToEndRuns`, `Reachable`, `GivenUp`, `GivenUpExactly`). Two
   devices, each with its own store and any number of instances, over a relay that
   may lose, reorder, repeat and forge.

`dafny verify dfyconfig.toml` checks the whole project.

## Reading the results

A run (`MessengerRuns.Run`) is a list of store versions and the transaction
attempted between each two, with the versions its instance had read before. A run
of two devices (`EndToEndRuns.WorldRun`) is one such run on each, step by step; its
network may present anything except a ciphertext under a key of a session between
the two that neither committed, and its network layer acknowledges a message only
on a receipt that lists it, and sends receipts only for messages it read as
accepted. `NetworkLayer` derives that rule from the code, `Conversations` does the
same for the history. `ConversationOutcomes` says what a call that succeeded has
done, over the versions since it began, and `ConversationResults` what that means for
the history at the end of a run.

Every call also says why it failed: its error names what one of its reads showed, at
a version no older than the call (`Within`), or the transaction it attempted and how
that ended. `MessengerCauses`, `NetworkRules` and `ConversationCauses` define these
causes layer by layer; what decides about an envelope is built on them.

Where the documentation and the code disagree, the code is followed; `## Findings`
says where.

## Findings

Claims that the code, followed exactly, does not meet, each with an input and the
exact condition.

- **"The peer did not and will not accept it"** (`crates/mobile-ffi/src/network/chat.rs`,
  line 67, of `NotDelivered`). `GivenUpWitnesses.GivenUpYetHeld` gives a run of both
  devices in which the text given up is acknowledged and held. What the device can
  promise is that no receipt will ever acknowledge it, and
  `NotDeliveredMeans.NotDeliveredExactly` says when: exactly if its send record reads
  abandoned, or it is pending on a session with no generation left and no receipt
  for it was read. The peer is arbitrary there: a continuation is of this device's
  run, with whatever a holder of the session can send. That the peer has not accepted
  it is decided by nothing on the device: `GivenUpWitnesses.NothingHereTells`.
- **Eviction of the oldest skipped key** (`crates/core-crypto/src/ratchet.rs`, lines
  345-346). `swap_remove` moves the last entry into the hole, and eviction drops the
  front. `EvictionOrder.NewestEvicted` gives a run from the constructors in which a
  message is lost for it. In every run eviction is, and stays, of the oldest first
  exactly if each held key used stood last or last but one when it was used:
  `EvictionOrder.OldestFirstExactly`.
- **Recovery of a creation** (`crates/core-protocol/src/messaging.rs`, lines 667-726).
  Unlike a send, a receive or a first message, a creation with unknown outcome can
  take effect and still be answered as having left nothing:
  `MessengerRecovery.CreationCanBeUndone`. It is, exactly if at one of the two
  readings of its handle a deletion was the last event to touch it since:
  `MessengerRecovery.CreationRecoveryExactly`.
- **No session is deleted while a message is pending** rests on local handles that do
  not collide: `MessengerRecovery.OrphanFreeExactly` holds in both directions, with
  `CollisionOrphans` as the run. The results about runs therefore assume that no
  send's two reads of its handle show two peers sharing it (`NoCollision`).

## Model

| member | source | states |
|---|---|---|
| DeliveredEndToEnd.DeliveredIsHeld | crates/mobile-ffi/src/network/chat.rs:894-913 | In every run of two devices over a relay that may lose, reorder, repeat or forge, a text shown as `Delivered` is held by the peer as accepted under that very message, and what the peer lists is word for word the text shown |
| EndToEndRuns.AcknowledgedIsHeld | crates/mobile-ffi/src/network.rs:688-747 | A send record that reads acknowledged (other than a receipt's) names a message the peer's store holds as inbox or seen record, undelivered ones with the plaintext that was sealed |
| EndToEndRuns.AcceptedWasCommitted | crates/core-protocol/src/messaging.rs:481-534 | Whatever one device accepted from the other, the other has on record under a logical id, with the plaintext it encrypted |
| EndToEnd.WorldStep | crates/core-protocol/src/messaging.rs:430-534 | Every transaction of one device keeps the joint invariant of both stores, every session pair and the network |
| DeliveryHappens.DeliveryIsReachable | crates/mobile-ffi/src/network.rs:355-376 | Between any two devices there is a run of both, with the sender's history, in which a text ends as `Delivered`: the end-to-end theorems are about runs that exist |
| Ratchet.DoubleRatchet.Encrypt | crates/core-crypto/src/ratchet.rs:182-198 | Encrypting advances the sending chain by one and leaves a ratchet without a sending chain untouched |
| Ratchet.DoubleRatchet.Decrypt | crates/core-crypto/src/ratchet.rs:212-229 | The in-place decryption computes the specified attempt, and every error, wherever in the mutation it arises, leaves all state exactly as before |
| Ratchet.DoubleRatchet.DecryptInner | crates/core-crypto/src/ratchet.rs:231-265 | The mutating steps before any rollback: held key, skip, DH step, skip, derive, open |
| Ratchet.DoubleRatchet.SkipMessageKeys | crates/core-crypto/src/ratchet.rs:296-314 | Skipping stores one key per position up to the limit and then trims; past the limit it changes nothing |
| Ratchet.DoubleRatchet.TrimSkipped | crates/core-crypto/src/ratchet.rs:345-353 | Trimming drops exactly the front of the current order down to the capacity |
| Ratchet.DoubleRatchet.InitAlice | crates/core-crypto/src/ratchet.rs:117-135 | The initiator starts with a sending chain derived against the responder's signed prekey |
| Ratchet.DoubleRatchet.InitBob | crates/core-crypto/src/ratchet.rs:137-150 | The responder starts with no chain and the X3DH root |
| Ratchet.DoubleRatchet.StagedCopy | crates/core-crypto/src/ratchet/checkpoint.rs:370-383 | A staged copy is equal to, and independent of, the original |
| RatchetFields.Find | crates/core-crypto/src/ratchet.rs:236-240 | A skipped key is found exactly if it is held |
| RatchetSafety.PerformKeepsStructure | crates/core-crypto/src/ratchet/checkpoint.rs:150-191 | Every encryption and decryption, of any input, keeps the structural rules of a stored state |
| RatchetSafety.ReachableIsStructural | crates/core-crypto/src/ratchet/checkpoint.rs:150-191 | Every state reachable from the constructors can be refused by the checkpoint only for an exhausted counter |
| RatchetSafety.ResumableNeverWraps | crates/core-crypto/src/ratchet/checkpoint.rs:102-118 | From an accepted state no encryption and no header make a 32-bit counter wrap |
| RatchetSafety.ReceiveBoundIsExact | crates/core-crypto/src/ratchet/checkpoint.rs:115 | A bound on the receive counter prevents every wrap if and only if it is at most `MAX_RESUMABLE_NR` |
| RatchetSafety.ResumableExactly | crates/core-crypto/src/ratchet/checkpoint.rs:150-191 | A state obeying the structural rules can be stored if and only if its send counter is below the last 32-bit number and its receive counter leaves room for a full skip; otherwise the refusal names the counter at its end |
| RatchetSafety.EncryptStagesExactly | crates/core-protocol/src/durable.rs:714-774 | From a state that can be stored an encryption can be staged if and only if there is a sending chain and its counter does not reach the end; the error says which of the two failed |
| RatchetSafety.DecryptStagesExactly | crates/core-protocol/src/durable.rs:728-774 | From a state that can be stored a decryption that authenticates can be staged if and only if its key was held or the chain it moves stays below the receive bound |
| RatchetSafety.SkipLimitExactly | crates/core-crypto/src/ratchet.rs:296-303 | A chain may be skipped ahead by 1000 messages and no further |
| EvictionOrder.OldestFirstExactly | crates/core-crypto/src/ratchet.rs:345-353 | In every run from a constructor eviction drops the oldest key first, however the run goes on, if and only if every held key used so far stood last or last but one in the map; the first use elsewhere has a continuation, with no further such use, that evicts a newer key before an older one |
| EvictionOrder.FifoExactly | crates/core-crypto/src/ratchet.rs:345-353 | From any state on, eviction is of the oldest first in all continuations that use keys near the end only, if and only if the map is in the order of insertion |
| EvictionOrder.StepNumbers | crates/core-crypto/src/ratchet.rs:231-240 | While the map is in the order of insertion every operation evicts oldest first, and it leaves it in that order if and only if it uses no key but the last two |
| EvictionOrder.FrontAfterUse | crates/core-crypto/src/ratchet.rs:236-240 | After one use at place `i`, the first `k` evicted are those that the order before would give if and only if `k <= i` or the key stood last or last but one |
| EvictionOrder.NewestEvicted | crates/core-crypto/src/ratchet.rs:345-353 | A run from the constructors: of a full store of 2000 keys the responder uses the oldest, and two further skipped keys evict the newest, whose message is lost while the older ones still decrypt |
| TwoParty.DeliverKeeps | crates/core-crypto/src/ratchet.rs:212-265 | Every delivery, genuine, replayed or forged, keeps the invariant of both ends, and a success is the first for its position |
| TwoParty.SendKeeps | crates/core-crypto/src/ratchet.rs:182-198 | Every send keeps the invariant of both ends |
| TwoParty.DecryptIsAuthentic | crates/core-crypto/src/ratchet.rs:231-265 | Whatever header and ciphertext the network presents, a success is the peer's own message at that position, with its plaintext |
| TwoPartyRuns.Agreement | crates/core-crypto/src/ratchet.rs:212-265 | In every reachable session a message the peer sent decrypts, to exactly its plaintext, if and only if it was neither decrypted nor evicted and lies within the skip and counter limits |
| TwoPartyRuns.ChainsAgree | crates/core-crypto/src/ratchet.rs:323-343 | The DH epochs of the two ends differ by exactly one, and a receiving chain is a position on the chain its peer sent under, never past its end |
| TwoPartyRuns.AtMostOnce | crates/core-crypto/src/ratchet.rs:212-265 | Over every run an end accepts each position at most once, whatever the ciphertexts |
| TwoPartyRuns.AcceptedWasSent | crates/core-crypto/src/ratchet.rs:212-265 | Over every run what is accepted was released earlier by the peer under exactly that header, and decrypts to what was encrypted |
| TwoPartyRuns.FirstDelivery | crates/core-crypto/src/ratchet.rs:212-265 | Over every run a delivery of a released message succeeds if and only if no earlier one did, its key was not evicted and it is within the limits; it then gives what was encrypted |
| RatchetCheckpoint.DecodeEncode | crates/core-crypto/src/ratchet/checkpoint.rs:203-252 | Every encodable ratchet decodes from its bytes to itself, skipped keys in order |
| RatchetCheckpoint.EncodeDecode | crates/core-crypto/src/ratchet/checkpoint.rs:267-357 | Every accepted byte string is the encoding of the state it decodes to |
| RatchetCheckpoint.RecordsAreUnique | crates/core-crypto/src/ratchet/checkpoint.rs:267-357 | Two accepted records of one state are equal |
| RatchetCheckpoint.ToCheckpoint | crates/core-crypto/src/ratchet/checkpoint.rs:203-252 | The loop that appends the skipped keys writes the specified encoding, or refuses with the specified reason |
| RatchetCheckpoint.ReadEntries | crates/core-crypto/src/ratchet/checkpoint.rs:320-357 | The loop that inserts the skipped keys reads the specified list and refuses a repeated key |
| SessionCheckpoint.DecodeEncode | crates/core-protocol/src/checkpoint.rs:206-232 | Encoding succeeds if and only if the associated data is the expected one and the ratchet is accepted; the record then decodes, under its own binding, to the session |
| SessionCheckpoint.EncodeDecode | crates/core-protocol/src/checkpoint.rs:240-294 | Every accepted session record re-encodes to itself and is accepted under no other binding |
| SessionCheckpoint.EndsShareAd | crates/core-protocol/src/checkpoint.rs:78-88 | Both ends expect the same associated data, and it determines both identities |
| ConditionalWrites.PredecessorIsExact | crates/core-protocol/src/durable.rs:263-307 | The precondition of a transition holds of exactly one stored record, the one it was staged from |
| ConditionalWrites.FirstConflict | crates/core-protocol/src/durable.rs:188-229 | The conflict reported is the first one in the batch, and none is reported if and only if all preconditions hold |
| ConditionalWrites.BatchIsSimultaneous | crates/core-protocol/src/durable.rs:188-229 | Applying a batch of distinct keys one by one is one simultaneous update, and touches no other key |
| ConditionalWrites.OrderDoesNotMatter | crates/core-protocol/src/durable.rs:188-229 | Two batches with the same writes are kept under the same conditions and leave the same store |
| ConditionalWrites.Batch | crates/core-protocol/src/durable.rs:460-481 | The batch is the session write followed by the side writes, refused exactly if a key is named twice |
| ConditionalWrites.SideWritesSpareSessions | crates/core-protocol/src/durable.rs:442-453 | No side write touches a session record |
| Storage.EncryptedStore.WriteConditional | crates/core-protocol/src/durable.rs:188-229 | The check loop then the apply loop leave all writes or none against the version the transaction found, and report the first conflict |
| DurableSessions.DurableSession.StageEncrypt | crates/core-protocol/src/durable.rs:714-774 | Staging an encryption works on a copy and refuses exactly a state that could not be stored; `RatchetSafety.EncryptStagesExactly` says in counters when that is |
| DurableSessions.DurableSession.StageDecrypt | crates/core-protocol/src/durable.rs:728-774 | Staging a decryption works on a copy and refuses a state that could not be stored |
| DurableSessions.DurableSession.CommitWith | crates/core-protocol/src/durable.rs:794-864 | The staged state is installed and its output released only if the store reports every write committed; an unknown outcome or a conflict blocks the instance |
| DurableSessions.CreateWith | crates/core-protocol/src/durable.rs:585-614 | A new session is stored as generation 0, only if the peer has none |
| DurableSessions.Load | crates/core-protocol/src/durable.rs:621-648 | A session is loaded exactly if a record decodes under the expected binding |
| MessengerCauses.StorableExactly | crates/core-protocol/src/checkpoint.rs:206-232 | A session can be stored if and only if its ratchet obeys the structural rules, its associated data is the expected one and both counters are below their bounds |
| DurableSessions.ProvisionalSession.StageFirstDecrypt | crates/core-protocol/src/durable.rs:907-920 | A candidate can only decrypt a first message, on a copy |
| DurableSessions.ProvisionalSession.PromoteWith | crates/core-protocol/src/durable.rs:922-969 | A candidate is stored at generation 1 by the message that authenticated, only if the peer has no session record |
| Messaging.Messenger.RequirePeer | crates/core-protocol/src/messaging.rs:739-746 | A handle names a peer exactly if its record does |
| Messaging.Messenger.LoadSession | crates/core-protocol/src/messaging.rs:748-766 | The session under a handle is loaded from the record of the peer the handle named; an error says what of the two reads was missing, unreadable or not a session of this pair |
| Messaging.Messenger.ReadPriorSend | crates/core-protocol/src/messaging/helpers.rs:83-109 | What an earlier send of the same logical message committed, both records read in one transaction |
| Messaging.Messenger.Send | crates/core-protocol/src/messaging.rs:430-475 | A send performs at most one transaction, a step of a run attempted on its earlier reads; it releases the message if and only if the commit fired and was kept for sure, a repeated send encrypts nothing and reports the records, and every error has its cause in what was read since the call began or in its own commit: a ratchet failure a stored session without a sending chain or at the end of its counter |
| Messaging.Messenger.ReadDuplicate | crates/core-protocol/src/messaging/helpers.rs:41-74 | A message reported as a duplicate has its inbox or seen record in some version |
| Messaging.Messenger.Receive | crates/core-protocol/src/messaging.rs:481-534 | A receive performs at most one transaction; every success means that the peer's records hold the message at some version; every error has its cause in what was read since the call began or in its own commit: a ratchet failure a stored session on which staging this very wire fails, exhaustion a session at its last generation |
| Messaging.Messenger.AcknowledgeOutgoing | crates/core-protocol/src/messaging.rs:579-596 | Removes a pending message of the handle's peer in one transaction; a success means the message is in its outbox no longer, an error names the record that could not be read or the commit that failed |
| Messaging.Messenger.AbandonOutgoing | crates/core-protocol/src/messaging/removal.rs:22-44 | Empties the outbox entry and records the logical id as abandoned, in one transaction; an error names the record that could not be read or the commit that failed |
| Messaging.Messenger.AcknowledgeIncoming | crates/core-protocol/src/messaging.rs:623-652 | Replaces the inbox record of the handle's peer by the seen record in one transaction; repeating it is harmless, success means the seen record stands, and an unknown message is one that neither record knows |
| Messaging.Messenger.RemoveSession | crates/core-protocol/src/messaging/removal.rs:67-105 | A session is deleted only if it was unestablished, had nothing pending when listed, and is still the record that was read; each refusal says which of these was found otherwise |
| Messaging.Messenger.CreateSession | crates/core-protocol/src/messaging.rs:96-172 | A creation takes effect exactly if session, handle and handshake are all absent; every error is its commit's or names what took the slot |
| Messaging.Messenger.AcceptFirstMessage | crates/core-protocol/src/messaging.rs:276-380 | A first message either creates the session in one transaction, or is received on the session that exists by then; every success means the message is held; a prekey refusal means prekeys were held that cannot answer the handshake while the peer had no session, a ratchet failure that the wire does not open on what the handshake derives, or on the session that stood instead |
| Messaging.Messenger.RecordProvisionalHandshake | crates/core-protocol/src/messaging.rs:197-241 | A handshake is recorded only while the peer has no session and the handle is free, or by retiring a legacy session; each refusal says what stood in the way |
| Messaging.Messenger.RetireLegacy | crates/core-protocol/src/messaging/legacy.rs:74-158 | A legacy session is retired only while it, its handle and the prekey record are what was read and nothing is pending or undelivered |
| Messaging.Messenger.ReadRetiredSince | crates/core-protocol/src/messaging/legacy.rs:171-199 | One read shows the session, its handle and every artifact gone and a handshake of that peer recorded |
| Messaging.Messenger.Recover | crates/core-protocol/src/messaging.rs:667-726 | Recovery reads the artifacts in order, then the session, answers that nothing was committed only on the readings the recovery theorems are about, reports the generation stored, and fails only for a record that could not be read or a legacy session not shown retired |
| PendingLists.ListIncoming | crates/core-protocol/src/messaging.rs:602-615 | Every message listed in the inbox of the handle's peer is returned once, as its own read showed it, oldest generation first; a failure means the handle or a row that was listed could not be read |
| PendingLists.ListOutgoing | crates/core-protocol/src/messaging.rs:538-551 | Every message listed in the outbox of the handle's peer is returned once, as its own read showed it, oldest generation first; a failure means the handle or a row that was listed could not be read |
| MessengerBatches.SendBatch | crates/core-protocol/src/messaging.rs:452-470 | The batch a send hands to the store is exactly the send transaction: kept under the same conditions, with the same effect |
| MessengerBatches.ReceiveBatch | crates/core-protocol/src/messaging.rs:505-525 | The batch of a receive is exactly the receive transaction |
| MessengerBatches.CreateBatch | crates/core-protocol/src/messaging.rs:120-150 | The batch of a creation is exactly the creation transaction |
| MessengerBatches.AcceptBatch | crates/core-protocol/src/messaging.rs:310-350 | The batch of a first message, with the prekey rotation, is exactly the acceptance transaction |
| MessengerRuns.RunKeepsInv | crates/core-protocol/src/messaging.rs:96-652 | Over every run of any number of instances, with stale reads, faults and lost outcomes, every version satisfies the store invariant |
| MessengerRuns.Unbroken | crates/core-protocol/src/durable.rs:794-864 | A session record, once replaced, never comes back: between two versions that hold it, every version does |
| MessengerGuarantees.OneSuccessor | crates/core-protocol/src/durable.rs:736-864 | Across instances, reloads, unknown outcomes, removals and re-creations at most one transition is ever committed from each stored session record |
| MessengerGuarantees.PositionsNeverShared | crates/core-protocol/src/durable.rs:736-864 | Committed ciphertexts to one peer never share a position of a chain |
| MessengerGuarantees.OutboxWasCommitted | crates/core-protocol/src/messaging.rs:430-475 | Whatever an instance can read from the outbox, and so transmit, was committed by a send |
| MessengerGuarantees.EstablishedForever | crates/core-protocol/src/messaging/removal.rs:67-105 | Once a session has a receiving chain no step of any instance deletes it, and it is rewritten only at the next generation |
| MessengerGuarantees.NothingOrphaned | crates/core-protocol/src/messaging/removal.rs:67-105 | No session is missing while a pending, undelivered or seen record of its peer exists; handle and session records are one-to-one |
| MessengerGuarantees.StatusIsSound | crates/core-protocol/src/messaging/helpers.rs:83-109 | In every sound store the status of a logical message is readable, and a pending one is filed under its own logical id and digest |
| MessengerGuarantees.StatusOnlyMovesForward | crates/core-protocol/src/messaging/helpers.rs:83-109 | A logical message keeps its id and, while pending, its bytes, and leaves pending at most once, to acknowledged or abandoned, forever |
| MessengerGuarantees.SentAtMostOnce | crates/core-protocol/src/messaging.rs:430-475 | Each logical message is encrypted and committed at most once |
| MessengerGuarantees.BindingStays | crates/core-protocol/src/messaging.rs:430-475 | A logical id, once bound to a message, is bound to it forever |
| MessengerGuarantees.AcceptedForever | crates/core-protocol/src/messaging.rs:481-652 | From acceptance on exactly one of the inbox and seen records exists, and a seen message stays seen |
| MessengerGuarantees.AcceptedAtMostOnce | crates/core-protocol/src/messaging.rs:481-534 | For each message of a peer at most one acceptance is ever committed |
| MessengerGuarantees.ListedUntilAcknowledged | crates/core-protocol/src/messaging.rs:602-652 | A committed plaintext stays listed, unchanged, until an acknowledgement of it commits |
| MessengerRecovery.RecoveryIsSound | crates/core-protocol/src/messaging.rs:667-726 | If recovery answers that a send, receive or first message left nothing, it never took effect, whatever other instances did between its separate reads |
| MessengerRecovery.LostOrRemoved | crates/core-protocol/src/messaging.rs:667-726 | A creation that took effect and left no handle at some later version was removed in between, for that very peer |
| MessengerRecovery.HandleExactly | crates/core-protocol/src/messaging/removal.rs:67-105 | Over every run the last event to touch a handle decides whether it is stored; if none does, nothing changed |
| MessengerRecovery.CreationRecoveryExactly | crates/core-protocol/src/messaging.rs:667-726 | Of a creation that took effect recovery answers, wrongly, that it left nothing if and only if at one of its two readings of the handle a deletion was the last event since to touch it |
| MessengerRecovery.CreationCanBeUndone | crates/core-protocol/src/messaging.rs:667-726 | A run in which that happens: a creation with unknown outcome takes effect, and another instance removes it |
| MessengerRecovery.AnswerableExactly | crates/mobile-ffi/src/lib.rs:885-900 | A handshake can be answered if and only if the prekeys held are exactly those it names |
| MessengerRecovery.AcceptanceIsAuthentic | crates/mobile-ffi/src/lib.rs:910-988 | A session is created only by a message sealed under a key of exactly the X3DH secret the recorded handshake derives |
| MessengerRecovery.StepPrekeys | crates/mobile-ffi/src/lib.rs:683-705 | The prekey record changes only by rotation or by an acceptance that used its one-time prekey; a refused attempt leaves it unchanged |
| MessengerRecovery.OneTimePrekeyUsedOnce | crates/mobile-ffi/src/lib.rs:910-988 | No one-time prekey is used by two created sessions, under any interleaving with rotation and other instances |
| MessengerRecovery.OrphanFreeExactly | crates/mobile-ffi/src/network.rs:117 | Pending messages keep their session in every run if and only if no two peers share a local handle |
| FirstContact.HandshakeStays | crates/core-protocol/src/messaging.rs:96-172 | In every run a handshake is stored only beside the session it started, which descends from the very X3DH secret it names |
| FirstContact.AnsweredExactly | crates/mobile-ffi/src/lib.rs:885-900 | At every version of every run the prekeys that can answer the handshake stored for a peer are exactly those from which the peer derives the secret our session descends from |
| NetworkLayer.NetworkMessenger.Settle | crates/mobile-ffi/src/network.rs:688-724 | A success means that a text or an opening has its receipt on record for the handle's peer, that everything a receipt lists left the outbox, and that all but a text are marked read, in that order; an error is that of the first of these that failed; every step keeps the rule of the end-to-end theorem |
| NetworkLayer.NetworkMessenger.SettleInbox | crates/mobile-ffi/src/network.rs:666-671 | A success means everything one listing of the inbox showed is settled in this sense, oldest first; an error is the listing's or that of one message read there |
| NetworkLayer.NetworkMessenger.ReceiptAgain | crates/mobile-ffi/src/network.rs:737-747 | A success means the first receipt is on record and, if it was found to have left, the minute's further one too; a further one is committed only if the first had left; an error is that of one of the two sends |
| NetworkLayer.NetworkMessenger.CommitReceipt | crates/mobile-ffi/src/network.rs:726-732 | A success means the answer is what the records say of the receipt under its own id; an error has a cause of a send |
| NetworkLayer.NetworkMessenger.AcknowledgeListed | crates/mobile-ffi/src/network.rs:705-710 | A success means every message the receipt lists left the outbox of the handle's peer; an error is that of one of them |
| NetworkLayer.NetworkMessenger.PublishHandshake | crates/mobile-ffi/src/network.rs:506-519 | The handshake stored with a session is handed over exactly if the session was shown unconfirmed, the handshake is due and the relay takes it; an error says what could not be read, or that the relay refused |
| NetworkLayer.NetworkMessenger.PublishOne | crates/mobile-ffi/src/network.rs:520-535 | A message is handed over exactly if it is due and the relay takes it, and is then marked; a receipt of our own is then cleared from the outbox |
| NetworkLayer.NetworkMessenger.PublishPending | crates/mobile-ffi/src/network.rs:499-539 | A success means that every message one listing of the peer's outbox showed, and that was due, was handed over and marked as sent now, that each own receipt among them left the outbox, and that no handshake was due or it was handed over; nothing else is marked or handed over; an error is a read's, a receipt's, or the relay's refusal of something due |
| NetworkLayer.NetworkMessenger.ReceiveCommitted | crates/mobile-ffi/src/messaging_api.rs:231-259 | Every success means the peer's records hold the message; an error is that of a receive on the session under the handle; or, while there is none, of the first message of the handshake recorded under it, or that there is no session where none was recorded |
| NetworkRules.HopelessIsCaused | crates/mobile-ffi/src/network.rs:635-654 | An error for which a message is dropped has its cause in the records since the call began: a session at its last generation, one on which this wire does not stage, a recorded handshake whose candidate it does not open on, or one the prekeys held could not answer, or no more |
| NetworkRules.EarlyMessageIsKept | crates/mobile-ffi/src/network.rs:634 | While neither a session nor a handshake is stored under the handle, receiving a message answers that there is no session, or that an earlier commit is unresolved; neither drops it |
| NetworkLayer.NetworkMessenger.ProcessMessage | crates/mobile-ffi/src/network.rs:609-661 | A message envelope is dropped only once the store holds its message and it was acted on, or, for four errors, with their cause in the records; it is kept for any other error, with its cause, an unresolved session being recovered first; the round ends only for a handle that cannot be read, a failed recovery or a failed settling |
| NetworkLayer.NetworkMessenger.ProcessHandshake | crates/mobile-ffi/src/network.rs:556-608 | A handshake envelope is dropped only if it is not the sender's own; or a session stands that is not a legacy one, with the conflict reported exactly as the records show it; or it is recorded, in place of nothing or a legacy session; or it is refused for good, for what the records show; it is kept for seven errors with their cause, and the round ends only for what cannot be read |
| NetworkLayer.NetworkMessenger.EstablishResponder | crates/mobile-ffi/src/lib.rs:854-880 | A handshake that is accepted is one the prekeys held can answer, and is recorded; a refusal names the prekeys that cannot, or what stood in the way of recording it |
| NetworkLayer.NetworkMessenger.IsLegacy | crates/core-protocol/src/messaging/legacy.rs:42-57 | A session is a legacy one exactly as its stored state says; an absent, missing or invalid session is not one and no error; an error is a record that could not be read |
| NetworkLayer.NetworkMessenger.BothInitiated | crates/mobile-ffi/src/network.rs:576-580 | Both sides started a session exactly if ours was shown unconfirmed with the handshake it was started with |
| NetworkLayer.NetworkMessenger.Process | crates/mobile-ffi/src/network.rs:543-662 | Whatever is decided about an envelope, dropping it, keeping it or ending the round for it has the cause stated |
| NetworkRules.RunsAreConsistent | crates/mobile-ffi/src/network.rs:117 | In every run the rows of a peer name themselves and its handle names nobody else, if no other peer shares the handle |
| MailboxScan.ScanPage | crates/mobile-ffi/src/network.rs:405-450 | One page: items are consumed in order, every selected envelope is processed as it is met with a decision that is warranted, until the bound, the limit, a page out of order or an envelope whose processing ended the round |
| MailboxScan.Scan | crates/mobile-ffi/src/network.rs:395-466 | A pass stays within `MAX_SCAN_PAGES` pages, deletes exactly what it decided to, aborts only for an envelope the relay sent whose processing ended the round, blames the relay only for a page no honest one sends, and against this relay consumes every entry of its start still stored when read |
| MailboxScan.SyncRound | crates/mobile-ffi/src/network.rs:355-376 | Against this relay a round that does not abort handles every envelope present at its start and still stored when read: all handshakes in the first pass, everything else in the second, which is made whenever the first consumed anything |
| MailboxScan.DeletesExactly | crates/mobile-ffi/src/network.rs:395-466 | What a pass deletes is exactly what it selected and decided to discard, nothing twice |
| MailboxScan.NothingLost | crates/mobile-ffi/src/network.rs:543-662 | Whatever a round has the relay delete did not decode or was dropped for a reason that holds: a message only if the store holds it and it was acted on, its sender is no contact, or one of the causes nothing can ever come of is in the records |
| MailboxScan.AllProcessed | crates/mobile-ffi/src/network.rs:418-450 | Every handshake a first pass consumed, and every message a second one did, was processed, its decision is warranted, and it is deleted exactly if that was to drop it; what does not decode is deleted |
| MailboxScan.RelayIsHonest | crates/relay/src/server.rs:195-218 | The pages of this relay, at whatever later versions they are fetched, are what the coverage of a scan relies on |
| RelayModel.HandleKeepsSound | crates/relay/src/server.rs:224-329 | Every request keeps every mailbox ascending, without repeated envelopes, within capacity, and all numbers distinct across mailboxes and below the next |
| RelayModel.RunIsSound | crates/relay/src/server.rs:224-329 | Every state of every run of the relay is sound |
| RelayModel.FetchReturnsRun | crates/relay/src/server.rs:195-218 | A fetch answers with the ascending run of live entries after the cursor, within one frame, and with at least `min(max, MIN_PAGE)` of them while more follow |
| RelayModel.NumbersNeverReused | crates/relay/src/server.rs:252-285 | Over every run two accepted sends that report one number were of the same envelope to the same recipient |
| RelayModel.NumbersNeverWrap | crates/relay/src/server.rs:252-285 | The next number only grows by one, and at the last one the relay stores nothing more |
| RelayModel.OldOrNewer | crates/relay/src/server.rs:224-329 | Whatever a mailbox holds later it held before, or got a later number |
| RelayLaws.DeleteExactly | crates/relay/src/server.rs:315-329 | A delete leaves exactly the entries of that mailbox it does not name, in order, and nothing else changes |
| RelayLaws.FetchExactly | crates/relay/src/server.rs:195-218 | A fetch drops exactly what expired and answers with the entries after the cursor, none left out, until as many as asked for, the end of the mailbox, or the frame |
| RelayLaws.SendExactly | crates/relay/src/server.rs:252-292 | A send is refused for its size or for want of room, answers a repetition with its number, or appends the envelope under the next number, after dropping exactly what expired |
| RelayLaws.BundleExactly | crates/relay/src/server.rs:233-251 | A stored bundle is what the owner's next requester gets, and nobody else's changes |
| RelayLaws.StoredUntilDeleted | crates/relay/src/server.rs:224-329 | Over every run an entry is still in its mailbox if and only if no request since named it for deletion or found it expired |
| RelayLaws.BundleIsTheLast | crates/relay/src/server.rs:233-251 | Over every run a requested bundle is the last one its owner stored |
| RelayServer.Relay.HandleRequest | crates/relay/src/server.rs:224-329 | The request handler that updates the maps in place computes the specified state and response and keeps the invariant |
| RelayServer.Relay.TakePage | crates/relay/src/server.rs:195-218 | The loop that accumulates the response size stops exactly at the frame limit or the count asked for |
| RelayServer.Relay.Store | crates/relay/src/server.rs:252-300 | A send sweeps expired entries, finds an identical envelope, refuses at capacity or at the last number, or appends |
| RelayProtocol.RequestRoundTrip | crates/relay/src/protocol.rs:194-274 | A request decodes to itself if and only if it fits its length fields |
| RelayProtocol.RequestBytes | crates/relay/src/protocol.rs:241-274 | Every accepted request body re-encodes to itself |
| RelayProtocol.ResponseRoundTrip | crates/relay/src/protocol.rs:276-336 | A response decodes to itself if and only if it can answer the request and fits its 16- and 32-bit lengths |
| RelayProtocol.ResponseBytes | crates/relay/src/protocol.rs:308-336 | Every accepted response body is the encoding of a response that can answer the request |
| RelayProtocol.ReadRequest | crates/relay/src/protocol.rs:241-274 | The cursor that shrinks its slice reads exactly the specified request and consumes all input |
| RelayProtocol.ReadResponse | crates/relay/src/protocol.rs:308-336 | The cursor reads exactly the specified response and consumes all input |
| RelayProtocol.WriteRequest | crates/relay/src/protocol.rs:194-240 | The buffer the encoder grows is the specified encoding |
| RelayProtocol.WriteResponse | crates/relay/src/protocol.rs:276-307 | The buffer the encoder grows is the specified encoding |
| WireCodec.EnvelopeRoundTrip | crates/mobile-ffi/src/network/wire.rs:50-86 | Every envelope decodes to itself |
| WireCodec.EnvelopeBytes | crates/mobile-ffi/src/network/wire.rs:69-86 | Every accepted envelope re-encodes to itself |
| WireCodec.PayloadRoundTrip | crates/mobile-ffi/src/network/wire.rs:108-145 | A payload decodes to itself if and only if it is no receipt or lists 1 to 256 messages |
| WireCodec.PayloadBytes | crates/mobile-ffi/src/network/wire.rs:120-145 | Every accepted payload re-encodes to itself |
| WireCodec.ClientIdsAreDistinct | crates/mobile-ffi/src/network/wire.rs:150-175 | Text, receipt and opening ids never collide, and each names its own subject and round |
| RecordCodec.TaggedRoundTrip | crates/core-protocol/src/messaging/records.rs:214-233 | A handle, sent, abandoned or seen record is read back under its own magic and under no other |
| RecordCodec.TaggedBytes | crates/core-protocol/src/messaging/records.rs:223-233 | Every accepted record of this layout re-encodes to itself |
| RecordCodec.ProvisionalRoundTrip | crates/core-protocol/src/messaging/records.rs:102-131 | A recorded handshake encodes, and decodes to itself, if and only if it has 1 to 1024 bytes |
| RecordCodec.ProvisionalBytes | crates/core-protocol/src/messaging/records.rs:117-131 | Every accepted provisional record re-encodes to itself |
| RecordCodec.OutboxRoundTrip | crates/core-protocol/src/messaging/records.rs:134-176 | An outbox record decodes to itself if and only if its client id and lengths are within bounds and it is filed under its message's digest |
| RecordCodec.OutboxBytes | crates/core-protocol/src/messaging/records.rs:153-176 | Every accepted outbox record is within those bounds and re-encodes to itself |
| RecordCodec.InboxRoundTrip | crates/core-protocol/src/messaging/records.rs:181-212 | An inbox record decodes to itself if and only if its length fits 32 bits |
| RecordCodec.InboxBytes | crates/core-protocol/src/messaging/records.rs:196-212 | Every accepted inbox record re-encodes to itself |
| FirstContactCodec.PackPrekeys | crates/mobile-ffi/src/lib.rs:380-392 | The buffer filled in place is the specified prekey record, zeros where the one-time prekey is absent |
| FirstContactCodec.PackBundle | crates/mobile-ffi/src/lib.rs:443-465 | The buffer filled in place is the specified bundle |
| FirstContactCodec.PackHandshake | crates/mobile-ffi/src/lib.rs:530-548 | The buffer filled in place is the specified handshake |
| FirstContactCodec.PrekeysRoundTrip | crates/mobile-ffi/src/lib.rs:380-433 | Every prekey record unpacks to itself |
| FirstContactCodec.PrekeysBytes | crates/mobile-ffi/src/lib.rs:394-433 | Every accepted prekey record repacks to itself |
| FirstContactCodec.BundleRoundTrip | crates/mobile-ffi/src/lib.rs:443-518 | A bundle unpacks to itself exactly if its signing key is a key, and is refused for that otherwise |
| FirstContactCodec.BundleBytesBack | crates/mobile-ffi/src/lib.rs:467-518 | Every accepted bundle repacks to itself, so nothing rides along in absent fields |
| FirstContactCodec.HandshakeRoundTrip | crates/mobile-ffi/src/lib.rs:530-588 | Every handshake unpacks to itself |
| FirstContactCodec.HandshakeBytesBack | crates/mobile-ffi/src/lib.rs:550-588 | Every accepted handshake repacks to itself |
| ChatModel.ApplyKeepsConsistent | crates/mobile-ffi/src/network/chat.rs:752-836 | Every chat transaction keeps the numbering 1 to last, one entry per logical text and per received message, and one owner per application id |
| ChatModel.ApplyGrows | crates/mobile-ffi/src/network/chat.rs:752-786 | No transaction drops or renumbers an entry, and states only climb the forward order |
| ChatRuns.HistoryIsConsistent | crates/mobile-ffi/src/network/chat.rs:458-517 | In every interleaving with the messenger the records of a conversation are consistent |
| ChatRuns.HistoryOnlyGrows | crates/mobile-ffi/src/network/chat.rs:742-786 | Over every run entries keep number, text and owner, and their states only climb |
| ChatRuns.HistoryAgrees | crates/mobile-ffi/src/network/chat.rs:840-922 | Over every run an entry's message is the one its application id is bound to, `Delivered` is an acknowledged message, and a text is on record only for its entry, word for word, or under a claim |
| ChatRuns.DeliveredIsAcknowledged | crates/mobile-ffi/src/network/chat.rs:894-913 | A `Delivered` entry's send record names the entry's message and reads acknowledged |
| ChatRuns.SentAsShown | crates/mobile-ffi/src/network/chat.rs:871-885 | Any message on record for an entry holds exactly the entry's text |
| ChatHistory.History.QueueText | crates/mobile-ffi/src/network/chat.rs:482-514 | A text is recorded once under its application id; an id `send_text` took is refused |
| ChatHistory.History.ClaimForSendText | crates/mobile-ffi/src/network/chat.rs:825-836 | An application id is claimed exactly if the history does not have it |
| ChatHistory.History.RecordReceived | crates/mobile-ffi/src/network/chat.rs:790-821 | A received text is recorded once, with its index |
| ChatHistory.History.AdvanceEntry | crates/mobile-ffi/src/network/chat.rs:752-786 | An entry moves to the state asked for if that is forward, never back, takes a message id only if it has none, and no other entry changes |
| Conversations.Conversation.ChatSend | crates/mobile-ffi/src/network/chat.rs:458-517 | Success means the history has a text under the application id, was then brought up to date, and the answer is that entry as read afterwards; every transaction of the call is a justified step; an error says that the id or text is out of bounds, that `send_text` has the id, or which record or commit of the call failed |
| Conversations.Conversation.SendText | crates/mobile-ffi/src/network.rs:214-229 | Success means the id is claimed outside the history and the answer is what the send records say of it; an error says that the history has the id, or is that of the claim's commit or of this text's send |
| Conversations.Conversation.Refresh | crates/mobile-ffi/src/network/chat.rs:840-922 | Success means that every text the inbox listed was recorded and then marked read, that every queued text was sent and its entry advanced unless there is no session or a legacy one, and that every entry in flight was compared; every transaction is a justified step; an error has its cause in a record read or a commit attempted by the call, and there being no session is one only if one was seen first |
| Conversations.Conversation.SendQueued | crates/mobile-ffi/src/network/chat.rs:872-885 | Success means the queued text was sent under its application id and its entry advanced to exactly what the send records say that came to |
| Conversations.Conversation.CompareRecord | crates/mobile-ffi/src/network/chat.rs:894-917 | Success means that an entry whose message left the outbox was advanced if and as its send record, for that very message, says, and one the relay took to `Transmitted` |
| Conversations.Conversation.ResolveConflict | crates/mobile-ffi/src/network/chat.rs:536-579 | Refused without a conflict and on the device with the smaller identity; success means there is no session, or the peer confirmed it, or every text in flight was given up, then everything in the outbox abandoned, then the session removed, each a logged step; any other error has its cause in a record read or a commit attempted by the call |
| Conversations.Conversation.RecordInbox | crates/mobile-ffi/src/network/chat.rs:847-854 | Success means every text the inbox listed has its entry before it is marked read |
| ConversationResults.NothingLeftQueued | crates/mobile-ffi/src/network/chat.rs:866-886 | In every run, once a refresh succeeded no text that was in the history before is still queued, unless there was no session or a legacy one |
| ConversationResults.ClosedIsShown | crates/mobile-ffi/src/network/chat.rs:894-913 | In every run, once a refresh succeeded an own text whose message had been acknowledged before reads delivered, unless it was given up, and one whose message had been abandoned reads not delivered |
| ConversationResults.InboxIsInHistory | crates/mobile-ffi/src/network/chat.rs:847-854 | In every run, once a refresh succeeded everything its inbox listed, if a text, is in the history as received under its own message id |
| ConversationResults.ChatSendAnswersItsText | crates/mobile-ffi/src/network/chat.rs:458-517 | In every run the entry a call answers with is the application's own, with the text of this call unless an earlier one recorded another under the id |
| ConversationResults.NothingLeftInFlight | crates/mobile-ffi/src/network/chat.rs:545-570 | In every run, once a conflict is resolved every text that was in flight reads not delivered or delivered, unless there was no session or the peer confirmed it |
| ConversationSteps.RunsAreRegular | crates/mobile-ffi/src/network/chat.rs:840-922 | In every run the records are as the conversation's steps rely on |
| GivenUpWitnesses.GivenUpYetHeld | crates/mobile-ffi/src/network/chat.rs:65-67 | A run of two devices, every step of which the network layer takes, in which a text shown as `NotDelivered` is acknowledged by a receipt and held by the peer |
| GivenUpWitnesses.NothingHereTells | crates/mobile-ffi/src/network/chat.rs:65-67 | Two runs of two devices with one and the same run of the sender, whose text is abandoned and shown as `NotDelivered`: in one the peer holds it, in the other not |
| NotDeliveredMeans.NotDeliveredExactly | crates/mobile-ffi/src/network/chat.rs:556-570 | A text shown as `NotDelivered` is acknowledged in no continuation if and only if its record reads abandoned, or it is pending, its session has no generation left and no receipt for it was read |
| NotDeliveredMeans.AcknowledgeableExactly | crates/mobile-ffi/src/network/chat.rs:894-913 | The same for every own entry past `Queued`, whatever it shows: some continuation acknowledges it if and only if its record is still open |
| StillAcknowledged.Acknowledgeable | crates/mobile-ffi/src/network.rs:705-714 | While a message is open, a continuation exists, every step of which keeps the network layer's rule, in which a receipt of the peer arrives and acknowledges it |
| StillAcknowledged.ClosedForever | crates/core-protocol/src/messaging/removal.rs:22-44 | An abandoned message stays abandoned; one pending on an exhausted session without a receipt is never acknowledged |

## Left out

- Cryptographic primitives: X25519, Ed25519, HKDF, HMAC, SHA-256 and XChaCha20-Poly1305 are symbolic terms and injective functions; a message id is its message and a record's digest is the record.
- X3DH (specified in Signal's "The X3DH Key Agreement Protocol"): both sides derive one secret, a term of the identities, the ephemeral key and the prekeys; the checks of the bundle's signature are not part of this model.
- Random keys and nonces: a fresh key is named by a number nobody used before, a nonce is a parameter.
- The ratchet header's own 40-byte encoding and a wire too short to hold one: a malformed wire is a ciphertext that opens under no key.
- `aead_encrypt` failing on an oversized plaintext.
- Zeroization, drop timing, `probe.rs` and crash points: memory lifetime is not visible here.
- SQLite, key-name hashing and the rollback of a failed transaction: the store is an atomic map with the four outcomes of a commit, and rows it cannot authenticate appear as unreadable.
- `EncryptedStore::put` outside these modules, and a database file replaced by an older copy.
- Store key names as strings: a key is a constructor, so two keys are equal exactly if their parts are.
- Local handles as 64-bit values: a handle is a natural number, with any collisions.
- MessengerRuns.RunKeepsInv: assumes `NoCollision`, as all results about runs do, because the claim is false otherwise (see Findings).
- EndToEndRuns.AcknowledgedIsHeld: the two devices start as strangers, so no legacy session exists between them, and only sends made by the network layer carry receipt payloads.
- Messaging.Messenger.RemoveSession: its step is a step of a run only if the handle it was called with is the peer's own, which it is where handles are not shared.
- Messaging.Messenger.CreateSession: creates initiator sessions only; a responder session is created from a first message.
- Messaging.Messenger.RetireLegacy: the record it validates against is the prekey record, the only one any caller passes.
- Freshness of key names: the methods' steps are steps of a run up to the names of the keys they draw, which `MessengerRuns.IsRun` assumes to be new.
- NotDeliveredMeans.NotDeliveredExactly: continuations are those of one device; that a particular peer, which may have evicted the key, sends the receipt is not part of it.
- NetworkLayer.NetworkMessenger.PublishPending: what the relay takes is a parameter, a predicate on what is handed over.
- Conversations.Conversation.Refresh: does not count what waits or was committed; does not say which of the records it reads failed, only that one did; an error of a commit to the history is known by a count of such commits.
- NetworkLayer.NetworkMessenger.ProcessHandshake: the conflict and refusal flags of a conversation are the reasons it returns; where they are stored is not modelled.
- Conversations.Conversation.ResolveConflict: the conflict flag is a parameter; the flags, notes, names and seen marks of a conversation are not modelled.
- RelayModel.HandleKeepsSound: time to live is a parameter, the clock the caller's; the relay's 16-bit count of a delete request is written as the encoder truncates it.
- Starting sessions over the network, publishing bundles, contact cards and their pinning: a contact is a predicate on identities.
- `sync_conversations`: a sequence of the operations modelled here.
- Generations and history numbers at the end of their 64 bits: a session's generation is bounded and refused as in the source, a history number is unbounded.
- TCP, frames, threads, timeouts, logging, Tor, the relay's command line, UniFFI and the Android and Python programs.
- The hybrid KEM, rescue, contact hashing, the session manager, the Solana program and the PSI circuit: not part of the stack modelled.
