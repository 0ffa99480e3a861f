# Yakr pairwise delivery, in Dafny

Yakr delivers text between two paired people through untrusted relays: an X25519 double
ratchet, a session layer that accepts messages strictly in order, a fetch loop that drains
relay mailboxes to a fixpoint, a local store that survives crashes, and a queue of delivery
receipts. The guarantees belong to whole runs of the two devices. This project models those
parts and proves them.

Cryptography is symbolic: keys are names, every derivation is a free constructor, and a box
opens only under the key and associated data it was sealed with. The network is adversarial:
it may present anything whose ciphertext one of the two sealed, under any header, in any order
and as often as it likes, and anything sealed under a key neither derived.

## How the files fit together

- `Crypto`, `Message`: symbolic terms, messages and payloads.
- `Ratchet`, `Session`: the two layers as functions on their saved state. `RatchetState`,
  `SessionObject`: the same as objects updated in place, each method proved equal to its function;
  the table of stored keys is an object of its own, which a snapshot shares. `RustSession`: the same
  gate over snapshots that are clones. `SkippedKeys`, `Opening`: what one ratchet state opens, and
  what an attempt leaves behind.
- `KeySchedule`, `Log`, `TwoParty`: two contacts and the network as a transition system, the
  key schedule the two ratchets walk, and the invariant relating them. `Acceptance`: which
  blobs a side accepts. `Preservation`: every step keeps the invariant. `Runs`, `KeyUse`,
  `Stalls`, `Floods`: guarantees over whole runs, and what shuts a direction for good.
  `Orderly`: what acceptance comes to when every message arrives in its turn.
- `Gate`: exactly what a session accepts and seals, by the message and the record alone. `Receipts`:
  what a fetch's receipts say and what becomes of them.
- `Pairing`, `PairingObject`, `TranscriptBytes`: the handshake that creates the invariant. `Masters`:
  what its master secrets depend on.
  `Static`: contacts added from public bundles instead.
- `LocalStore`, `Delivery`, `DeliverySteps`, `DeliveryRuns`, `Outbox`: durable tables, crashes between any
  two durable steps, and the delivery guarantees that survive them.
- `Fetch`, `Reach`, `Hearing`, `Draining`, `Lookback`: what a fetch collects. `Overflow`, `Crowding`,
  `Reversed`: what it loses when the table of stored keys has no room. `Exactness`: exactly how much
  room that is. `FetchLoop`: the loop itself, over the
  session and store objects. `FetchEvents`: a fetch is a run of delivery events. `FlushRewind`:
  sequence numbers spent by receipts.
- `Capability`, `Blobs`, `Rendezvous`: the relay's grant registry, blob table and pairing mailbox.
- `Padding`, `Bytes`: privacy size classes.

The chain of results is: pairing establishes the invariant (`Pairing.PairingEstablishes`), every
step keeps it (`Preservation.StepKeepsInv`), devices that crash and recover refine those steps
(`DeliverySteps.EventRefines`), the fetch loop is made of those events
(`FetchEvents.DrainIsARun`), and so a text leaves the sender's outbox only if the peer has stored
it (`DeliveryRuns.NoFalseDelivery`).

## Where the code does less than its documentation says

- A failed, early or rolled-back decrypt does not leave the Python ratchet as it was. The snapshot
  names the live dictionary of stored keys (`packages/yakr-core/src/yakr_core/ratchet.py:115`), the
  attempt changes that dictionary (`:173`, `:207`), and the rollback copies the changed one back
  (`:243-256`, `packages/yakr-core/src/yakr_core/session.py:167-168`, `:205-208`). Every other field
  is restored, and the Rust code clones (`rust/yakr-core/src/ratchet.rs:300-309`).
  `SkippedKeys.RollbackIsExact` says exactly when nothing is left behind; `Floods.RollbackRefuses` and
  `Reversed.NewestFirstLoses` show messages refused or lost because of it, in runs without any
  fault; `Orderly.InOrderDelivery`, `Exactness.RoomIsExactForAll` and `Exactness.RoomIsExactForAny` say exactly
  when it does no harm. All
  that is said of Python runs here is said of the table as the code really keeps it.
- The receiver never skips to the end of the previous chain at a DH step: the previous-chain
  length is only authenticated, stored keys are cleared at a DH step and never deleted on use
  (`packages/yakr-core/src/yakr_core/ratchet.py:206-224`, `:280-299`). Replay protection comes
  from the in-order gate, as `Acceptance.AcceptsExactlyNext` shows.
- A direction is shut for good by a sequence number lost to a crash, by an expired message at the
  head, or by more than 128 profile and presence messages behind it: `Stalls.BlockedForGood`,
  `Floods.NoticesWedge`.
- The contact is read before the receipt queue is flushed and saved after
  (`packages/yakr-cli/src/yakr_cli/fetch_cmds.py:59-64`, `:166`): `FlushRewind.FlushRewinds` and
  `FlushRewind.FlushRewindsUnless` say exactly when the counter is then set back, `FlushRewind.RewoundNumberIsReused` that a sequence
  number is then spent twice, and `FlushRewind.RewoundMessageIsLost` that the peer, once it has
  accepted the flushed receipt, never accepts the second message under its number. `Delivery` reads
  the contact again after a flush, and so do the results about runs with crashes that rest on it.
- The display name in a pairing request is not in the transcript: `Pairing.PairingEstablishes`
  says for which names the two records still name one conversation.

## Model

| member | source | states |
|---|---|---|
| RatchetState.LoadUndoesSave | packages/yakr-core/src/yakr_core/ratchet.py:89-157 | Loading a saved ratchet gives back every field of it but the stored keys: those are whatever has become of the live table that the saved form names. |
| RatchetState.RatchetState.FromMaster | packages/yakr-core/src/yakr_core/ratchet.py:60-87 | The object built in place is the specified fresh ratchet of either role, with no peer key and an empty table of its own. |
| RatchetState.RatchetState.DhRatchet | packages/yakr-core/src/yakr_core/ratchet.py:206-224 | A DH step in place: the live table cleared, both chains restarted, the root moved twice. |
| RatchetState.RatchetState.Encrypt | packages/yakr-core/src/yakr_core/ratchet.py:229-241 | The first message performs the pending pairing step; each advances the send chain by one. |
| RatchetState.RatchetState.SkipAhead | packages/yakr-core/src/yakr_core/ratchet.py:291-294 | The skip loop stores exactly the keys of the positions passed over. |
| RatchetState.RatchetState.Attempt | packages/yakr-core/src/yakr_core/ratchet.py:271-299 | One attempt leaves the specified keys in the live table, whatever comes of it. |
| RatchetState.RatchetState.Decrypt | packages/yakr-core/src/yakr_core/ratchet.py:258-302 | The new state and plaintext are the specified ones; on every failure each field is put back, but the stored keys stay as the attempt left them. |
| RatchetState.RatchetState.DecryptCloned | rust/yakr-core/src/ratchet.rs:300-360 | The same attempt on a clone: on every failure the ratchet is what it was, stored keys included. |
| RatchetState.RatchetState.RestoreSnapshot | packages/yakr-core/src/yakr_core/ratchet.py:243-256 | Every field is taken from the snapshot, with the stored keys as its table holds them now, in a table of its own. |
| SessionObject.Session.Encrypt | packages/yakr-core/src/yakr_core/session.py:73-160 | A sealed message takes the next sequence number; a session due for rekeying seals nothing. |
| SessionObject.Session.DecryptOuter | packages/yakr-core/src/yakr_core/session.py:162-201 | Only the next sequence number of the right conversation, unexpired, is accepted; every other outcome leaves the contact as it was but for the stored keys. |
| SessionObject.Session.DecryptInbound | packages/yakr-core/src/yakr_core/session.py:203-209 | Only text moves the receive chain; after any other kind the ratchet is put back, but for the stored keys. |
| RustSession.Session.DecryptOuter | rust/yakr-core/src/session.rs:126-177 | The same gate with a cloned snapshot: every outcome but acceptance leaves the contact as it was. |
| RustSession.Session.DecryptEach | rust/yakr-core/src/session.rs:126-177 | Any number of arrivals leave the record, and say the messages, of the accepted ones alone. |
| RustSession.RejectedAreInvisible | rust/yakr-core/src/session.rs:126-177 | Without the rejected arrivals the others are all accepted, and say and leave the same. |
| RustSession.TableStaysClean | rust/yakr-core/src/ratchet.rs:300-360 | Whatever arrives, every stored key is the chain's own, under the peer key in use, for a position passed. |
| Gate.GateIsExact | packages/yakr-core/src/yakr_core/session.py:182-209 | What opens is accepted if and only if it names the conversation, carries the number after the last, and its last valid millisecond has not passed; the first of these that fails is the error, and only a text leaves the ratchet moved. |
| Gate.AcceptedIsInTime | packages/yakr-core/src/yakr_core/ephemeral.py:18-27 | Whatever is accepted is no later than the time it is valid until, next in turn and of the conversation. |
| Gate.LastMillisecond | packages/yakr-core/src/yakr_core/ephemeral.py:18-20 | The next message within the limits of 128 and 256 is accepted at the last millisecond it is valid and refused as expired one later. |
| Gate.ClosedIsExact | packages/yakr-core/src/yakr_core/session.py:170-177 | What does not open is a duplicate if its position was passed and its key is not stored, and else undecipherable. |
| Gate.SealIsExact | packages/yakr-core/src/yakr_core/hybrid_pq.py:54-68 | A contact with a chain to send on seals unless its session is hybrid and seven days old or at number ten thousand, and then fails for that; what is sealed is what was given, under its next number, and a receipt costs the number alone. |
| Gate.AgedSessionIsSilent | packages/yakr-core/src/yakr_core/session.py:211-217 | In every run in which a hybrid side seals at seven days or later, nothing enters its log but lost numbers. |
| Gate.NumbersStayLow | packages/yakr-core/src/yakr_core/session.py:211-217 | In every run each message of a hybrid session has a number under ten thousand. |
| SkippedKeys.SelectAhead | packages/yakr-core/src/yakr_core/ratchet.py:286-296 | A position ahead is reached exactly within the two limits, with the chain's own key, and the stored keys stay those of one chain. |
| SkippedKeys.AnyArrivalOrder | packages/yakr-core/src/yakr_core/ratchet.py:280-299 | One epoch's messages, each once and in any order and whatever is stored before, all open to what was sealed if and only if the order stays within the 128 gap and the 256 stored keys. |
| SkippedKeys.RollbackIsExact | packages/yakr-core/src/yakr_core/ratchet.py:270-302 | A failed attempt leaves the whole ratchet as it was if and only if it fails before the table is touched, passes over no position whose key is not stored, or takes a DH step that leaves the table it found. |
| SkippedKeys.LeftoverKeepsChain | packages/yakr-core/src/yakr_core/ratchet.py:169-173 | The keys a failed attempt leaves are ones the chain can go on with. |
| Opening.OpensInEpoch | packages/yakr-core/src/yakr_core/ratchet.py:272-299 | A payload of the current epoch opens exactly within the limits, and keeps the sending half. |
| Opening.OpensByDhStep | packages/yakr-core/src/yakr_core/ratchet.py:274-299 | A payload under a new header key opens exactly within the limits, one agreement further. |
| Opening.OpenedKey | packages/yakr-core/src/yakr_core/ratchet.py:258-302 | Whatever opens lies under the chain in use or one agreement further, under its own header. |
| Opening.LimitsInNumbers | packages/yakr-core/src/yakr_core/ratchet.py:280-296 | Under the key on record a message opens if and only if it is at most 128 ahead with at most 256 keys stored once it is reached, or behind with its key stored. |
| Opening.FailuresAreExact | packages/yakr-core/src/yakr_core/ratchet.py:258-299 | Which failure each blob that does not open under the key on record comes to. |
| KeySchedule.Schedule.RootsDiffer | packages/yakr-core/src/yakr_core/ratchet.py:21-28 | No two roots of a session are equal. |
| KeySchedule.Schedule.ChainsDiffer | packages/yakr-core/src/yakr_core/ratchet.py:206-224 | No two chains of a session start alike. |
| Log.CursorAdvances | packages/yakr-core/src/yakr_core/ratchet.py:229-241 | A sender's place in the key schedule never moves back. |
| Acceptance.SlotOpens | packages/yakr-core/src/yakr_core/ratchet.py:258-302 | Any message not yet accepted opens, to what was sent, exactly when its gap, and the keys then stored on top of those there are, are within the limits. |
| Acceptance.NoReflection | packages/yakr-core/src/yakr_core/ratchet.py:258-302 | A side never opens what it sealed itself, under any header. |
| Acceptance.OnlyPeerOpens | packages/yakr-core/src/yakr_core/ratchet.py:298-299 | What opens came from the peer, under its own header. |
| Acceptance.AcceptsExactlyNext | packages/yakr-core/src/yakr_core/session.py:162-209 | Against any blob the network can present: accepted if and only if it is the peer's next message, unexpired and with its backlog within the limits, counted on the table as attempts have left it; and it reads as it was written. |
| Preservation.SteadySendKeeps | packages/yakr-core/src/yakr_core/session.py:73-92 | Sending in an epoch already begun keeps the two-party invariant. |
| Preservation.PendingSendKeeps | packages/yakr-core/src/yakr_core/ratchet.py:230-233 | The inviter's first message extends the key schedule and keeps the invariant. |
| Preservation.SteadyReceiptKeeps | packages/yakr-cli/src/yakr_cli/receipt_cmds.py:61-66 | A receipt gives its key back, spends its number, and keeps the invariant. |
| Preservation.BorrowedReceiptKeeps | packages/yakr-cli/src/yakr_cli/receipt_cmds.py:61-66 | A receipt before the first message borrows a key pair for itself alone, and keeps the invariant. |
| Preservation.LoseNumberKeeps | packages/yakr-cli/src/yakr_cli/receipt_cmds.py:63-67 | A number lost to a crash leaves a hole and keeps the invariant. |
| Preservation.AheadTextKeeps | packages/yakr-core/src/yakr_core/ratchet.py:206-224 | A text under a new key makes the receiver step; both sides meet the longer schedule. |
| Preservation.RejectedKeeps | packages/yakr-core/src/yakr_core/session.py:167-199 | A blob that is turned away keeps the two-party invariant, whatever it leaves in the table. |
| Preservation.StepKeepsInv | packages/yakr-core/src/yakr_core/session.py:73-209 | Every step of either side, with any blob the network can present, keeps the invariant. |
| Runs.TwoPartyCorrectness | packages/yakr-core/src/yakr_core/session.py:162-209 | In every run from a completed pairing each side has accepted a beginning of what the other sent, and accepts next exactly the next message, if it is unexpired and within the limits on the table it has. |
| Runs.SkippedKeyRefinement | packages/yakr-core/src/yakr_core/ratchet.py:280-299 | In every reachable state the receive chain is one ideal chain advanced; of at most 256 stored keys those under the key in use are that chain's own, for positions passed or less than 128 ahead, and no others are ever read. |
| Runs.LockStepRoots | packages/yakr-core/src/yakr_core/ratchet.py:175-224 | In every run from a completed pairing the two hold the last two keys of the schedule, their roots are exactly one root step apart by the agreement of these keys, the side ahead has seen the other's newest key and the side behind all but the other's newest. |
| KeyUse.KeysUsedOnce | packages/yakr-core/src/yakr_core/ratchet.py:229-241 | No two texts, profiles or presence messages, of one side or both, share a message key or a header position. |
| Stalls.TextsAndReceiptsFlow | packages/yakr-core/src/yakr_core/session.py:187-201 | While the peer sends only texts and receipts, its next message is accepted whenever it is unexpired. |
| Stalls.BlockedForGood | packages/yakr-core/src/yakr_core/session.py:187-199 | After a lost number, an expired head or more than 128 profile and presence messages behind it, nothing more is ever accepted in that direction. |
| Stalls.ForgeryUnblocks | packages/yakr-core/src/yakr_core/ratchet.py:206-207 | A table too full for the next message shuts a direction only until a blob under any other header key is tried: that clears the table. |
| Orderly.InOrderDelivery | packages/yakr-core/src/yakr_core/session.py:203-209 | In every run in which all that is given to a side is accepted in its turn, its next message is accepted if and only if it is unexpired and a count on the sender's log, in which rolled-back messages weigh twice, is within the limits. |
| Floods.FloodBlocks | packages/yakr-core/src/yakr_core/session.py:203-209 | Behind 129 profile or presence messages in a row, nothing of that epoch is accepted. |
| Floods.NoticesWedge | packages/yakr-core/src/yakr_core/session.py:136-160 | From every completed classical pairing a run leads to a text, sent and not expired, that can never be accepted. |
| Floods.TwoNoticesLeaveAKey | packages/yakr-core/src/yakr_core/session.py:203-209 | Two presence messages accepted in order leave a key stored for a position the chain has not passed. |
| Floods.RollbackRefuses | packages/yakr-core/src/yakr_core/ratchet.py:286-290 | After 64 presence messages, a text and 97 presence messages, each accepted in order, 160 keys are stored and the next one is refused, though the epoch holds 161 such messages in all. |
| Pairing.PairingEstablishes | packages/yakr-core/src/yakr_core/pairing.py:397-527 | For every invite and request built for it the inviter completes, the joiner accepts, both share master secret, transcript and mode; the ratchets are in the initial relation and the conversation is one if and only if the name asked for is the joiner's own or collides with it across an underscore, which names without one never do. |
| Pairing.AcceptedAnswerAgrees | packages/yakr-core/src/yakr_core/pairing.py:480-492 | If the joiner accepts an answer with the inviter's transcript, the two agree on every key, the mode and the master secret, whatever the network did. |
| Pairing.ConversationIdCommutes | packages/yakr-core/src/yakr_core/identity.py:258-260 | Both sides compute one conversation id. |
| Pairing.SameConversation | packages/yakr-core/src/yakr_core/identity.py:258-260 | Two names give one conversation with a third if and only if they are equal or, both with an underscore and on different sides of the third, join alike. |
| Pairing.UnderscoresCollide | packages/yakr-core/src/yakr_core/identity.py:258-260 | There are such names. |
| Pairing.OtherNameSplitsConversation | packages/yakr-core/src/yakr_core/pairing.py:446-452 | There is a name with which pairing completes and the conversations differ. |
| Masters.InviterCompletesIff | packages/yakr-core/src/yakr_core/pairing.py:397-440 | The inviter completes if and only if the request has its invite secret, a ratchet key, and a ciphertext exactly if the invite is hybrid, which the inviter can then open; the first of these that fails is the error. |
| Masters.JoinerCompletesIff | packages/yakr-core/src/yakr_core/pairing.py:473-500 | The joiner completes if and only if the answer bears the hash of the fields of its request and answer, in the order both implementations hash them, and its own request was one to complete. |
| Masters.EachRecordsTheOther | packages/yakr-core/src/yakr_core/pairing.py:397-527 | After an honest pairing each side has recorded the other's own signing and agreement keys and their digest, the mode, and a session that starts then and has neither sent nor received. |
| Masters.EqualMastersIff | packages/yakr-core/src/yakr_core/pairing.py:192-243 | An inviter's and a joiner's master are equal if and only if the agreements of the identity and of the ephemeral keys are, the transcripts, and the encapsulated secret, or that there is none. |
| Masters.HybridIsNotClassical | packages/yakr-core/src/yakr_core/hybrid_pq.py:41-51 | A hybrid master is never a classical one. |
| Masters.SecretDecides | packages/yakr-core/src/yakr_core/pairing.py:217-243 | On one hybrid invite, request and transcript a joiner with another encapsulated secret completes as well, but the masters differ and neither side opens what the other seals first. |
| PairingObject.InviterCompletePairing | packages/yakr-core/src/yakr_core/pairing.py:397-470 | The record built in place is the specified one, peer keys, contact id and transcript included, with the joiner's ratchet key left pending. |
| PairingObject.JoinerCompletePairing | packages/yakr-core/src/yakr_core/pairing.py:473-527 | The record built in place is the specified one, peer keys, contact id and transcript included, ready to receive. |
| TranscriptBytes.Feed | rust/yakr-core/src/pairing.rs:98-126 | Feeding the hasher part by part hashes the parts joined by bars. |
| TranscriptBytes.TranscriptInjective | rust/yakr-core/src/pairing.rs:98-126 | Equal joined bytes force every field, the presence of the KEM ciphertext and its bytes to be equal. |
| TranscriptBytes.LayoutInNumbers | rust/yakr-core/src/pairing.rs:98-126 | The protocol takes nine bytes, each field 32 at its place with a bar before it, and the ciphertext what follows byte 306, if there is one. |
| TranscriptBytes.BarsAreAmbiguous | packages/yakr-core/src/yakr_core/pairing.py:157-172 | Without fixed lengths the bars alone would not separate the fields. |
| Static.EstablishPairs | packages/yakr-core/src/yakr_core/identity.py:155-170 | Two differently named people who add each other's bundles take opposite roles on one master secret. |
| Static.SameNameNeverTalks | packages/yakr-core/src/yakr_core/identity.py:162-169 | Two of the same name both seal under the chain the other seals under. |
| Static.RootsStayEqual | packages/yakr-core/src/yakr_core/identity.py:155-170 | Between established contacts the roots stay equal and no DH step is ever kept, in every run; what is accepted is a beginning of what was sent. |
| LocalStore.Store.AtomicCommitReceiveText | packages/yakr-core/src/yakr_core/store.py:484-529 | Contact, message and owed receipt are saved together, whichever statement fails. |
| DeliverySteps.EventRefines | packages/yakr-cli/src/yakr_cli/fetch_cmds.py:97-193 | Each durable event, crashes included, is one step of the two-party system, a key set aside, or nothing. |
| DeliverySteps.SendCommitActs | packages/yakr-cli/src/yakr_cli/main.py:154-170 | Committing a send keeps the device's invariant: the saved contact is the advanced one while the message waits to be handed over. |
| DeliverySteps.TrialActs | packages/yakr-cli/src/yakr_cli/fetch_cmds.py:113-119 | A blob turned away changes the stored keys in memory and nothing that is saved, and keeps the device's invariant. |
| DeliverySteps.TextLands | packages/yakr-cli/src/yakr_cli/fetch_cmds.py:164-190 | Storing a text, owing its receipt and moving the position in one transaction keeps the device's invariant, every accepted text stored and answered or owed. |
| DeliverySteps.ReceiptDelivered | packages/yakr-cli/src/yakr_cli/receipt_cmds.py:61-79 | A receipt handed over keeps the device's invariant: it answers a committed text and is on the wire before its queue row goes. |
| DeliverySteps.ReceiptRefused | packages/yakr-cli/src/yakr_cli/receipt_cmds.py:80-87 | A refused receipt keeps the device's invariant: contact and history are as before it. |
| DeliverySteps.CrashActs | packages/yakr-cli/src/yakr_cli/receipt_cmds.py:63-67 | A crash at any point keeps the device's invariant: the contact is read from disk again, with the keys stored there; between saving and handing over a receipt it costs the number. |
| DeliverySteps.EventKeepsWorld | packages/yakr-core/src/yakr_core/store.py:429-540 | Every event, a crash at any point included, keeps the delivery invariant of both devices. |
| DeliveryRuns.PairingStarts | packages/yakr-core/src/yakr_core/pairing.py:397-527 | Devices that saved what an honest pairing gave them satisfy the delivery invariant. |
| DeliveryRuns.NoFalseDelivery | packages/yakr-core/src/yakr_core/receipt_apply.py:16-31 | In every run with crashes, the contact being read again after a flush, if an event other than retention removes a text from the sender's outbox, the peer has already stored it. |
| Outbox.NoSilentLoss | packages/yakr-core/src/yakr_core/store.py:429-482 | In every run with crashes, the contact being read again after a flush, each text a side has committed is still in its outbox under its own id, or has lapsed by retention, or has been stored by the peer. |
| Outbox.SweepTakesDue | packages/yakr-core/src/yakr_core/store.py:604-616 | A sweep takes from inbox and outbox exactly the rows that have expired or are a day old. |
| DeliveryRuns.DurableReceive | packages/yakr-core/src/yakr_core/store.py:484-529 | In every state reached with crashes, the contact being read again after a flush, each text up to the saved position is stored unless swept, and its receipt is queued or was handed to a relay. |
| DeliveryRuns.KeyFreshness | packages/yakr-core/src/yakr_core/store.py:429-482 | Across crashes and reloads, the contact being read again after a flush, no two different texts, profiles or presence messages handed over share a message key or header position. |
| FetchLoop.SendDeliveryReceipt | packages/yakr-cli/src/yakr_cli/receipt_cmds.py:46-87 | The tables after one receipt are the specified ones, handed over or refused. |
| Receipts.OneReceipt | packages/yakr-cli/src/yakr_cli/receipt_cmds.py:46-87 | One receipt is handed over with its number spent and its debt paid, or given back and owed, or not sealed; it is written now by this device under the saved counter and is good for a day. |
| Receipts.SettledExactly | packages/yakr-cli/src/yakr_cli/fetch_cmds.py:121-190 | An accepted text is stored once and answered or owed, an accepted receipt removes the row of its own text and no other, and the rest change no row. |
| Receipts.DrainAnswers | packages/yakr-core/src/yakr_core/message.py:71-89 | Everything a drain hands over is a receipt written at the time of the fetch by this device, good for a day from then, about a payload of the queue. |
| Receipts.ReceiptIsGoodForADay | packages/yakr-core/src/yakr_core/message.py:71-89 | Once such a receipt is the peer's next message and within the limits, the peer accepts it at every time up to a day after the fetch and at none later, and it removes the row of the text it answers. |
| FetchLoop.RefreshSendState | packages/yakr-cli/src/yakr_cli/fetch_cmds.py:28-34 | The record in memory takes its send side from disk and keeps its position. |
| FetchLoop.SaveAccepted | packages/yakr-cli/src/yakr_cli/fetch_cmds.py:112-190 | What an accepted message of each kind leaves in the store, and that the record in memory is then the one on disk. |
| FetchLoop.TakeBlob | packages/yakr-cli/src/yakr_cli/fetch_cmds.py:111-190 | Trying one blob leaves the tables and the record in memory of the specified step, accepted, kept or thrown away. |
| FetchLoop.RunPass | packages/yakr-cli/src/yakr_cli/fetch_cmds.py:99-192 | One pass keeps exactly the blobs that came out of turn. |
| FetchLoop.DrainTag | packages/yakr-cli/src/yakr_cli/fetch_cmds.py:97-196 | The loop ends, and leaves the store, the record in memory, the messages and the receipts of the specified drain, whatever record it began with. |
| Fetch.Pass | packages/yakr-cli/src/yakr_cli/fetch_cmds.py:98-196 | A pass that makes progress leaves strictly fewer blobs, so the passes end. |
| Hearing.TakeHears | packages/yakr-cli/src/yakr_cli/fetch_cmds.py:102-192 | A blob that is tried is accepted exactly when it is acceptable, and saving and answering it is what the two-party system does. |
| Reach.LaterIsDeferred | packages/yakr-core/src/yakr_core/session.py:187-197 | A message tried before its turn is deferred if within the limits on the table there is, and else not opened. |
| Reach.RoomReaches | packages/yakr-core/src/yakr_core/ratchet.py:286-290 | Where a queue leaves room in the table of stored keys for its messages up to a place in the log, every one of them is within the limits. |
| Reach.LeftoverIsRoomy | packages/yakr-core/src/yakr_core/ratchet.py:286-302 | An attempt on any blob of the queue, rolled back, leaves room for the rest. |
| Reach.AcceptKeepsRoom | packages/yakr-core/src/yakr_core/ratchet.py:286-296 | So does accepting one, a DH step included. |
| Draining.TakeOutcome | packages/yakr-cli/src/yakr_cli/fetch_cmds.py:102-119 | A message still to come is accepted if next, deferred if later, and thrown away exactly when out of reach with the keys stored by then. |
| Draining.FetchIsInOrder | packages/yakr-cli/src/yakr_cli/fetch_cmds.py:97-196 | For any order of a queue, with forgeries and repeats among it and whatever keys stored, the drain collects a beginning of the unbroken unexpired run after the last accepted message, in order and once. |
| Draining.FetchConfluence | packages/yakr-cli/src/yakr_cli/fetch_cmds.py:97-196 | If the queue leaves room in the table of stored keys for the messages of that run, before a DH step in it and after, beside whatever else it shows, the drain collects exactly that run; and a session due for rekeying ends the fetch right after the first text of it whose receipt it will not seal, and nowhere else. |
| Draining.WholeRun | packages/yakr-core/src/yakr_core/session.py:211-217 | So a classical session, and a hybrid one that may still seal as many receipts as the run has messages, collects the whole run. |
| Draining.OrderIsImmaterial | packages/yakr-cli/src/yakr_cli/fetch_cmds.py:88-97 | Where there is room, order and repetition in the mailbox make no difference to what is read, where it stops and whether rekeying ends it. |
| Overflow.RoomIsExact | packages/yakr-core/src/yakr_core/ratchet.py:270-302 | Up to a message of the epoch being received that a fetch can get to: every queue the network can present under its header key is collected as far as it goes if and only if there is room for its number in the table. |
| Exactness.RoomIsExactForAll | packages/yakr-core/src/yakr_core/ratchet.py:206-302 | Up to the first message that is missing or expired, or to where rekeying ends the fetch: every queue the network can present, up to the numbers of the messages there, in any order and with anything under other header keys, is collected as far as it goes, across a DH step too, if and only if there is room for the last message of the epoch being received on top of the stored keys and beside a gap of others, and the last one past the step is within one gap and, from the first text past it, has room beside a gap of others. |
| Exactness.RoomIsExactForAny | packages/yakr-core/src/yakr_core/ratchet.py:206-302 | Every queue the network can present at all, with any number under any header key, is collected as far as it goes if and only if each message a fetch can get to is at the position the receiver then has: none ahead in the epoch being received, and past the DH step none beyond one gap or ahead of the position right after a text. |
| Reversed.OneIsLost | packages/yakr-cli/src/yakr_cli/fetch_cmds.py:113-119 | A queue that lists a message and then the one before it loses one of the two when the table has no room for both attempts. |
| Reversed.NewestFirstLoses | packages/yakr-cli/src/yakr_cli/fetch_cmds.py:107-193 | From every completed classical pairing: 128 texts listed newest first are all collected, and of the next 128 listed so one is thrown away. |
| FetchEvents.DrainIsARun | packages/yakr-cli/src/yakr_cli/fetch_cmds.py:97-196 | An uninterrupted drain is a run of the delivery events and saves what the drain computes. |
| FetchEvents.FetchBegins | packages/yakr-cli/src/yakr_cli/fetch_cmds.py:58-63 | A fetch begins by reading the contact, whatever attempts have made of the keys in memory, and keeps the delivery invariant. |
| FetchEvents.FetchMayCrashAnywhere | packages/yakr-cli/src/yakr_cli/fetch_cmds.py:164-191 | A crash at any durable point of a fetch leaves every text up to the saved position stored and answered or owed. |
| FlushRewind.DrainIsCounted | packages/yakr-cli/src/yakr_cli/receipt_cmds.py:46-87 | A drain on a contact just read spends consecutive numbers, each once. |
| FlushRewind.FlushRewinds | packages/yakr-cli/src/yakr_cli/fetch_cmds.py:59-64 | With the contact read before the flush the counter is set back, once a blob is accepted, by exactly the receipts flushed: it is ahead of them if and only if nothing was accepted, none could be sealed or all queued, if any, are refused. |
| FlushRewind.FlushRewindsUnless | packages/yakr-cli/src/yakr_cli/fetch_cmds.py:59-64 | With room for the next message, on what is known before the fetch: the counter is ahead if and only if the flush has nothing to hand over, or cannot seal a receipt and ends the fetch, or the next message is not there to be taken. |
| FlushRewind.RewoundNumberIsReused | packages/yakr-cli/src/yakr_cli/fetch_cmds.py:177-190 | In every other case the number of the first flushed receipt is spent again, by the drain's first receipt or, if it sent none, by the next message sealed. |
| FlushRewind.SpentNumberIsRefused | packages/yakr-core/src/yakr_core/session.py:187-197 | Once a side has accepted a message, nothing sealed under its number or a lower one is ever accepted, in any state and whatever steps follow. |
| FlushRewind.RewoundMessageIsLost | packages/yakr-cli/src/yakr_cli/fetch_cmds.py:59-64 | When the peer has accepted the first flushed receipt, the next message sealed under its number, a receipt of the drain or any message after it, is never accepted. |
| Lookback.OneFetchOneEpoch | packages/yakr-core/src/yakr_core/mailbox.py:37-39 | A whole fetch, newest mailbox first, clears exactly one occupied epoch. |
| Lookback.TagsAreExact | packages/yakr-core/src/yakr_core/privacy.py:90-135 | A fetch asks for the mailboxes of the window, newest first, and for none, three or seven decoys of each of their epochs. |
| Lookback.BoundedDraining | packages/yakr-cli/src/yakr_cli/fetch_cmds.py:83-196 | Without gaps, with older epochs holding lower numbers, room for all in the table of stored keys and a session that will answer each text, n fetches clear exactly n occupied epochs and lookback + 1 collect everything in the window, in order and once. |
| Padding.PadRoundTrip | packages/yakr-core/src/yakr_core/privacy.py:36-80 | Padding succeeds exactly when the plaintext and its prefix fit the largest class, to the smallest class that fits, and decoding gives the plaintext back. |
| Padding.PaddingHidesLength | packages/yakr-core/src/yakr_core/privacy.py:44-64 | Padded lengths are equal exactly for plaintexts of one class, padded bytes exactly for equal plaintexts. |
| Padding.ClassesInNumbers | packages/yakr-core/src/yakr_core/privacy.py:36-64 | In high mode at most 4092 bytes take 4096 and at most 32764 take 32768, in balanced mode at most 4092 take 4096, and more fail; in fast mode nothing is added. |
| Padding.PaddedLayout | packages/yakr-core/src/yakr_core/privacy.py:44-64 | Padded bytes are the length in four bytes, highest first, the plaintext, and zeros. |
| Padding.UnpadIsExact | packages/yakr-core/src/yakr_core/privacy.py:67-80 | Any bytes are read back exactly if their first four give a length that is there. |
| Padding.BigEndianRoundTrip | packages/yakr-core/src/yakr_core/privacy.py:61-74 | The length prefix reads back as it was written. |
| Capability.CapabilityGrantStore.Register | packages/yakr-relay/src/yakr_relay/capability_store.py:60-86 | A verified grant of no lower generation is registered and its revocation lifted. |
| Capability.CapabilityGrantStore.RevokeWithOverlap | packages/yakr-relay/src/yakr_relay/capability_store.py:88-104 | A known id gets its end of overlap; an unknown one changes nothing. |
| Capability.CapabilityGrantStore.ConsumeNonce | packages/yakr-relay/src/yakr_relay/capability_store.py:130-136 | Old nonces are dropped, a remembered one is refused, a new one is remembered. |
| Capability.CapabilityGrantStore.CheckCapability | packages/yakr-relay/src/yakr_relay/app.py:130-172 | The switch, the issuance key and the headers, then the checks in their order, the nonce used up last. |
| Capability.AdmitIsExact | packages/yakr-relay/src/yakr_relay/app.py:130-172 | A request is admitted if and only if nothing is asked for, or key and headers are there, the grant is signed by the issuer over its terms, unexpired and of this relay, on record at its generation before any overlap ends, names the permission or its alias, and the request is within five minutes, with 16 nonce bytes, signed by the key of the grant and not a nonce of the last ten minutes; it then uses up the nonce and changes nothing else. |
| Capability.RefusalIsExact | packages/yakr-relay/src/yakr_relay/app.py:130-172 | The first of these that fails is the reason given. |
| Capability.RegisterIsExact | packages/yakr-relay/src/yakr_relay/capability_store.py:60-86 | A grant is registered if and only if it was issued here and is of no lower generation, and is then on record without an end; other ids stay as they were. |
| Capability.NoReplay | packages/yakr-core/src/yakr_core/capability_grant.py:241-243 | A request accepted once is never accepted again with its nonce and timestamp, whatever comes between. |
| Capability.SecondUseIsExact | packages/yakr-relay/src/yakr_relay/capability_store.py:130-136 | The same signed request with its nonce written as any text is accepted a second time if and only if the grant and the timestamp still hold and that text is another one, not remembered. |
| Capability.WindowIsTight | packages/yakr-relay/src/yakr_relay/capability_store.py:53-58 | A retention is long enough for that if and only if it is twice the skew. |
| Capability.GenerationsNeverFall | packages/yakr-relay/src/yakr_relay/capability_store.py:75-80 | Over every run no id is forgotten and no generation falls. |
| Capability.OverlapIsExact | packages/yakr-relay/src/yakr_relay/capability_store.py:88-128 | A grant revoked at t with window w is recognised exactly before t + w, until its id is registered or revoked again. |
| Blobs.BlobStore.Store | packages/yakr-relay/src/yakr_relay/store.py:74-104 | A blob is refused for length, size, time to live or a full mailbox, in that order, and else stored. |
| Blobs.BlobStore.Fetch | packages/yakr-relay/src/yakr_relay/store.py:128-149 | Exactly the live blobs of the tag, in the order stored. |
| Blobs.BlobStore.SweepExpired | packages/yakr-relay/src/yakr_relay/store.py:151-156 | Exactly the expired blobs go, and are counted. |
| Blobs.StoreIsExact | packages/yakr-relay/src/yakr_relay/store.py:74-104 | A blob is taken if and only if its tag has 32 bytes, it fits, it is to live for at most a day and its mailbox has room; the first of these that fails is the reason. |
| Blobs.StoredIsListed | packages/yakr-relay/src/yakr_relay/store.py:74-156 | What was taken is listed byte for byte, whatever is stored, fetched and swept in between, up to and not from its expiry. |
| Blobs.ListedWasStored | packages/yakr-relay/src/yakr_relay/store.py:74-156 | Nothing is ever listed that was not stored so. |
| Blobs.SweeperIsUnobservable | packages/yakr-relay/src/yakr_relay/store.py:74-156 | With a clock that does not run backwards, no client can tell when or whether the table was swept. |
| Blobs.CapHolds | packages/yakr-relay/src/yakr_relay/store.py:90-96 | No mailbox ever holds more live blobs than the cap. |
| Blobs.OrderHolds | packages/yakr-relay/src/yakr_relay/store.py:131-138 | The table is always in order of storing time, as the listing requires. |
| Rendezvous.PairingStore.SweepExpired | packages/yakr-relay/src/yakr_relay/pairing_store.py:46-51 | Sessions past their time go, and are counted. |
| Rendezvous.AttemptsAreExact | packages/yakr-relay/src/yakr_relay/pairing_store.py:53-139 | A secret of 32 bytes that is not used up can be registered and asked for, and answered once there is a session; the tag then shows exactly what was given. |
| Rendezvous.RequestIsFound | packages/yakr-relay/src/yakr_relay/pairing_store.py:81-139 | A request that was taken is what the inviter finds, with no response yet, until something else is done with its secret or its session is swept. |
| Rendezvous.SingleUse | packages/yakr-relay/src/yakr_relay/pairing_store.py:53-139 | From a successful response until the sweep, the tag returns exactly that response, shows no request, and every further attempt on that secret fails. |
| Rendezvous.OthersUntouched | packages/yakr-relay/src/yakr_relay/pairing_store.py:53-129 | What is done with one secret never touches the session of another. |

## Left out

- Real cryptography, CBOR, JSON and base64: replaced by free constructors; that equal transcript bytes force equal fields is `TranscriptBytes.TranscriptInjective`, and a saved ratchet is a record whose missing keys are blank.
- Ciphertext nonces, and decapsulation of a ciphertext made for another key: the first plays no part in the claims, the second is one opaque secret.
- The previous-chain length in a header: carried and authenticated, but the code never reads it; `Opening.PreviousLength` says what it is, and no result rests on it.
- 32-bit message numbers: the counters are unbounded; they would wrap after four thousand million messages in one epoch.
- SessionObject.Session.DecryptOuter: does not model an inner message that fails to parse after it was authenticated; the Python code then keeps the advanced ratchet.
- RustSession.Session.DecryptOuter: stands alone; the Rust code has no counterpart to `decrypt_inbound`, so every kind it accepts moves its chain, and the two-party results are about the Python session.
- PairingObject.InviterCompletePairing: leaves out the peer's delivery profile and its acknowledgement.
- Padding inside a session: both ends are taken to use one privacy mode, and `Padding` treats it by itself.
- Stalls.TextsAndReceiptsFlow: promises nothing for profile and presence messages, which the receiver rolls back; `Floods` says what they cost.
- Runs.TwoPartyCorrectness: promises nothing for messages of an older epoch that arrive after a DH step, which the code rejects by design.
- DeliveryRuns.KeyFreshness: does not cover receipts, which share the key of the next message by design.
- Draining.FetchConfluence: asks for room in the table of stored keys, without which it is false of the code; `Overflow.RoomIsExact`, `Exactness.RoomIsExactForAll` and `Exactness.RoomIsExactForAny` say that no less will do for all queues up to a given message, up to all that was sent, or at all; for one given queue it is enough, but not needed, as one listed in order needs less.
- The list a mailbox answers with is sorted by time stored and freed of repeated ciphertexts before the loop; the drain here takes any list.
- Lookback.BoundedDraining: begins each fetch with an empty receipt queue; what a flush does to the counter is `FlushRewind`.
- DeliveryRuns.NoFalseDelivery: takes runs in which a device goes on, after a flush, with the contact on disk, where a fetch of the code keeps the one it read before; likewise `DeliveryRuns.DurableReceive`, `DeliveryRuns.KeyFreshness`, `Outbox.NoSilentLoss` and `DeliverySteps.EventRefines`. What the older contact does to sequence numbers is `FlushRewind`.
- FetchLoop.SaveAccepted: saves the contact after every profile, presence or receipt message; the code skips that for an empty profile, and for a presence message of a foreign or stale operator, and its record in memory is then ahead of the one on disk until the next save.
- The clock of a fetch: read once for the whole fetch, where the code reads it for each message.
- Pairing.PairingEstablishes: does not model the signature on an invite, which authenticates the keys it carries; the lemma takes an invite that carries the inviter's own.
- Blobs.BlobStore.Fetch: lists blobs of one millisecond in the order stored, which the query leaves open.
- Capability.NoReplay: compares the nonce as the text the registry remembers, and reads the clock once per request.
- Volatile steps: sealing and opening are merged with the transaction that follows them, since a crash between the two leaves no trace.
- `resend_pending_for_contact`, the JSON copy of a contact beside the database, sent-message history, routes and profile acknowledgements.
- Sending while a fetch runs: operations on one contact are sequential.
- `BlobStore.consume`, pairing secrets checked by `verify_secret`, bootstrap tickets, capability issuing and key derivation.
- HTTP, TLS pinning, relay selection and failover, presence and profile contents, the command line, the mobile client and onion packets.
