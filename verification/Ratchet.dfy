/** The double ratchet (yakr_core/ratchet.py), as functions on its saved state. */
module Ratchet {
  import opened Crypto
  import opened Message

  const MAX_SKIP_GAP: nat := 128
  const MAX_SKIPPED_KEYS: nat := 256

  datatype SkipId = SkipId(dh: KeyId, n: nat)

  datatype State = State(
    rootKey: RootKey,
    selfKey: KeyId,
    peerKey: Option<KeyId>,
    sendChain: Option<ChainKey>,
    recvChain: Option<ChainKey>,
    sendN: nat,
    recvN: nat,
    prevSendN: nat,
    skipped: map<SkipId, MessageKey>,
    hybrid: bool,
    pendingPeer: Option<KeyId>)

  datatype Error =
    | InvalidHeader
    | NotInitialized
    | AlreadyReceived
    | GapTooLarge
    | SkippedKeyLimit
    | OpenFailed

  function FromMaster(master: Master, initiator: bool, hybrid: bool, ratchetKey: KeyId): State {
    var root := RootOf(master);
    var send := if initiator then SendInit(root) else RecvInit(root);
    var recv := if initiator then RecvInit(root) else SendInit(root);
    State(root, ratchetKey, None, Some(ChainKey(send, 0)), Some(ChainKey(recv, 0)), 0, 0, 0, map[], hybrid, None)
  }

  function PairingSendInit(r: State, peer: KeyId, newKey: KeyId): State {
    var root1 := RootKdf(r.rootKey, DH(r.selfKey, peer));
    var dh := DH(newKey, peer);
    r.(peerKey := Some(peer), selfKey := newKey,
       rootKey := RootKdf(root1, dh), sendChain := Some(ChainKey(ChainKdf(root1, dh), 0)),
       prevSendN := r.sendN, sendN := 0)
  }

  function PairingRecvInit(r: State, peer: KeyId): State {
    var dh := DH(r.selfKey, peer);
    r.(peerKey := Some(peer), rootKey := RootKdf(r.rootKey, dh),
       recvChain := Some(ChainKey(ChainKdf(r.rootKey, dh), 0)), recvN := 0)
  }

  function DhRatchet(r: State, peer: KeyId, newKey: KeyId): State {
    var dh1 := DH(r.selfKey, peer);
    var root1 := RootKdf(r.rootKey, dh1);
    var dh2 := DH(newKey, peer);
    r.(skipped := map[], peerKey := Some(peer), selfKey := newKey,
       recvChain := Some(ChainKey(ChainKdf(r.rootKey, dh1), 0)), recvN := 0,
       rootKey := RootKdf(root1, dh2), sendChain := Some(ChainKey(ChainKdf(root1, dh2), 0)),
       prevSendN := r.sendN, sendN := 0)
  }

  // The pending pairing step, if there is one, happens just before the first encryption.
  function ReadyToSend(r: State, newKey: KeyId): State {
    if r.pendingPeer.Some?
    then PairingSendInit(r.(pendingPeer := None), r.pendingPeer.value, newKey)
    else r
  }

  function Encrypt(r: State, m: InnerMessage, newKey: KeyId): Result<(State, Payload), Error> {
    var s := ReadyToSend(r, newKey);
    if s.sendChain.None? then Failure(NotInitialized) else
    var header := Header(s.selfKey, s.prevSendN, s.sendN);
    var (key, next) := KdfChain(s.sendChain.value);
    var box := Box(key, header, m);
    Success((s.(sendChain := Some(next), sendN := s.sendN + 1),
             Payload(header, box)))
  }

  // Adopt the sender's key: the first one seen is recorded, a new one takes a DH step.
  function Align(r: State, peer: KeyId, newKey: KeyId): State {
    if r.peerKey.None? then r.(peerKey := Some(peer))
    else if r.peerKey != Some(peer) then DhRatchet(r, peer, newKey)
    else r
  }

  // The keys of positions from..upto-1, of a chain whose next key is that of `from`.
  function SkippedRange(peer: KeyId, c: ChainKey, from: nat, upto: nat): map<SkipId, MessageKey> {
    if upto <= from then map[]
    else SkippedRange(peer, c, from, upto - 1)[SkipId(peer, upto - 1) :=
                                                 MessageKey(c.start, c.steps + (upto - 1 - from))]
  }

  // Store the keys of the positions passed over and take that of position n.
  function SkipTo(r: State, peer: KeyId, n: nat): (State, MessageKey)
    requires r.recvChain.Some? && n >= r.recvN
  {
    var c := r.recvChain.value;
    var (key, next) := KdfChain(ChainKey(c.start, c.steps + (n - r.recvN)));
    (r.(skipped := r.skipped + SkippedRange(peer, c, r.recvN, n), recvChain := Some(next), recvN := n + 1), key)
  }

  // The state and message key for position n of the current receive chain.
  function Select(r: State, peer: KeyId, n: nat): Result<(State, MessageKey), Error> {
    if r.recvChain.None? then Failure(NotInitialized)
    else if n < r.recvN then
      if SkipId(peer, n) in r.skipped then Success((r, r.skipped[SkipId(peer, n)]))
      else Failure(AlreadyReceived)
    else if n - r.recvN > MAX_SKIP_GAP then Failure(GapTooLarge)
    else if |r.skipped| + (n - r.recvN) > MAX_SKIPPED_KEYS then Failure(SkippedKeyLimit)
    else Success(SkipTo(r, peer, n))
  }

  // What a failed or rejected attempt leaves is said by RolledBack.
  function Decrypt(r: State, blob: Blob, newKey: KeyId): Result<(State, InnerMessage), Error> {
    if blob.Malformed? then Failure(InvalidHeader) else
    var h := blob.payload.header;
    match Select(Align(r, h.dh, newKey), h.dh, h.n)
    case Failure(e) => Failure(e)
    case Success(sel) =>
      match Open(sel.1, h, blob.payload.box)
      case None => Failure(OpenFailed)
      case Some(m) => Success((sel.0, m))
  }

  // The stored keys as an attempt leaves them, whether it succeeds or not; the key pair drawn
  // for a DH step does not matter to them.
  function Leftover(r: State, blob: Blob): map<SkipId, MessageKey> {
    if blob.Malformed? then r.skipped else
    var h := blob.payload.header;
    var a := Align(r, h.dh, r.selfKey);
    match Select(a, h.dh, h.n)
    case Failure(_) => a.skipped
    case Success(sel) => sel.0.skipped
  }

  // The snapshot holds the table of stored keys itself, not a copy of it: putting it back
  // restores every field but that one.
  function RolledBack(r: State, blob: Blob): State {
    r.(skipped := Leftover(r, blob))
  }
}
