/** The session layer (yakr_core/session.py): sequence numbers, expiry and the in-order gate,
    as functions on one contact's saved record. */
module Session {
  import opened Crypto
  import opened Message
  import R = Ratchet

  const PQ_REKEY_MAX_MESSAGES: nat := 10_000
  const PQ_REKEY_MAX_AGE_MS: nat := 7 * 24 * 60 * 60 * 1000

  datatype Contact = Contact(
    conversation: string,
    hybrid: bool,
    sessionStartedAt: int,
    nextSendSeq: nat,
    lastRecvSeq: nat,
    ratchet: R.State)

  datatype Error =
    | RekeyRequired
    | SendChainMissing
    | DuplicateSeq
    | DecryptFailed
    | MessageExpired

  predicate NeedsRekey(c: Contact, now: int) {
    c.hybrid && (now - c.sessionStartedAt >= PQ_REKEY_MAX_AGE_MS || c.nextSendSeq >= PQ_REKEY_MAX_MESSAGES)
  }

  // What the caller chooses about a message; the session adds the rest.
  datatype Draft = Draft(device: string, kind: Kind, createdAt: int, validUntil: int)

  function Compose(c: Contact, d: Draft): InnerMessage {
    InnerMessage(c.conversation, d.device, c.nextSendSeq, d.createdAt, d.validUntil, d.kind)
  }

  // Seal a message under the ratchet's next key and take a sequence number.
  function Encrypt(c: Contact, d: Draft, now: int, newKey: KeyId): Result<(Contact, Payload), Error> {
    if NeedsRekey(c, now) then Failure(RekeyRequired) else
    match R.Encrypt(c.ratchet, Compose(c, d), newKey)
    case Failure(_) => Failure(SendChainMissing)
    case Success(sp) => Success((c.(ratchet := sp.0, nextSendSeq := c.nextSendSeq + 1), sp.1))
  }

  // A receipt gives the key it used back: only its sequence number is spent.
  function EncryptReceipt(c: Contact, d: Draft, now: int, newKey: KeyId): Result<(Contact, Payload), Error> {
    match Encrypt(c, d, now, newKey)
    case Failure(e) => Failure(e)
    case Success(cp) => Success((cp.0.(ratchet := c.ratchet), cp.1))
  }

  // Accept only the next sequence number. On a failure the caller keeps its contact, but for
  // the stored keys: see AfterTrial.
  function DecryptOuter(c: Contact, blob: Blob, now: int, newKey: KeyId): Result<(Contact, InnerMessage), Error> {
    match R.Decrypt(c.ratchet, blob, newKey)
    case Failure(e) => Failure(if e == R.AlreadyReceived then DuplicateSeq else DecryptFailed)
    case Success(sm) =>
      var m := sm.1;
      if m.conversation != c.conversation then Failure(DecryptFailed)
      else if m.seqNo <= c.lastRecvSeq then Failure(DuplicateSeq)
      else if m.seqNo != c.lastRecvSeq + 1 then Failure(DuplicateSeq)
      else if Expired(m.validUntil, now) then Failure(MessageExpired)
      else Success((c.(ratchet := sm.0, lastRecvSeq := m.seqNo), m))
  }

  // The record after a message was turned away.
  function AfterTrial(c: Contact, blob: Blob): Contact {
    c.(ratchet := R.RolledBack(c.ratchet, blob))
  }

  // Only text moves the receive chain; the rest leaves the ratchet rolled back.
  function DecryptInbound(c: Contact, blob: Blob, now: int, newKey: KeyId): Result<(Contact, InnerMessage), Error> {
    match DecryptOuter(c, blob, now, newKey)
    case Failure(e) => Failure(e)
    case Success(cm) =>
      if cm.1.kind.Text? then Success(cm) else Success((cm.0.(ratchet := R.RolledBack(c.ratchet, blob)), cm.1))
  }
}
