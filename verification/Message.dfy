/** Inner messages, ratchet payloads and message ids. */
module Message {
  import opened Crypto

  const MESSAGE_TTL_MS: nat := 24 * 60 * 60 * 1000

  datatype Kind =
    | Text(body: string)
    | Receipt(messageId: MessageId)
    | Profile(profile: string)
    | Presence(presence: string)

  datatype InnerMessage = InnerMessage(
    conversation: string,
    device: string,
    seqNo: nat,
    createdAt: int,
    validUntil: int,
    kind: Kind)

  // The clear part of a ratchet payload; it is also the associated data.
  datatype Header = Header(dh: KeyId, prevN: nat, n: nat)

  // An AEAD ciphertext: it opens only under the same key and associated data.
  datatype Box = Box(key: MessageKey, aad: Header, plaintext: InnerMessage)

  datatype Payload = Payload(header: Header, box: Box)

  // What arrives from a mailbox: a parseable payload, or bytes with a bad length or magic.
  datatype Blob = Malformed | Framed(payload: Payload)

  // SHA-256 of the ciphertext, as a free constructor.
  datatype MessageId = MessageId(payload: Payload)

  function Open(key: MessageKey, aad: Header, box: Box): Option<InnerMessage> {
    if box.key == key && box.aad == aad then Some(box.plaintext) else None
  }

  predicate Expired(validUntil: int, now: int) {
    now > validUntil
  }

  // Text is the only kind that moves the receiver's chain; receipts are the only kind
  // that gives the sender's key back.
  predicate Auxiliary(k: Kind) {
    k.Profile? || k.Presence?
  }
}
