/** The session object: a contact record whose ratchet is loaded anew from its snapshot whenever
    a message is turned away. The snapshot names the live table of stored keys, so what the
    attempt stored or cleared stays. */
module SessionObject {
  import opened Crypto
  import opened Message
  import R = Ratchet
  import S = Session
  import opened RatchetState

  class ContactRecord {
    const conversation: string
    var hybrid: bool
    var sessionStartedAt: int
    var nextSendSeq: nat
    var lastRecvSeq: nat
    var ratchet: RatchetState

    function Value(): S.Contact
      reads this, ratchet, ratchet.skippedKeys
    {
      S.Contact(conversation, hybrid, sessionStartedAt, nextSendSeq, lastRecvSeq, ratchet.Value())
    }

    constructor (conversation: string, hybrid: bool, startedAt: int, ratchet: RatchetState)
      ensures this.ratchet == ratchet
      ensures Value() == S.Contact(conversation, hybrid, startedAt, 1, 0, ratchet.Value())
    {
      this.conversation, this.hybrid, this.sessionStartedAt := conversation, hybrid, startedAt;
      this.nextSendSeq, this.lastRecvSeq, this.ratchet := 1, 0, ratchet;
    }

    constructor FromStore(c: S.Contact)
      ensures Value() == c && fresh(ratchet) && fresh(ratchet.skippedKeys)
    {
      var table := new KeyTable(c.ratchet.skipped);
      LoadUndoesSave(c.ratchet, table);
      var loaded := new RatchetState.FromDict(Save(c.ratchet, table));
      conversation, hybrid, sessionStartedAt := c.conversation, c.hybrid, c.sessionStartedAt;
      nextSendSeq, lastRecvSeq, ratchet := c.nextSendSeq, c.lastRecvSeq, loaded;
    }
  }

  class Session {
    const contact: ContactRecord

    constructor (contact: ContactRecord)
      ensures this.contact == contact
    {
      this.contact := contact;
    }

    // Text, profile, presence and receipt are sealed alike; only the draft differs.
    method Encrypt(d: S.Draft, now: int, newKey: KeyId) returns (res: Result<Payload, S.Error>)
      modifies contact, contact.ratchet
      ensures contact.ratchet == old(contact.ratchet) && contact.ratchet.skippedKeys == old(contact.ratchet.skippedKeys)
      ensures match S.Encrypt(old(contact.Value()), d, now, newKey)
              case Success(cp) => contact.Value() == cp.0 && res == Success(cp.1)
              case Failure(e) => contact.Value() == old(contact.Value()) && res == Failure(e)
      ensures res.Success? && contact.hybrid ==>
                now - contact.sessionStartedAt < 7 * 24 * 60 * 60 * 1000 && old(contact.nextSendSeq) < 10_000
      ensures res.Success? ==>
                res.value.box.plaintext == InnerMessage(contact.conversation, d.device, old(contact.nextSendSeq),
                                                        d.createdAt, d.validUntil, d.kind)
    {
      if contact.hybrid && (now - contact.sessionStartedAt >= S.PQ_REKEY_MAX_AGE_MS
                            || contact.nextSendSeq >= S.PQ_REKEY_MAX_MESSAGES) {
        return Failure(S.RekeyRequired);
      }
      var seqNo := contact.nextSendSeq;
      var inner := InnerMessage(contact.conversation, d.device, seqNo, d.createdAt, d.validUntil, d.kind);
      var sealed := contact.ratchet.Encrypt(inner, newKey);
      if sealed.Failure? {
        return Failure(S.SendChainMissing);
      }
      contact.nextSendSeq := contact.nextSendSeq + 1;
      res := Success(sealed.value);
    }

    // Put the ratchet back: a new one, from the snapshot and the table as it has become.
    method Rollback(before: Saved)
      requires Load(before).Some?
      modifies contact
      ensures contact.Value() == old(contact.Value()).(ratchet := old(Load(before)).value)
      ensures fresh(contact.ratchet) && fresh(contact.ratchet.skippedKeys)
    {
      contact.ratchet := new RatchetState.FromDict(before);
    }

    method DecryptOuter(blob: Blob, now: int, newKey: KeyId) returns (res: Result<InnerMessage, S.Error>)
      modifies contact, contact.ratchet, contact.ratchet.skippedKeys
      ensures contact.ratchet == old(contact.ratchet) || fresh(contact.ratchet)
      ensures contact.ratchet.skippedKeys == old(contact.ratchet.skippedKeys) || fresh(contact.ratchet.skippedKeys)
      ensures old(contact.ratchet.skippedKeys).keys == R.Leftover(old(contact.ratchet.Value()), blob)
      ensures match S.DecryptOuter(old(contact.Value()), blob, now, newKey)
              case Success(cm) => contact.Value() == cm.0 && res == Success(cm.1)
              case Failure(e) => contact.Value() == S.AfterTrial(old(contact.Value()), blob) && res == Failure(e)
      ensures res.Success? ==>
                && now <= res.value.validUntil && res.value.conversation == contact.conversation
                && res.value.seqNo == old(contact.lastRecvSeq) + 1 == contact.lastRecvSeq
    {
      var ratchetBefore := contact.ratchet.ToDict();
      LoadUndoesSave(contact.ratchet.Value(), contact.ratchet.skippedKeys);
      var lastRecvBefore := contact.lastRecvSeq;
      var plain := contact.ratchet.Decrypt(blob, newKey);
      if plain.Failure? {
        return Failure(if plain.error == R.AlreadyReceived then S.DuplicateSeq else S.DecryptFailed);
      }
      LoadUndoesSave(old(contact.ratchet.Value()), ratchetBefore.skippedKeys);
      var inner := plain.value;
      if inner.conversation != contact.conversation {
        Rollback(ratchetBefore);
        return Failure(S.DecryptFailed);
      }
      if inner.seqNo <= lastRecvBefore {
        Rollback(ratchetBefore);
        return Failure(S.DuplicateSeq);
      }
      if inner.seqNo != lastRecvBefore + 1 {
        Rollback(ratchetBefore);
        return Failure(S.DuplicateSeq);
      }
      if Expired(inner.validUntil, now) {
        Rollback(ratchetBefore);
        return Failure(S.MessageExpired);
      }
      contact.lastRecvSeq := inner.seqNo;
      res := Success(inner);
    }

    method DecryptInbound(blob: Blob, now: int, newKey: KeyId) returns (res: Result<InnerMessage, S.Error>)
      modifies contact, contact.ratchet, contact.ratchet.skippedKeys
      ensures contact.ratchet == old(contact.ratchet) || fresh(contact.ratchet)
      ensures contact.ratchet.skippedKeys == old(contact.ratchet.skippedKeys) || fresh(contact.ratchet.skippedKeys)
      ensures match S.DecryptInbound(old(contact.Value()), blob, now, newKey)
              case Success(cm) => contact.Value() == cm.0 && res == Success(cm.1)
              case Failure(e) => contact.Value() == S.AfterTrial(old(contact.Value()), blob) && res == Failure(e)
      ensures res.Success? ==>
                && now <= res.value.validUntil && res.value.conversation == contact.conversation
                && res.value.seqNo == old(contact.lastRecvSeq) + 1 == contact.lastRecvSeq
    {
      var ratchetBefore := contact.ratchet.ToDict();
      res := DecryptOuter(blob, now, newKey);
      if res.Success? && !res.value.kind.Text? {
        LoadUndoesSave(old(contact.ratchet.Value()), ratchetBefore.skippedKeys);
        Rollback(ratchetBefore);
      }
    }
  }
}
