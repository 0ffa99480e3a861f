/** The two completions as they run: a ratchet object is made from the master secret, set up
    for the first message in each direction, and put into the record of a new contact. */
module PairingObject {
  import opened Crypto
  import opened Pairing
  import opened RatchetState
  import opened SessionObject

  // What pairing keeps of the peer, beside the record the session works on.
  class PairedRecord {
    const name: string
    const signing: KeyId
    const agreement: KeyId
    const master: Master
    const contactId: Digest
    const transcript: Digest
    const contact: ContactRecord

    constructor (name: string, signing: KeyId, agreement: KeyId, master: Master, transcript: Digest,
                 contact: ContactRecord)
      ensures this.contact == contact
      ensures Value() ==
              PairedContact(name, signing, agreement, master, ContactId(signing, agreement), transcript,
                            contact.Value())
    {
      this.name, this.signing, this.agreement, this.master := name, signing, agreement, master;
      this.contactId, this.transcript, this.contact := ContactId(signing, agreement), transcript, contact;
    }

    function Value(): PairedContact
      reads contact, contact.ratchet, contact.ratchet.skippedKeys
    {
      PairedContact(name, signing, agreement, master, contactId, transcript, contact.Value())
    }
  }

  method InviterCompletePairing(inviter: Identity, i: Invite, q: Request, ephemeral: KeyId, ratchetKey: KeyId, now: int)
    returns (res: Result<(Response, PairedRecord), Error>)
    ensures match InviterComplete(inviter, i, q, ephemeral, ratchetKey, now)
            case Failure(e) => res == Failure(e)
            case Success(done) =>
              && res.Success? && res.value.0 == done.0
              && fresh(res.value.1) && fresh(res.value.1.contact) && fresh(res.value.1.contact.ratchet)
              && res.value.1.Value() == done.1
  {
    var transcript := Transcript(i, q, ephemeral, Some(ratchetKey));
    if transcript.Failure? {
      return Failure(transcript.error);
    }
    var pq, hybrid := None, false;
    if SupportsHybrid(i) {
      if inviter.kem.None? {
        return Failure(InviterMissingKemKey);
      }
      pq, hybrid := Some(KemDecapsulate(inviter.kem.value, q.kem.value)), true;
    }
    var master := DeriveMaster(DH(inviter.agreement, q.agreement), DH(ephemeral, q.ephemeral), pq, transcript.value);
    var ratchet := new RatchetState.FromMaster(master, true, hybrid, ratchetKey);
    ratchet.pendingPeer := q.ratchet;
    var contact := new ContactRecord(ConversationId(inviter.name, q.joinerName), hybrid, now, ratchet);
    var paired := new PairedRecord(q.joinerName, q.signing, q.agreement, master, transcript.value, contact);
    res := Success((Response(ephemeral, Some(ratchetKey), transcript.value), paired));
  }

  method JoinerCompletePairing(joiner: Identity, i: Invite, q: Request, s: Secrets, resp: Response, now: int)
    returns (res: Result<PairedRecord, Error>)
    ensures match JoinerComplete(joiner, i, q, s, resp, now)
            case Failure(e) => res == Failure(e)
            case Success(done) =>
              && res.Success? && fresh(res.value) && fresh(res.value.contact) && fresh(res.value.contact.ratchet)
              && res.value.Value() == done
  {
    var transcript := Transcript(i, q, resp.ephemeral, resp.ratchet);
    if transcript.Failure? {
      return Failure(transcript.error);
    }
    if resp.transcript != transcript.value {
      return Failure(TranscriptMismatch);
    }
    if resp.ratchet.None? {
      return Failure(MissingInviterRatchetKey);
    }
    var hybrid := SupportsHybrid(i);
    var pq := if hybrid then s.pq else None;
    if hybrid && pq.None? {
      return Failure(MissingPqSecret);
    }
    var master := DeriveMaster(DH(joiner.agreement, i.agreement), DH(s.ephemeral, resp.ephemeral), pq, resp.transcript);
    var ratchet := new RatchetState.FromMaster(master, false, hybrid, s.ratchet);
    ratchet.PairingRecvInit(resp.ratchet.value);
    var contact := new ContactRecord(ConversationId(i.inviterName, joiner.name), hybrid, now, ratchet);
    var paired := new PairedRecord(i.inviterName, i.signing, i.agreement, master, transcript.value, contact);
    res := Success(paired);
  }
}
