/** The Rust session (rust/yakr-core/src/session.rs). Its snapshots are clones, table of stored
    keys and all, so a message that is turned away leaves no trace. */
module RustSession {
  import opened Crypto
  import opened Message
  import opened RatchetState
  import opened SkippedKeys
  import O = SessionObject
  import R = Ratchet
  import S = Session

  // ---------- what any number of arrivals leaves ----------

  datatype Arrival = Arrival(blob: Blob, now: int, newKey: KeyId)

  function Hear(c: S.Contact, x: Arrival): Result<(S.Contact, InnerMessage), S.Error> {
    S.DecryptOuter(c, x.blob, x.now, x.newKey)
  }

  function AfterAll(c: S.Contact, xs: seq<Arrival>): S.Contact
    decreases |xs|
  {
    if xs == [] then c else
    match Hear(c, xs[0])
    case Failure(_) => AfterAll(c, xs[1..])
    case Success(cm) => AfterAll(cm.0, xs[1..])
  }

  // The arrivals that are accepted, and what they say.
  function Kept(c: S.Contact, xs: seq<Arrival>): seq<Arrival>
    decreases |xs|
  {
    if xs == [] then [] else
    match Hear(c, xs[0])
    case Failure(_) => Kept(c, xs[1..])
    case Success(cm) => [xs[0]] + Kept(cm.0, xs[1..])
  }

  function Said(c: S.Contact, xs: seq<Arrival>): seq<InnerMessage>
    decreases |xs|
  {
    if xs == [] then [] else
    match Hear(c, xs[0])
    case Failure(_) => Said(c, xs[1..])
    case Success(cm) => [cm.1] + Said(cm.0, xs[1..])
  }

  // Without the rejected ones the others are all accepted, and say and leave the same.
  lemma {:induction false} RejectedAreInvisible(c: S.Contact, xs: seq<Arrival>)
    ensures var kept := Kept(c, xs);
            && Kept(c, kept) == kept && Said(c, kept) == Said(c, xs) && AfterAll(c, kept) == AfterAll(c, xs)
            && |Said(c, kept)| == |kept|
    decreases |xs|
  {
    if xs != [] {
      if Hear(c, xs[0]).Success? {
        var next := Hear(c, xs[0]).value.0;
        RejectedAreInvisible(next, xs[1..]);
        assert Kept(c, xs)[1..] == Kept(next, xs[1..]);
      } else {
        RejectedAreInvisible(c, xs[1..]);
      }
    }
  }

  // Every stored key is the chain's own, for a position passed, under the peer key in use.
  ghost predicate Clean(q: R.State) {
    && q.recvChain.Some? && OnChain(q, q.recvChain.value.start)
    && forall id <- q.skipped :: q.peerKey == Some(id.dh) && id.n < q.recvN
  }

  lemma OpeningIsClean(q: R.State, blob: Blob, newKey: KeyId)
    requires Clean(q) && R.Decrypt(q, blob, newKey).Success?
    ensures Clean(R.Decrypt(q, blob, newKey).value.0)
  {
    var h := blob.payload.header;
    var a := R.Align(q, h.dh, newKey);
    assert OnChain(a, a.recvChain.value.start);
    if h.n < a.recvN {
      SelectBehind(a, a.recvChain.value.start, h.dh, h.n);
    } else {
      SelectAhead(a, a.recvChain.value.start, h.dh, h.n);
    }
  }

  lemma HearingIsClean(c: S.Contact, x: Arrival)
    requires Clean(c.ratchet) && Hear(c, x).Success?
    ensures Clean(Hear(c, x).value.0.ratchet)
  {
    OpeningIsClean(c.ratchet, x.blob, x.newKey);
  }

  // Whatever arrives, however often and in whatever order.
  lemma {:induction false} TableStaysClean(c: S.Contact, xs: seq<Arrival>)
    requires Clean(c.ratchet)
    ensures Clean(AfterAll(c, xs).ratchet)
    decreases |xs|
  {
    if xs != [] {
      if Hear(c, xs[0]).Success? {
        HearingIsClean(c, xs[0]);
        TableStaysClean(Hear(c, xs[0]).value.0, xs[1..]);
      } else {
        TableStaysClean(c, xs[1..]);
      }
    }
  }

  // ---------- the session ----------

  class Session {
    const contact: O.ContactRecord

    constructor (contact: O.ContactRecord)
      ensures this.contact == contact
    {
      this.contact := contact;
    }

    method RestoreRatchet(snapshot: Saved)
      requires Load(snapshot).Some?
      modifies contact
      ensures contact.Value() == old(contact.Value()).(ratchet := old(Load(snapshot)).value)
      ensures fresh(contact.ratchet) && fresh(contact.ratchet.skippedKeys)
    {
      contact.ratchet := new RatchetState.FromDict(snapshot);
    }

    method DecryptOuter(blob: Blob, now: int, newKey: KeyId) returns (res: Result<InnerMessage, S.Error>)
      modifies contact, contact.ratchet, contact.ratchet.skippedKeys
      ensures contact.ratchet == old(contact.ratchet) || fresh(contact.ratchet)
      ensures contact.ratchet.skippedKeys == old(contact.ratchet.skippedKeys) || fresh(contact.ratchet.skippedKeys)
      ensures match S.DecryptOuter(old(contact.Value()), blob, now, newKey)
              case Success(cm) => contact.Value() == cm.0 && res == Success(cm.1)
              case Failure(e) => contact.Value() == old(contact.Value()) && res == Failure(e)
      ensures res.Success? ==>
                && now <= res.value.validUntil && res.value.conversation == contact.conversation
                && res.value.seqNo == old(contact.lastRecvSeq) + 1 == contact.lastRecvSeq
    {
      var keys := new KeyTable(contact.ratchet.skippedKeys.keys);
      var snapshot := Save(contact.ratchet.Value(), keys);
      LoadUndoesSave(contact.ratchet.Value(), keys);
      var lastRecvBefore := contact.lastRecvSeq;
      var plain := contact.ratchet.DecryptCloned(blob, newKey);
      if plain.Failure? {
        return Failure(if plain.error == R.AlreadyReceived then S.DuplicateSeq else S.DecryptFailed);
      }
      var inner := plain.value;
      if inner.conversation != contact.conversation {
        RestoreRatchet(snapshot);
        return Failure(S.DecryptFailed);
      }
      if inner.seqNo <= lastRecvBefore {
        RestoreRatchet(snapshot);
        return Failure(S.DuplicateSeq);
      }
      if inner.seqNo != lastRecvBefore + 1 {
        RestoreRatchet(snapshot);
        return Failure(S.DuplicateSeq);
      }
      if Expired(inner.validUntil, now) {
        RestoreRatchet(snapshot);
        return Failure(S.MessageExpired);
      }
      contact.lastRecvSeq := inner.seqNo;
      res := Success(inner);
    }

    // Arrival after arrival: the record and the messages are those of the accepted ones alone.
    method DecryptEach(xs: seq<Arrival>) returns (said: seq<InnerMessage>)
      modifies contact, contact.ratchet, contact.ratchet.skippedKeys
      ensures contact.Value() == AfterAll(old(contact.Value()), xs) && said == Said(old(contact.Value()), xs)
      ensures contact.Value() == AfterAll(old(contact.Value()), Kept(old(contact.Value()), xs))
      ensures said == Said(old(contact.Value()), Kept(old(contact.Value()), xs))
    {
      ghost var c := contact.Value();
      said := [];
      for i := 0 to |xs|
        invariant contact.ratchet == old(contact.ratchet) || fresh(contact.ratchet)
        invariant contact.ratchet.skippedKeys == old(contact.ratchet.skippedKeys) || fresh(contact.ratchet.skippedKeys)
        invariant AfterAll(contact.Value(), xs[i..]) == AfterAll(c, xs)
        invariant said + Said(contact.Value(), xs[i..]) == Said(c, xs)
      {
        ghost var before := contact.Value();
        var heard := DecryptOuter(xs[i].blob, xs[i].now, xs[i].newKey);
        assert xs[i..][1..] == xs[i + 1..];
        if heard.Success? {
          ghost var rest := Said(contact.Value(), xs[i + 1..]);
          assert (said + [heard.value]) + rest == said + ([heard.value] + rest);
          said := said + [heard.value];
        }
      }
      assert xs[|xs|..] == [] && said + [] == said;
      RejectedAreInvisible(c, xs);
    }
  }
}
