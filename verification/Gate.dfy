/** The two gates of a session, in terms of the message and the record alone: when what opens is
    accepted, and when anything is sealed. */
module Gate {
  import opened Crypto
  import opened Message
  import opened Log
  import opened TwoParty
  import opened Acceptance
  import opened Opening
  import opened Preservation
  import Runs
  import R = Ratchet
  import S = Session

  // ---------- receiving ----------

  // What opens is accepted if and only if it names the conversation, carries the next number, and
  // its last valid millisecond has not passed; and the first of these that fails is reported.
  lemma GateIsExact(c: S.Contact, blob: Blob, now: int, k: KeyId)
    requires R.Decrypt(c.ratchet, blob, k).Success?
    ensures var (q, m) := R.Decrypt(c.ratchet, blob, k).value;
            var outer, inbound := S.DecryptOuter(c, blob, now, k), S.DecryptInbound(c, blob, now, k);
            && (outer.Success? <==>
                m.conversation == c.conversation && m.seqNo == c.lastRecvSeq + 1 && now <= m.validUntil)
            && (outer.Success? ==> outer.value == (c.(ratchet := q, lastRecvSeq := c.lastRecvSeq + 1), m))
            && (outer.Failure? ==>
                  outer.error == if m.conversation != c.conversation then S.DecryptFailed
                                 else if m.seqNo != c.lastRecvSeq + 1 then S.DuplicateSeq
                                 else S.MessageExpired)
            && (inbound.Success? <==> outer.Success?)
            && (inbound.Success? ==>
                  && inbound.value.1 == m && inbound.value.0.lastRecvSeq == c.lastRecvSeq + 1
                  && (m.kind.Text? ==> inbound.value.0 == outer.value.0)
                  && (!m.kind.Text? ==>
                        inbound.value.0 ==
                        c.(ratchet := R.RolledBack(c.ratchet, blob), lastRecvSeq := c.lastRecvSeq + 1)))
            && (inbound.Failure? ==> inbound.error == outer.error)
  {
  }

  // What does not open under the key on record is reported as a duplicate if its number was passed and
  // its key is not stored, and so kept for later, and else as undecipherable.
  lemma ClosedIsExact(c: S.Contact, blob: Blob, now: int, k: KeyId)
    requires c.ratchet.recvChain.Some? && R.Decrypt(c.ratchet, blob, k).Failure?
    requires blob.Framed? ==> c.ratchet.peerKey == Some(blob.payload.header.dh)
    ensures var h := if blob.Framed? then blob.payload.header else Header(0, 0, 0);
            var passed := blob.Framed? && h.n < c.ratchet.recvN && R.SkipId(h.dh, h.n) !in c.ratchet.skipped;
            var res := Failure(if passed then S.DuplicateSeq else S.DecryptFailed);
            S.DecryptOuter(c, blob, now, k) == res && S.DecryptInbound(c, blob, now, k) == res
  {
    FailuresAreExact(c.ratchet, blob, k);
  }

  // Against any blob: accepted messages are in time, in turn and of the conversation.
  lemma AcceptedIsInTime(c: S.Contact, blob: Blob, now: int, k: KeyId)
    requires S.DecryptInbound(c, blob, now, k).Success?
    ensures var m := S.DecryptInbound(c, blob, now, k).value.1;
            now <= m.validUntil && m.seqNo == c.lastRecvSeq + 1 && m.conversation == c.conversation
  {
    assert R.Decrypt(c.ratchet, blob, k).Success?;
    GateIsExact(c, blob, now, k);
  }

  // The last millisecond counts: the next message, within the limits, is accepted at it and refused
  // as expired right after.
  lemma LastMillisecond(sys: System, r: Role, k: KeyId)
    requires Inv(sys) && HasNext(sys, r) && NextBacklog(sys, r) <= 128 && NextHeld(sys, r) <= 256
    ensures var c, p := sys.Get(r).contact, NextSlot(sys, r).payload;
            var until := p.box.plaintext.validUntil;
            && S.DecryptInbound(c, Framed(p), until, k).Success?
            && S.DecryptInbound(c, Framed(p), until + 1, k) == Failure(S.MessageExpired)
  {
    NextIsStamped(sys, r);
    NextOpens(sys, r, k);
    var c, p := sys.Get(r).contact, NextSlot(sys, r).payload;
    GateIsExact(c, Framed(p), p.box.plaintext.validUntil, k);
    GateIsExact(c, Framed(p), p.box.plaintext.validUntil + 1, k);
  }

  // ---------- sealing ----------

  // A contact with a chain to send on seals unless its session is hybrid and seven days old or at
  // its ten thousandth number, and what it seals is what it was given, under its next number.
  lemma SealIsExact(c: S.Contact, d: S.Draft, now: int, k: KeyId)
    requires c.ratchet.pendingPeer.Some? || c.ratchet.sendChain.Some?
    ensures var res := S.Encrypt(c, d, now, k);
            && (res.Success? <==>
                !c.hybrid || (now - c.sessionStartedAt < 7 * 24 * 60 * 60 * 1000 && c.nextSendSeq < 10_000))
            && (res.Failure? ==> res.error == S.RekeyRequired)
            && (res.Success? ==> SealsAsGiven(c, d, res.value.0, res.value.1))
    ensures var res := S.EncryptReceipt(c, d, now, k);
            && (res.Success? <==> S.Encrypt(c, d, now, k).Success?)
            && (res.Success? ==> res.value.0 == c.(nextSendSeq := c.nextSendSeq + 1)
                                 && res.value.1 == S.Encrypt(c, d, now, k).value.1)
  {
  }

  predicate SealsAsGiven(c: S.Contact, d: S.Draft, e: S.Contact, p: Payload) {
    var m := p.box.plaintext;
    && m.conversation == c.conversation && m.device == d.device && m.seqNo == c.nextSendSeq && m.kind == d.kind
    && m.createdAt == d.createdAt && m.validUntil == d.validUntil && p.box.aad == p.header
    && e == c.(ratchet := e.ratchet, nextSendSeq := c.nextSendSeq + 1)
  }

  lemma SealedIsFresh(c: S.Contact, d: S.Draft, now: int, k: KeyId)
    requires c.hybrid && (S.Encrypt(c, d, now, k).Success? || S.EncryptReceipt(c, d, now, k).Success?)
    ensures now < c.sessionStartedAt + 7 * 24 * 60 * 60 * 1000 && c.nextSendSeq < 10_000
  {
  }

  // ---------- sealing over runs ----------

  predicate Sends(step: Step, r: Role) {
    (step.SendMessage? || step.SendReceipt?) && step.role == r
  }

  ghost predicate SendsFrom(steps: seq<Step>, r: Role, time: int) {
    forall i | 0 <= i < |steps| && Sends(steps[i], r) :: steps[i].now >= time
  }

  // The session is the same one.
  predicate SameSession(a: System, b: System, r: Role) {
    && b.Get(r).contact.hybrid == a.Get(r).contact.hybrid
    && b.Get(r).contact.sessionStartedAt == a.Get(r).contact.sessionStartedAt
  }

  lemma ReceiveKeepsSession(sys: System, r: Role, blob: Blob, now: int, k: KeyId, s: Role)
    ensures var next := Apply(sys, Receive(r, blob, now, k));
            SameSession(sys, next, s) && next.Get(s).log == sys.Get(s).log
  {
  }

  // What a step adds to a log: a message sealed in time and in number, or no message.
  lemma StepAdds(sys: System, step: Step, r: Role)
    ensures var next := Apply(sys, step);
            && SameSession(sys, next, r) && sys.Get(r).log <= next.Get(r).log
            && |next.Get(r).log| <= |sys.Get(r).log| + 1
            && (|next.Get(r).log| > |sys.Get(r).log| && next.Get(r).log[|sys.Get(r).log|].Sent? ==>
                  Sends(step, r) && MaySeal(sys.Get(r).contact, step.now))
  {
    match step
    case SendMessage(s, d, now, k) => SendAdds(sys, s, d, now, k, r);
    case SendReceipt(s, d, now, k) => ReceiptAdds(sys, s, d, now, k, r);
    case LoseNumber(_) =>
    case Receive(s, blob, now, k) => ReceiveKeepsSession(sys, s, blob, now, k, r);
    case Reload(_, _) =>
  }

  predicate MaySeal(c: S.Contact, now: int) {
    c.hybrid ==> now < c.sessionStartedAt + 7 * 24 * 60 * 60 * 1000 && c.nextSendSeq < 10_000
  }

  lemma SendAdds(sys: System, s: Role, d: S.Draft, now: int, k: KeyId, r: Role)
    ensures var next := Apply(sys, SendMessage(s, d, now, k));
            && SameSession(sys, next, r) && sys.Get(r).log <= next.Get(r).log
            && |next.Get(r).log| <= |sys.Get(r).log| + 1
            && (|next.Get(r).log| > |sys.Get(r).log| ==> s == r && MaySeal(sys.Get(r).contact, now))
  {
    if S.Encrypt(sys.Get(s).contact, d, now, k).Success? && sys.Get(s).contact.hybrid {
      SealedIsFresh(sys.Get(s).contact, d, now, k);
    }
  }

  lemma ReceiptAdds(sys: System, s: Role, d: S.Draft, now: int, k: KeyId, r: Role)
    ensures var next := Apply(sys, SendReceipt(s, d, now, k));
            && SameSession(sys, next, r) && sys.Get(r).log <= next.Get(r).log
            && |next.Get(r).log| <= |sys.Get(r).log| + 1
            && (|next.Get(r).log| > |sys.Get(r).log| ==> s == r && MaySeal(sys.Get(r).contact, now))
  {
    if S.EncryptReceipt(sys.Get(s).contact, d, now, k).Success? && sys.Get(s).contact.hybrid {
      SealedIsFresh(sys.Get(s).contact, d, now, k);
    }
  }

  // In every run in which a hybrid side seals at seven days or later, nothing more enters its log but
  // numbers that were lost.
  lemma {:induction false} AgedSessionIsSilent(sys: System, steps: seq<Step>, r: Role)
    requires sys.Get(r).contact.hybrid
    requires SendsFrom(steps, r, sys.Get(r).contact.sessionStartedAt + 7 * 24 * 60 * 60 * 1000)
    ensures var log, more := sys.Get(r).log, Runs.After(sys, steps).Get(r).log;
            log <= more && forall i | |log| <= i < |more| :: more[i].Hole?
    decreases |steps|
  {
    if steps != [] {
      StepAdds(sys, steps[0], r);
      forall i | 0 <= i < |steps[1..]| && Sends(steps[1..][i], r)
        ensures steps[1..][i].now >= sys.Get(r).contact.sessionStartedAt + 7 * 24 * 60 * 60 * 1000
      {
        assert Sends(steps[i + 1], r);
      }
      AgedSessionIsSilent(Apply(sys, steps[0]), steps[1..], r);
    }
  }

  ghost predicate Numbered(sys: System, r: Role) {
    sys.Get(r).contact.hybrid ==> forall i | 0 <= i < |sys.Get(r).log| && sys.Get(r).log[i].Sent? :: i + 1 < 10_000
  }

  lemma StepStaysLow(sys: System, step: Step, r: Role)
    requires sys.Get(r).contact.nextSendSeq == |sys.Get(r).log| + 1 && Numbered(sys, r)
    ensures Numbered(Apply(sys, step), r)
  {
    StepAdds(sys, step, r);
  }

  lemma CounterIs(sys: System, r: Role)
    requires Inv(sys)
    ensures sys.Get(r).contact.nextSendSeq == |sys.Get(r).log| + 1
  {
    SeeSide(sys, r);
  }

  // And in every run of a hybrid session each message sent has a number under ten thousand.
  lemma {:induction false} NumbersStayLow(sys: System, steps: seq<Step>, r: Role)
    requires Inv(sys) && Runs.Run(sys, steps) && Numbered(sys, r)
    ensures Numbered(Runs.After(sys, steps), r)
    decreases |steps|
  {
    if steps != [] {
      CounterIs(sys, r);
      StepStaysLow(sys, steps[0], r);
      StepKeepsInv(sys, steps[0]);
      NumbersStayLow(Apply(sys, steps[0]), steps[1..], r);
    }
  }
}
