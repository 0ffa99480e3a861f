/** Every step of the two-party system keeps the invariant. */
module Preservation {
  import opened Crypto
  import opened Message
  import opened KeySchedule
  import opened Log
  import opened SkippedKeys
  import opened TwoParty
  import opened Opening
  import opened Acceptance
  import R = Ratchet
  import S = Session

  // ---------- what does not change ----------

  // A new key at the end of the schedule disturbs nothing already placed in it.
  lemma ExtendKeepsSends(sch: Schedule, r: Role, s: Side, k: KeyId)
    requires Wired(sch) && Sends(sch, r, s) && !Pending(s) && CursorAfter(First(r), s.log).epoch == s.epoch
    ensures Sends(sch.Extend(k), r, s)
  {
    sch.ExtendKeeps(k);
  }

  lemma ExtendKeepsReceives(sch: Schedule, r: Role, s: Side, peer: seq<Slot>, k: KeyId)
    requires Wired(sch) && Receives(sch, r, s, peer)
    ensures Receives(sch.Extend(k), r, s, peer)
  {
    sch.ExtendKeeps(k);
  }

  lemma ExtendKeepsSeals(sch: Schedule, nextKey: nat, r: Role, s: Side, k: KeyId)
    requires Wired(sch) && AllSealed(sch, nextKey, r, s) && k >= nextKey
    ensures AllSealed(sch.Extend(k), k + 1, r, s)
  {
    var longer, bound := sch.Extend(k), k + 1;
    sch.ExtendKeeps(k);
    forall i | 0 <= i < |s.log| ensures WellSealed(longer, bound, r, s, i) {
      assert WellSealed(sch, nextKey, r, s, i);
    }
  }

  // The receiver does not see what is appended behind its position.
  lemma PeerAppendKeepsReceives(sch: Schedule, r: Role, s: Side, peer: seq<Slot>, slot: Slot)
    requires Wired(sch) && Receives(sch, r, s, peer)
    ensures Receives(sch, r, s, peer + [slot])
  {
    var k := s.contact.lastRecvSeq;
    assert (peer + [slot])[..k] == peer[..k];
  }

  lemma AppendSeals(sch: Schedule, nextKey: nat, r: Role, s: Side, t: Side, slot: Slot)
    requires Wired(sch) && AllSealed(sch, nextKey, r, s)
    requires t.log == s.log + [slot] && t.contact.conversation == s.contact.conversation
    requires t.epoch == s.epoch || s.epoch == 0
    requires t.epoch < |sch.keys|
    requires WellSealed(sch, nextKey, r, t, |s.log|)
    ensures AllSealed(sch, nextKey, r, t)
  {
    forall i | 0 <= i < |t.log| ensures WellSealed(sch, nextKey, r, t, i) {
      if i < |s.log| {
        assert WellSealed(sch, nextKey, r, s, i);
      }
    }
  }

  // The receiving half is untouched when the receive fields and the records of what was
  // accepted are.
  predicate SameReceiving(s: Side, t: Side) {
    var q, u := s.contact.ratchet, t.contact.ratchet;
    && RecvEpoch(t) == RecvEpoch(s) && Pending(t) == Pending(s) && t.epoch == s.epoch
    && u.peerKey == q.peerKey && u.recvChain == q.recvChain && u.recvN == q.recvN && u.skipped == q.skipped
    && t.contact.lastRecvSeq == s.contact.lastRecvSeq && t.accepted == s.accepted
  }

  lemma SameReceivingKeeps(sch: Schedule, r: Role, s: Side, t: Side, peer: seq<Slot>)
    requires Wired(sch) && Receives(sch, r, s, peer) && SameReceiving(s, t)
    ensures Receives(sch, r, t, peer)
  {
  }

  lemma NextKeyKeepsSeals(sch: Schedule, nextKey: nat, bound: nat, r: Role, s: Side)
    requires Wired(sch) && AllSealed(sch, nextKey, r, s) && nextKey <= bound
    ensures AllSealed(sch, bound, r, s)
  {
    forall i | 0 <= i < |s.log| ensures WellSealed(sch, bound, r, s, i) {
      assert WellSealed(sch, nextKey, r, s, i);
    }
  }

  // ---------- sending ----------

  // One side appends a slot; schedule, epochs and everything about receiving stay.
  lemma AppendKeepsInv(sys: System, next: System, r: Role, slot: Slot)
    requires Inv(sys)
    requires next.schedule == sys.schedule && next.nextKey >= sys.nextKey
    requires next.Get(Other(r)) == sys.Get(Other(r))
    requires next.Get(r).log == sys.Get(r).log + [slot]
    requires next.Get(r).contact.conversation == sys.Get(r).contact.conversation
    requires SameReceiving(sys.Get(r), next.Get(r))
    requires Sends(sys.schedule, r, next.Get(r))
    requires WellSealed(sys.schedule, next.nextKey, r, next.Get(r), |sys.Get(r).log|)
    ensures Inv(next)
  {
    var s, t, sch := sys.Get(r), next.Get(r), sys.schedule;
    assert SideInv(sys, r) && SideInv(sys, Other(r));
    NextKeyKeepsSeals(sch, sys.nextKey, next.nextKey, r, s);
    NextKeyKeepsSeals(sch, sys.nextKey, next.nextKey, Other(r), sys.Get(Other(r)));
    AppendSeals(sch, next.nextKey, r, s, t, slot);
    SameReceivingKeeps(sch, r, s, t, sys.Get(Other(r)).log);
    PeerAppendKeepsReceives(sch, Other(r), sys.Get(Other(r)), s.log, slot);
    assert SideInv(next, r) && SideInv(next, Other(r));
  }

  lemma SteadyEncrypt(c: S.Contact, d: S.Draft, now: int, k: KeyId)
    requires c.ratchet.pendingPeer.None? && S.Encrypt(c, d, now, k).Success?
    ensures var (e, p) := S.Encrypt(c, d, now, k).value;
            var q := c.ratchet;
            && q.sendChain.Some?
            && p.header.dh == q.selfKey && p.header.n == q.sendN
            && p.box == Box(MessageKey(q.sendChain.value.start, q.sendChain.value.steps), p.header, S.Compose(c, d))
            && e == c.(ratchet := e.ratchet, nextSendSeq := c.nextSendSeq + 1)
            && e.ratchet == q.(sendN := q.sendN + 1,
                               sendChain := Some(ChainKey(q.sendChain.value.start, q.sendChain.value.steps + 1)))
  {
  }

  lemma SendAdvances(sch: Schedule, r: Role, s: Side, t: Side, slot: Slot)
    requires Wired(sch) && Sends(sch, r, s) && !Pending(s) && !Pending(t)
    requires slot.Sent? && slot.at == At(s.epoch, s.contact.ratchet.sendN)
    requires t.epoch == s.epoch && t.log == s.log + [slot]
    requires t.contact.nextSendSeq == s.contact.nextSendSeq + 1
    requires var q, u := s.contact.ratchet, t.contact.ratchet;
             && u.selfKey == q.selfKey && u.rootKey == q.rootKey
             && u.sendN == q.sendN + (if slot.payload.box.plaintext.kind.Receipt? then 0 else 1)
             && u.sendChain == Some(ChainKey(sch.Chain(s.epoch), u.sendN))
    ensures Sends(sch, r, t)
  {
    AppendInOrder(First(r), s.log, slot);
  }

  // What a steady side becomes when it seals one message: text, profile and presence keep
  // the advanced chain, a receipt gives it back.
  function AfterSteadySend(s: Side, p: Payload): Side {
    var q := s.contact.ratchet;
    var u := if p.box.plaintext.kind.Receipt? || q.sendChain.None? then q
             else q.(sendN := q.sendN + 1,
                     sendChain := Some(ChainKey(q.sendChain.value.start, q.sendChain.value.steps + 1)));
    s.(contact := s.contact.(ratchet := u, nextSendSeq := s.contact.nextSendSeq + 1),
       log := s.log + [Sent(p, At(s.epoch, p.header.n))])
  }

  lemma SteadySide(sch: Schedule, nextKey: nat, r: Role, s: Side, p: Payload)
    requires Wired(sch) && Sends(sch, r, s) && !Pending(s)
    requires var q := s.contact.ratchet;
             && p.header.dh == q.selfKey && p.header.n == q.sendN
             && p.box.aad == p.header
             && p.box.key == MessageKey(q.sendChain.value.start, q.sendChain.value.steps)
             && p.box.plaintext.seqNo == s.contact.nextSendSeq
             && p.box.plaintext.conversation == s.contact.conversation
    ensures var t := AfterSteadySend(s, p);
            && Sends(sch, r, t) && SameReceiving(s, t)
            && WellSealed(sch, nextKey, r, t, |s.log|)
  {
    SendAdvances(sch, r, s, AfterSteadySend(s, p), Sent(p, At(s.epoch, p.header.n)));
  }

  lemma SteadyKeeps(sys: System, r: Role, p: Payload)
    requires Inv(sys) && !Pending(sys.Get(r))
    requires var c := sys.Get(r).contact;
             var q := c.ratchet;
             && q.sendChain.Some?
             && p.header.dh == q.selfKey && p.header.n == q.sendN
             && p.box.aad == p.header
             && p.box.key == MessageKey(q.sendChain.value.start, q.sendChain.value.steps)
             && p.box.plaintext.seqNo == c.nextSendSeq && p.box.plaintext.conversation == c.conversation
    ensures Inv(sys.Put(r, AfterSteadySend(sys.Get(r), p)))
  {
    var s := sys.Get(r);
    assert SideInv(sys, r);
    SteadySide(sys.schedule, sys.nextKey, r, s, p);
    AppendKeepsInv(sys, sys.Put(r, AfterSteadySend(s, p)), r, Sent(p, At(s.epoch, p.header.n)));
  }

  lemma SteadySendIs(sys: System, r: Role, d: S.Draft, now: int, k: KeyId)
    requires !Pending(sys.Get(r)) && !d.kind.Receipt? && S.Encrypt(sys.Get(r).contact, d, now, k).Success?
    ensures Apply(sys, SendMessage(r, d, now, k)) ==
            sys.Put(r, AfterSteadySend(sys.Get(r), S.Encrypt(sys.Get(r).contact, d, now, k).value.1))
  {
    SteadyEncrypt(sys.Get(r).contact, d, now, k);
  }

  // A steady side seals under its current key.
  lemma SteadySendKeeps(sys: System, r: Role, d: S.Draft, now: int, k: KeyId)
    requires Inv(sys) && !Pending(sys.Get(r)) && !d.kind.Receipt?
    ensures Inv(Apply(sys, SendMessage(r, d, now, k)))
  {
    var c := sys.Get(r).contact;
    if S.Encrypt(c, d, now, k).Success? {
      SteadyEncrypt(c, d, now, k);
      SteadyKeeps(sys, r, S.Encrypt(c, d, now, k).value.1);
      SteadySendIs(sys, r, d, now, k);
    }
  }

  lemma SteadyReceiptKeeps(sys: System, r: Role, d: S.Draft, now: int, k: KeyId)
    requires Inv(sys) && !Pending(sys.Get(r)) && d.kind.Receipt?
    ensures Inv(Apply(sys, SendReceipt(r, d, now, k)))
  {
    var c := sys.Get(r).contact;
    if S.Encrypt(c, d, now, k).Success? {
      SteadyEncrypt(c, d, now, k);
      SteadyKeeps(sys, r, S.Encrypt(c, d, now, k).value.1);
    }
  }

  // ---------- the inviter's first message ----------

  // The first encryption takes the pairing step: two agreements with the joiner's key, the
  // second with a new key of its own.
  lemma PendingEncrypt(c: S.Contact, d: S.Draft, now: int, k: KeyId)
    requires c.ratchet.pendingPeer.Some? && S.Encrypt(c, d, now, k).Success?
    ensures var (e, p) := S.Encrypt(c, d, now, k).value;
            var q, peer := c.ratchet, c.ratchet.pendingPeer.value;
            var root := RootKdf(q.rootKey, DH(q.selfKey, peer));
            var chain := ChainKdf(root, DH(k, peer));
            && p.header.dh == k && p.header.n == 0
            && p.box == Box(MessageKey(chain, 0), p.header, S.Compose(c, d))
            && e == c.(ratchet := e.ratchet, nextSendSeq := c.nextSendSeq + 1)
            && e.ratchet == q.(pendingPeer := None, peerKey := Some(peer), selfKey := k,
                               rootKey := RootKdf(root, DH(k, peer)),
                               sendChain := Some(ChainKey(chain, 1)), sendN := 1, prevSendN := q.sendN)
  {
  }

  // The inviter and the schedule once its first text, profile or presence is sealed.
  ghost predicate Opened(sch: Schedule, s: Side, t: Side, p: Payload, k: KeyId)
    requires Wired(sch)
  {
    var q, u := s.contact.ratchet, t.contact.ratchet;
    var root1 := RootKdf(sch.Root(0), DH(sch.keys[0], sch.keys[1]));
    var chain := ChainKdf(root1, DH(k, sch.keys[1]));
    && t.epoch == 2 && t.log == s.log + [Sent(p, At(2, 0))] && t.accepted == s.accepted
    && t.contact == s.contact.(ratchet := u, nextSendSeq := s.contact.nextSendSeq + 1)
    && u.pendingPeer == None && u.peerKey == Some(sch.keys[1]) && u.selfKey == k
    && u.rootKey == RootKdf(root1, DH(k, sch.keys[1])) && u.sendChain == Some(ChainKey(chain, 1)) && u.sendN == 1
    && u.recvChain == q.recvChain && u.recvN == q.recvN && u.skipped == q.skipped
    && p.header.dh == k && p.header.n == 0 && p.box.aad == p.header && p.box.key == MessageKey(chain, 0)
    && p.box.plaintext.seqNo == s.contact.nextSendSeq && p.box.plaintext.conversation == s.contact.conversation
    && !p.box.plaintext.kind.Receipt?
  }

  lemma OpenedSide(sch: Schedule, nextKey: nat, s: Side, t: Side, p: Payload, k: KeyId, peer: seq<Slot>)
    requires Wired(sch) && Pending(s) && Sends(sch, Inviter, s) && Receives(sch, Inviter, s, peer)
    requires AllSealed(sch, nextKey, Inviter, s) && k >= nextKey
    requires Opened(sch, s, t, p, k)
    ensures Sends(sch.Extend(k), Inviter, t) && Receives(sch.Extend(k), Inviter, t, peer)
    ensures AllSealed(sch.Extend(k), k + 1, Inviter, t)
  {
    var slot, ext := Sent(p, At(2, 0)), sch.Extend(k);
    sch.ExtendKeeps(k);
    assert ext.Root(1) == sch.Root(1) == RootKdf(sch.Root(0), DH(sch.keys[0], sch.keys[1]));
    AppendInOrder(2, s.log, slot);
    ExtendKeepsSeals(sch, nextKey, Inviter, s, k);
    AppendSeals(ext, k + 1, Inviter, s, t, slot);
  }

  // One side takes the newest key; the other, one key behind, is undisturbed.
  lemma ExtendedInv(sys: System, r: Role, t: Side, k: KeyId)
    requires Wired(sys.schedule) && sys.schedule.Distinct() && sys.schedule.Below(sys.nextKey) && k >= sys.nextKey
    requires t.epoch == |sys.schedule.keys| && sys.Get(Other(r)).epoch == |sys.schedule.keys| - 1
    requires t.contact.conversation == sys.Get(Other(r)).contact.conversation
    requires var ext, o := sys.schedule.Extend(k), sys.Get(Other(r));
             && SideIn(ext, k + 1, r, t, o.log) && SideIn(ext, k + 1, Other(r), o, t.log)
    ensures Inv(sys.Put(r, t).(schedule := sys.schedule.Extend(k), nextKey := k + 1))
  {
    var next := sys.Put(r, t).(schedule := sys.schedule.Extend(k), nextKey := k + 1);
    sys.schedule.ExtendDistinct(k, sys.nextKey);
    ExtendedIs(sys, next, r, t, k);
    BothSides(next, r);
  }

  lemma ExtendedIs(sys: System, next: System, r: Role, t: Side, k: KeyId)
    requires next == sys.Put(r, t).(schedule := sys.schedule.Extend(k), nextKey := k + 1)
    requires t.epoch == |sys.schedule.keys| && sys.Get(Other(r)).epoch == |sys.schedule.keys| - 1
    ensures next.Get(r) == t && next.Get(Other(r)) == sys.Get(Other(r)) && LockStep(next)
    ensures next.schedule == sys.schedule.Extend(k) && next.nextKey == k + 1
  {
  }

  lemma BothSides(sys: System, r: Role)
    requires Wired(sys.schedule) && sys.schedule.Distinct() && sys.schedule.Below(sys.nextKey) && LockStep(sys)
    requires sys.Get(r).contact.conversation == sys.Get(Other(r)).contact.conversation
    requires SideInv(sys, r) && SideInv(sys, Other(r))
    ensures Inv(sys)
  {
  }

  // The side that is one key behind, seen from the longer schedule.
  lemma ExtendKeepsOther(sys: System, r: Role, k: KeyId)
    requires Inv(sys) && !Pending(sys.Get(r)) && k >= sys.nextKey
    requires CursorAfter(First(r), sys.Get(r).log).epoch == sys.Get(r).epoch
    ensures var ext, o := sys.schedule.Extend(k), sys.Get(r);
            SideIn(ext, k + 1, r, o, sys.Get(Other(r)).log)
  {
    assert SideInv(sys, r);
    ExtendKeepsSends(sys.schedule, r, sys.Get(r), k);
    ExtendKeepsReceives(sys.schedule, r, sys.Get(r), sys.Get(Other(r)).log, k);
    ExtendKeepsSeals(sys.schedule, sys.nextKey, r, sys.Get(r), k);
  }

  lemma PendingFacts(sys: System)
    requires Inv(sys) && Pending(sys.inviter)
    ensures !Pending(sys.joiner) && |sys.schedule.keys| == 2 && sys.joiner.epoch == 1
    ensures CursorAfter(1, sys.joiner.log).epoch == 1
    ensures Sends(sys.schedule, Inviter, sys.inviter) && Receives(sys.schedule, Inviter, sys.inviter, sys.joiner.log)
    ensures AllSealed(sys.schedule, sys.nextKey, Inviter, sys.inviter)
  {
    assert SideInv(sys, Inviter) && SideInv(sys, Joiner);
  }

  lemma OpeningKeeps(sys: System, t: Side, p: Payload, k: KeyId)
    requires Inv(sys) && Pending(sys.inviter) && k >= sys.nextKey
    requires Opened(sys.schedule, sys.inviter, t, p, k)
    ensures Inv(sys.(inviter := t, schedule := sys.schedule.Extend(k), nextKey := k + 1))
  {
    PendingFacts(sys);
    OpenedSide(sys.schedule, sys.nextKey, sys.inviter, t, p, k, sys.joiner.log);
    ExtendKeepsOther(sys, Joiner, k);
    PeerAppendKeepsReceives(sys.schedule.Extend(k), Joiner, sys.joiner, sys.inviter.log, Sent(p, At(2, 0)));
    ExtendedInv(sys, Inviter, t, k);
  }

  lemma PendingSendIs(sys: System, d: S.Draft, now: int, k: KeyId)
    requires Wired(sys.schedule) && Pending(sys.inviter) && !d.kind.Receipt?
    requires Sends(sys.schedule, Inviter, sys.inviter) && k != sys.schedule.keys[0]
    requires S.Encrypt(sys.inviter.contact, d, now, k).Success?
    ensures var next := Apply(sys, SendMessage(Inviter, d, now, k));
            var p := S.Encrypt(sys.inviter.contact, d, now, k).value.1;
            && next == sys.(inviter := next.inviter, schedule := sys.schedule.Extend(k), nextKey := k + 1)
            && Opened(sys.schedule, sys.inviter, next.inviter, p, k)
  {
    PendingEncrypt(sys.inviter.contact, d, now, k);
  }

  lemma PendingSendKeeps(sys: System, r: Role, d: S.Draft, now: int, k: KeyId)
    requires Inv(sys) && Pending(sys.Get(r)) && !d.kind.Receipt? && k >= sys.nextKey
    ensures Inv(Apply(sys, SendMessage(r, d, now, k)))
  {
    assert SideInv(sys, r);
    var c := sys.inviter.contact;
    if S.Encrypt(c, d, now, k).Success? {
      PendingSendIs(sys, d, now, k);
      OpeningKeeps(sys, Apply(sys, SendMessage(Inviter, d, now, k)).inviter, S.Encrypt(c, d, now, k).value.1, k);
    }
  }

  function AfterBorrow(s: Side, p: Payload): Side {
    s.(contact := s.contact.(nextSendSeq := s.contact.nextSendSeq + 1), log := s.log + [Sent(p, Borrowed(p.header.dh))])
  }

  lemma BorrowedSide(sch: Schedule, bound: nat, s: Side, p: Payload, k: KeyId)
    requires Wired(sch) && Sends(sch, Inviter, s) && Pending(s) && k < bound && k !in sch.keys
    requires p.header.dh == k && p.header.n == 0 && p.box.aad == p.header && p.box.plaintext.kind.Receipt?
    requires p.box.key == MessageKey(ChainKdf(RootKdf(sch.Root(0), DH(sch.keys[0], sch.keys[1])), DH(k, sch.keys[1])),
                                     0)
    requires p.box.plaintext.seqNo == s.contact.nextSendSeq && p.box.plaintext.conversation == s.contact.conversation
    ensures var t := AfterBorrow(s, p);
            Sends(sch, Inviter, t) && SameReceiving(s, t) && WellSealed(sch, bound, Inviter, t, |s.log|)
  {
    AppendInOrder(2, s.log, Sent(p, Borrowed(k)));
    assert sch.Root(1) == RootKdf(sch.Root(0), DH(sch.keys[0], sch.keys[1]));
  }

  lemma BorrowedReceiptIs(sys: System, d: S.Draft, now: int, k: KeyId)
    requires Pending(sys.inviter) && d.kind.Receipt? && k != sys.inviter.contact.ratchet.selfKey
    requires S.Encrypt(sys.inviter.contact, d, now, k).Success?
    ensures Apply(sys, SendReceipt(Inviter, d, now, k)) ==
            Reserve(sys.(inviter := AfterBorrow(sys.inviter, S.Encrypt(sys.inviter.contact, d, now, k).value.1)), k)
  {
    PendingEncrypt(sys.inviter.contact, d, now, k);
  }

  // A receipt before that borrows a key pair for one message and forgets it.
  lemma BorrowedReceiptKeeps(sys: System, r: Role, d: S.Draft, now: int, k: KeyId)
    requires Inv(sys) && Pending(sys.Get(r)) && d.kind.Receipt? && k !in sys.schedule.keys
    ensures Inv(Apply(sys, SendReceipt(r, d, now, k)))
  {
    SeeSide(sys, r);
    var s := sys.inviter;
    if S.Encrypt(s.contact, d, now, k).Success? {
      PendingEncrypt(s.contact, d, now, k);
      var p := S.Encrypt(s.contact, d, now, k).value.1;
      BorrowedReceiptIs(sys, d, now, k);
      var next := Reserve(sys.(inviter := AfterBorrow(s, p)), k);
      BorrowedSide(sys.schedule, next.nextKey, s, p, k);
      AppendKeepsInv(sys, next, r, Sent(p, Borrowed(k)));
    }
  }

  lemma ReserveKeeps(sys: System, k: KeyId)
    requires Inv(sys)
    ensures Inv(Reserve(sys, k))
  {
    var next := Reserve(sys, k);
    SeeSide(sys, Inviter);
    SeeSide(sys, Joiner);
    NextKeyKeepsSeals(sys.schedule, sys.nextKey, next.nextKey, Inviter, sys.inviter);
    NextKeyKeepsSeals(sys.schedule, sys.nextKey, next.nextKey, Joiner, sys.joiner);
    assert SideInv(next, Inviter) && SideInv(next, Joiner);
  }

  lemma HoleSide(sch: Schedule, r: Role, s: Side)
    requires Wired(sch) && Sends(sch, r, s)
    ensures var t := s.(contact := s.contact.(nextSendSeq := s.contact.nextSendSeq + 1), log := s.log + [Hole]);
            Sends(sch, r, t) && SameReceiving(s, t)
  {
    AppendInOrder(First(r), s.log, Hole);
    assert InOrder(First(r), s.log + [Hole]);
  }

  lemma LoseNumberKeeps(sys: System, r: Role)
    requires Inv(sys)
    ensures Inv(Apply(sys, LoseNumber(r)))
  {
    assert SideInv(sys, r);
    HoleSide(sys.schedule, r, sys.Get(r));
    AppendKeepsInv(sys, Apply(sys, LoseNumber(r)), r, Hole);
  }

  // ---------- receiving ----------

  lemma ReceivedOne(sch: Schedule, r: Role, s: Side, t: Side, peer: seq<Slot>)
    requires Wired(sch) && Receives(sch, r, s, peer)
    requires var k := s.contact.lastRecvSeq;
             && k < |peer| && peer[k].Sent?
             && t.contact.lastRecvSeq == k + 1
             && t.accepted == s.accepted + [peer[k].payload.box.plaintext]
             && var q, c := t.contact.ratchet, Next(CursorAfter(First(Other(r)), peer[..k]), peer[k]);
                && RecvEpoch(t) < |sch.keys|
                && (q.peerKey == Some(sch.keys[RecvEpoch(t)]) || (Pending(t) && q.peerKey == None && q.recvN == 0))
                && OnChain(q, sch.Chain(RecvEpoch(t)))
                && Tracks(c, RecvEpoch(t), q.recvN)
                && (r.Joiner? && t.epoch > 1 ==> c.begun)
    ensures Receives(sch, r, t, peer)
  {
    CursorStep(First(Other(r)), peer, s.contact.lastRecvSeq);
  }

  // The cursor as the receiver passes one slot without moving its chain.
  lemma PassesRolledBack(c: Cursor, slot: Slot, epoch: nat, recvN: nat)
    requires Tracks(c, epoch, recvN) && Fits(c, slot) && slot.Sent?
    requires slot.at.At? ==> slot.at.epoch <= epoch + 2
    requires !slot.payload.box.plaintext.kind.Text?
    ensures Tracks(Next(c, slot), epoch, recvN)
    ensures c.begun ==> Next(c, slot).begun
  {
  }

  // The cursor as the receiver's chain moves past a text.
  lemma PassesText(c: Cursor, slot: Slot)
    requires Fits(c, slot) && slot.Sent? && slot.at.At? && slot.payload.box.plaintext.kind.Text?
    ensures var d := Next(c, slot);
            && d.begun && d.epoch == slot.at.epoch && d.n == slot.at.n + 1 && d.sinceText == 0
            && Tracks(d, slot.at.epoch, slot.at.n + 1)
  {
  }

  lemma SameLogSeals(sch: Schedule, nextKey: nat, r: Role, s: Side, t: Side)
    requires Wired(sch) && AllSealed(sch, nextKey, r, s)
    requires t.log == s.log && t.epoch == s.epoch && t.contact.conversation == s.contact.conversation
    ensures AllSealed(sch, nextKey, r, t)
  {
    forall i | 0 <= i < |t.log| ensures WellSealed(sch, nextKey, r, t, i) {
      assert WellSealed(sch, nextKey, r, s, i);
    }
  }

  lemma ReceiveKeepsInv(sys: System, r: Role, t: Side)
    requires Inv(sys)
    requires t.log == sys.Get(r).log && t.epoch == sys.Get(r).epoch
    requires t.contact.conversation == sys.Get(r).contact.conversation
    requires Sends(sys.schedule, r, t) && Receives(sys.schedule, r, t, sys.Get(Other(r)).log)
    ensures Inv(sys.Put(r, t))
  {
    SeeSide(sys, r);
    SeeSide(sys, Other(r));
    SameLogSeals(sys.schedule, sys.nextKey, r, sys.Get(r), t);
    assert SideInv(sys.Put(r, t), r);
    assert SideInv(sys.Put(r, t), Other(r));
  }

  // After a table of stored keys is put in place of the one there is.
  lemma TableSide(sch: Schedule, r: Role, s: Side, peer: seq<Slot>, table: map<R.SkipId, MessageKey>)
    requires Wired(sch) && Sends(sch, r, s) && Receives(sch, r, s, peer) && TableOk(s.contact.ratchet, table)
    ensures var t := s.(contact := WithTable(s.contact, table)); Sends(sch, r, t) && Receives(sch, r, t, peer)
  {
  }

  lemma TableKeepsInv(sys: System, r: Role, t: Side, table: map<R.SkipId, MessageKey>)
    requires Inv(sys) && TableOk(sys.Get(r).contact.ratchet, table)
    requires t == sys.Get(r).(contact := WithTable(sys.Get(r).contact, table))
    ensures Inv(sys.Put(r, t))
  {
    SeeSide(sys, r);
    TableSide(sys.schedule, r, sys.Get(r), sys.Get(Other(r)).log, table);
    ReceiveKeepsInv(sys, r, t);
  }

  lemma ReloadKeeps(sys: System, r: Role, table: map<R.SkipId, MessageKey>)
    requires Inv(sys) && TableOk(sys.Get(r).contact.ratchet, table)
    ensures Inv(Apply(sys, Reload(r, table)))
  {
    TableKeepsInv(sys, r, sys.Get(r).(contact := WithTable(sys.Get(r).contact, table)), table);
  }

  // What an attempt leaves is a table to go on with.
  lemma LeftoverOk(sys: System, r: Role, blob: Blob)
    requires Inv(sys)
    ensures TableOk(sys.Get(r).contact.ratchet, R.Leftover(sys.Get(r).contact.ratchet, blob))
  {
    SeeSide(sys, r);
    LeftoverKeepsChain(sys.Get(r).contact.ratchet, sys.schedule.Chain(RecvEpoch(sys.Get(r))), blob);
  }

  // A blob that is turned away is a change of table.
  lemma TrialIsReload(sys: System, r: Role, blob: Blob, now: int, k: KeyId)
    requires S.DecryptInbound(sys.Get(r).contact, blob, now, k).Failure?
    ensures Apply(sys, Receive(r, blob, now, k)) == Apply(sys, Reload(r, R.Leftover(sys.Get(r).contact.ratchet, blob)))
  {
  }

  lemma RejectedKeeps(sys: System, r: Role, blob: Blob, now: int, k: KeyId)
    requires Inv(sys) && S.DecryptInbound(sys.Get(r).contact, blob, now, k).Failure?
    ensures Inv(Apply(sys, Receive(r, blob, now, k)))
  {
    LeftoverOk(sys, r, blob);
    TrialIsReload(sys, r, blob, now, k);
    ReloadKeeps(sys, r, R.Leftover(sys.Get(r).contact.ratchet, blob));
  }

  function AfterRolledBack(s: Side, table: map<R.SkipId, MessageKey>, m: InnerMessage): Side {
    s.(contact := WithTable(s.contact, table).(lastRecvSeq := m.seqNo), accepted := s.accepted + [m])
  }

  lemma RolledBackSide(sch: Schedule, r: Role, s: Side, peer: seq<Slot>, table: map<R.SkipId, MessageKey>)
    requires Wired(sch) && Sends(sch, r, s) && Receives(sch, r, s, peer) && TableOk(s.contact.ratchet, table)
    requires var i := s.contact.lastRecvSeq;
             && i < |peer| && peer[i].Sent?
             && Fits(CursorAfter(First(Other(r)), peer[..i]), peer[i])
             && (peer[i].at.At? ==> peer[i].at.epoch <= RecvEpoch(s) + 2)
             && !peer[i].payload.box.plaintext.kind.Text? && peer[i].payload.box.plaintext.seqNo == i + 1
    ensures var t := AfterRolledBack(s, table, peer[s.contact.lastRecvSeq].payload.box.plaintext);
            Sends(sch, r, t) && Receives(sch, r, t, peer)
  {
    var i, q := s.contact.lastRecvSeq, s.contact.ratchet;
    PassesRolledBack(CursorAfter(First(Other(r)), peer[..i]), peer[i], RecvEpoch(s), q.recvN);
    ReceivedOne(sch, r, s, AfterRolledBack(s, table, peer[i].payload.box.plaintext), peer);
  }

  // A receipt, profile or presence message leaves the ratchet as it was but for the stored keys.
  lemma RolledBackKeeps(sys: System, r: Role, table: map<R.SkipId, MessageKey>)
    requires Inv(sys) && HasNext(sys, r) && !NextSlot(sys, r).payload.box.plaintext.kind.Text?
    requires TableOk(sys.Get(r).contact.ratchet, table)
    ensures Inv(sys.Put(r, AfterRolledBack(sys.Get(r), table, NextSlot(sys, r).payload.box.plaintext)))
  {
    var s, slot := sys.Get(r), NextSlot(sys, r);
    var t := AfterRolledBack(s, table, slot.payload.box.plaintext);
    SeeSide(sys, r);
    SeeNext(sys, r);
    NextIsStamped(sys, r);
    SlotPlaced(sys, r, s.contact.lastRecvSeq);
    RolledBackSide(sys.schedule, r, s, sys.Get(Other(r)).log, table);
    ReceiveKeepsInv(sys, r, t);
  }

  function AfterText(s: Side, q: R.State, m: InnerMessage): Side {
    s.(contact := s.contact.(ratchet := q, lastRecvSeq := m.seqNo), accepted := s.accepted + [m])
  }

  lemma HereTextSide(sch: Schedule, r: Role, s: Side, t: Side, peer: seq<Slot>)
    requires Wired(sch) && Sends(sch, r, s) && Receives(sch, r, s, peer)
    requires var i, q, f := s.contact.lastRecvSeq, t.contact.ratchet, RecvEpoch(s);
             && i < |peer| && peer[i].Sent?
             && var slot, c := peer[i], CursorAfter(First(Other(r)), peer[..i]);
             && t == AfterText(s, q, slot.payload.box.plaintext)
             && slot.at == At(f, slot.payload.header.n) && Fits(c, slot)
             && slot.payload.box.plaintext.kind.Text? && slot.payload.box.plaintext.seqNo == i + 1
             && SameSending(s.contact.ratchet, q) && q.peerKey == Some(sch.keys[f])
             && q.recvN == slot.payload.header.n + 1
             && OnChain(q, sch.Chain(f))
    ensures Sends(sch, r, t) && Receives(sch, r, t, peer)
  {
    PassesText(CursorAfter(First(Other(r)), peer[..s.contact.lastRecvSeq]), peer[s.contact.lastRecvSeq]);
    ReceivedOne(sch, r, s, t, peer);
  }

  // A text in the epoch being received.
  lemma HereTextKeeps(sys: System, r: Role, k: KeyId)
    requires Inv(sys) && HasNext(sys, r) && NextHere(sys, r)
    requires NextSlot(sys, r).payload.box.plaintext.kind.Text?
    requires R.Decrypt(sys.Get(r).contact.ratchet, Framed(NextSlot(sys, r).payload), k).Success?
    ensures var (q, m) := R.Decrypt(sys.Get(r).contact.ratchet, Framed(NextSlot(sys, r).payload), k).value;
            && q.selfKey == sys.Get(r).contact.ratchet.selfKey
            && Inv(sys.Put(r, AfterText(sys.Get(r), q, m)))
  {
    var s, slot, sch := sys.Get(r), NextSlot(sys, r), sys.schedule;
    var (q, m) := R.Decrypt(s.contact.ratchet, Framed(slot.payload), k).value;
    var t := AfterText(s, q, m);
    SeeSide(sys, r);
    SeeNext(sys, r);
    NextIsStamped(sys, r);
    SeeSlot(sys, r, s.contact.lastRecvSeq);
    IsHere(sys, r, s.contact.lastRecvSeq);
    OpensInEpoch(s.contact.ratchet, sch.Chain(RecvEpoch(s)), slot.payload, k);
    HereTextSide(sch, r, s, t, sys.Get(Other(r)).log);
    ReceiveKeepsInv(sys, r, t);
  }

  // The receiver after a DH step: its own key is the newest of the schedule.
  ghost predicate Stepped(sch: Schedule, s: Side, t: Side, slot: Slot, k: KeyId)
    requires Wired(sch) && s.epoch < |sch.keys| && slot.Sent?
  {
    var q, u, m := s.contact.ratchet, t.contact.ratchet, slot.payload.box.plaintext;
    && t.epoch == |sch.keys| && t.log == s.log && t.accepted == s.accepted + [m]
    && t.contact == s.contact.(ratchet := u, lastRecvSeq := m.seqNo)
    && SteppedTo(q, u, slot.payload.header.dh, k)
    && u.recvN == slot.payload.header.n + 1
    && OnChain(u, ChainKdf(q.rootKey, DH(q.selfKey, slot.payload.header.dh)))
  }

  // The text that makes the receiver step: the next slot, under the key after its own.
  ghost predicate AheadSlot(sch: Schedule, r: Role, s: Side, peer: seq<Slot>) {
    var i := s.contact.lastRecvSeq;
    && i < |peer| && peer[i].Sent? && s.epoch + 1 < |sch.keys|
    && peer[i].payload.header.dh == sch.keys[s.epoch + 1]
    && peer[i].at == At(s.epoch + 1, peer[i].payload.header.n)
    && peer[i].payload.box.plaintext.kind.Text? && peer[i].payload.box.plaintext.seqNo == i + 1
    && Fits(CursorAfter(First(Other(r)), peer[..i]), peer[i])
  }

  lemma SteppedSends(sch: Schedule, r: Role, s: Side, t: Side, slot: Slot, k: KeyId)
    requires Wired(sch) && Sends(sch, r, s) && !Pending(s) && slot.Sent? && Stepped(sch, s, t, slot, k)
    requires s.epoch + 2 == |sch.keys| && slot.payload.header.dh == sch.keys[s.epoch + 1]
    ensures Sends(sch.Extend(k), r, t)
  {
    sch.ExtendKeeps(k);
  }

  lemma SteppedReceives(sch: Schedule, r: Role, s: Side, t: Side, peer: seq<Slot>, k: KeyId)
    requires Wired(sch) && Receives(sch, r, s, peer) && !Pending(s) && s.epoch + 2 == |sch.keys|
    requires s.contact.ratchet.selfKey == sch.keys[s.epoch] && s.contact.ratchet.rootKey == sch.Root(s.epoch)
    requires AheadSlot(sch, r, s, peer) && Stepped(sch, s, t, peer[s.contact.lastRecvSeq], k)
    ensures Receives(sch.Extend(k), r, t, peer)
  {
    var i := s.contact.lastRecvSeq;
    sch.ExtendKeeps(k);
    ExtendKeepsReceives(sch, r, s, peer, k);
    PassesText(CursorAfter(First(Other(r)), peer[..i]), peer[i]);
    assert sch.Extend(k).Chain(s.epoch + 1) ==
             ChainKdf(sch.Root(s.epoch), DH(sch.keys[s.epoch], sch.keys[s.epoch + 1]));
    ReceivedOne(sch.Extend(k), r, s, t, peer);
  }

  // The peer is one key ahead, so this side has sent in its own epoch.
  lemma AheadFacts(sys: System, r: Role)
    requires Inv(sys) && HasNext(sys, r) && !NextHere(sys, r) && NextSlot(sys, r).at.At?
    ensures var s, o, sch := sys.Get(r), sys.Get(Other(r)), sys.schedule;
            && !Pending(s) && !Pending(o) && o.epoch == |sch.keys| - 1 && s.epoch + 2 == |sch.keys|
            && CursorAfter(First(Other(r)), o.log).epoch == o.epoch
            && o.contact.conversation == s.contact.conversation
  {
    var o := sys.Get(Other(r));
    SeeNext(sys, r);
    SeeSlot(sys, r, sys.Get(r).contact.lastRecvSeq);
    IsAhead(sys, r, sys.Get(r).contact.lastRecvSeq);
    SeeSide(sys, r);
    SeeSide(sys, Other(r));
    assert WellSealed(sys.schedule, sys.nextKey, Other(r), o, sys.Get(r).contact.lastRecvSeq);
    CursorReaches(First(Other(r)), o.log, sys.Get(r).contact.lastRecvSeq);
  }

  lemma AheadIs(sys: System, r: Role)
    requires Inv(sys) && HasNext(sys, r) && !NextHere(sys, r) && NextSlot(sys, r).payload.box.plaintext.kind.Text?
    ensures AheadSlot(sys.schedule, r, sys.Get(r), sys.Get(Other(r)).log)
  {
    SeeNext(sys, r);
    SeeSlot(sys, r, sys.Get(r).contact.lastRecvSeq);
    IsAhead(sys, r, sys.Get(r).contact.lastRecvSeq);
    NextIsStamped(sys, r);
  }

  // A text under a new key: the receiver steps, and its new key extends the schedule.
  lemma AheadTextKeeps(sys: System, r: Role, k: KeyId)
    requires Inv(sys) && HasNext(sys, r) && !NextHere(sys, r) && k >= sys.nextKey
    requires NextSlot(sys, r).payload.box.plaintext.kind.Text?
    requires R.Decrypt(sys.Get(r).contact.ratchet, Framed(NextSlot(sys, r).payload), k).Success?
    ensures var (q, m) := R.Decrypt(sys.Get(r).contact.ratchet, Framed(NextSlot(sys, r).payload), k).value;
            && q.selfKey == k
            && Inv(sys.Put(r, AfterText(sys.Get(r), q, m).(epoch := |sys.schedule.keys|))
                      .(schedule := sys.schedule.Extend(k), nextKey := k + 1))
  {
    var s, o, slot, sch := sys.Get(r), sys.Get(Other(r)), NextSlot(sys, r), sys.schedule;
    var (q, m) := R.Decrypt(s.contact.ratchet, Framed(slot.payload), k).value;
    var t := AfterText(s, q, m).(epoch := |sch.keys|);
    SeeNext(sys, r);
    SeeSlot(sys, r, sys.Get(r).contact.lastRecvSeq);
    IsAhead(sys, r, sys.Get(r).contact.lastRecvSeq);
    AheadFacts(sys, r);
    AheadIs(sys, r);
    OpensByDhStep(s.contact.ratchet, slot.payload, k);
    assert Stepped(sch, s, t, slot, k);
    SteppedSide(sch, sys.nextKey, r, s, t, o.log, k);
    ExtendKeepsOther(sys, Other(r), k);
    ExtendedInv(sys, r, t, k);
  }

  // The stepping side in the longer schedule.
  lemma SteppedSide(sch: Schedule, nextKey: nat, r: Role, s: Side, t: Side, peer: seq<Slot>, k: KeyId)
    requires Wired(sch) && SideIn(sch, nextKey, r, s, peer)
    requires !Pending(s) && s.epoch + 2 == |sch.keys| && k >= nextKey
    requires AheadSlot(sch, r, s, peer) && Stepped(sch, s, t, peer[s.contact.lastRecvSeq], k)
    ensures SideIn(sch.Extend(k), k + 1, r, t, peer)
  {
    SteppedSends(sch, r, s, t, peer[s.contact.lastRecvSeq], k);
    SteppedReceives(sch, r, s, t, peer, k);
    ExtendKeepsSeals(sch, nextKey, r, s, k);
    SteppedSeals(sch.Extend(k), k + 1, r, s, t);
  }

  lemma SteppedSeals(sch: Schedule, nextKey: nat, r: Role, s: Side, t: Side)
    requires Wired(sch) && AllSealed(sch, nextKey, r, s)
    requires t.log == s.log && t.epoch == s.epoch + 2 && t.contact.conversation == s.contact.conversation
    ensures AllSealed(sch, nextKey, r, t)
  {
    forall i | 0 <= i < |t.log| ensures WellSealed(sch, nextKey, r, t, i) {
      assert WellSealed(sch, nextKey, r, s, i);
    }
  }

  // ---------- every step ----------

  lemma ReceiveKeeps(sys: System, r: Role, blob: Blob, now: int, k: KeyId)
    requires Inv(sys) && Enabled(sys, Receive(r, blob, now, k))
    ensures Inv(Apply(sys, Receive(r, blob, now, k)))
  {
    var c := sys.Get(r).contact;
    AcceptsExactlyNext(sys, r, blob, now, k);
    if S.DecryptInbound(c, blob, now, k).Success? {
      ReceiveIs(sys, r, blob, now, k);
      if !NextSlot(sys, r).payload.box.plaintext.kind.Text? {
        LeftoverOk(sys, r, blob);
        RolledBackKeeps(sys, r, R.Leftover(c.ratchet, blob));
      } else if NextHere(sys, r) {
        HereTextKeeps(sys, r, k);
      } else {
        AheadKey(sys, r, k);
        AheadTextKeeps(sys, r, k);
      }
    } else {
      RejectedKeeps(sys, r, blob, now, k);
    }
  }

  lemma AheadKey(sys: System, r: Role, k: KeyId)
    requires Inv(sys) && k >= sys.nextKey
    ensures sys.Get(r).contact.ratchet.selfKey != k
  {
    SeeSide(sys, r);
  }

  lemma ReceiveIs(sys: System, r: Role, blob: Blob, now: int, k: KeyId)
    requires S.DecryptInbound(sys.Get(r).contact, blob, now, k).Success?
    ensures var s := sys.Get(r);
            var (q, m) := R.Decrypt(s.contact.ratchet, blob, k).value;
            && R.Decrypt(s.contact.ratchet, blob, k).Success?
            && S.DecryptInbound(s.contact, blob, now, k).value.1 == m
            && Apply(sys, Receive(r, blob, now, k)) ==
               if !m.kind.Text? then sys.Put(r, AfterRolledBack(s, R.Leftover(s.contact.ratchet, blob), m))
               else if q.selfKey == s.contact.ratchet.selfKey then sys.Put(r, AfterText(s, q, m))
               else sys.Put(r, AfterText(s, q, m).(epoch := |sys.schedule.keys|))
                       .(schedule := sys.schedule.Extend(q.selfKey), nextKey := k + 1)
  {
  }

  // Every step of either side, with any blob the network can present, keeps the invariant.
  lemma StepKeepsInv(sys: System, step: Step)
    requires Inv(sys) && Enabled(sys, step)
    ensures Inv(Apply(sys, step))
  {
    match step
    case SendMessage(r, d, now, k) =>
      if Pending(sys.Get(r)) {
        PendingSendKeeps(sys, r, d, now, k);
      } else {
        SteadySendKeeps(sys, r, d, now, k);
      }
    case SendReceipt(r, d, now, k) =>
      if Pending(sys.Get(r)) {
        BorrowedReceiptKeeps(sys, r, d, now, k);
      } else {
        SteadyReceiptKeeps(sys, r, d, now, k);
      }
    case LoseNumber(r) => LoseNumberKeeps(sys, r);
    case Receive(r, blob, now, k) => ReceiveKeeps(sys, r, blob, now, k);
    case Reload(r, table) => ReloadKeeps(sys, r, table);
  }

  // What accepting the next message does to the side that accepts it.
  lemma AcceptMovesOn(sys: System, r: Role, now: int, k: KeyId)
    requires Inv(sys) && HasNext(sys, r)
    requires S.DecryptInbound(sys.Get(r).contact, Framed(NextSlot(sys, r).payload), now, k).Success?
    ensures var s, t := sys.Get(r), Apply(sys, Receive(r, Framed(NextSlot(sys, r).payload), now, k)).Get(r);
            && t.contact.lastRecvSeq == s.contact.lastRecvSeq + 1
            && t.accepted == s.accepted + [NextSlot(sys, r).payload.box.plaintext]
            && (!NextSlot(sys, r).payload.box.plaintext.kind.Text? ==>
                  t.epoch == s.epoch
                  && t.contact.ratchet == R.RolledBack(s.contact.ratchet, Framed(NextSlot(sys, r).payload)))
    ensures Apply(sys, Receive(r, Framed(NextSlot(sys, r).payload), now, k)).Get(Other(r)) == sys.Get(Other(r))
  {
    ReceiveIs(sys, r, Framed(NextSlot(sys, r).payload), now, k);
    NextIsAccepted(sys, r, now, k);
    NextIsStamped(sys, r);
  }
}
