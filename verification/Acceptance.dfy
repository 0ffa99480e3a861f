/** Exactly which blobs a side accepts, in any state that satisfies the invariant. */
module Acceptance {
  import opened Crypto
  import opened Message
  import opened KeySchedule
  import opened Log
  import opened SkippedKeys
  import opened TwoParty
  import opened Opening
  import R = Ratchet
  import S = Session

  // The peer's first slot not yet accepted.
  ghost predicate HasNext(sys: System, r: Role) {
    var k := sys.Get(r).contact.lastRecvSeq;
    k < |sys.Get(Other(r)).log| && sys.Get(Other(r)).log[k].Sent?
  }

  ghost function NextSlot(sys: System, r: Role): Slot
    requires HasNext(sys, r)
  {
    sys.Get(Other(r)).log[sys.Get(r).contact.lastRecvSeq]
  }

  ghost function PeerCursor(sys: System, r: Role): Cursor
    requires sys.Get(r).contact.lastRecvSeq <= |sys.Get(Other(r)).log|
  {
    CursorAfter(First(Other(r)), sys.Get(Other(r)).log[..sys.Get(r).contact.lastRecvSeq])
  }

  // The profile and presence messages the receiver must pass over to reach the slot: a count on
  // the sender's log alone.
  ghost function NextBacklog(sys: System, r: Role): nat
    requires HasNext(sys, r)
  {
    Backlog(PeerCursor(sys, r), NextSlot(sys, r))
  }

  lemma SeeSide(sys: System, r: Role)
    requires Inv(sys)
    ensures SideIn(sys.schedule, sys.nextKey, r, sys.Get(r), sys.Get(Other(r)).log)
  {
    assert SideInv(sys, r);
  }

  lemma NewKeyIsNew(sys: System, k: KeyId)
    requires Inv(sys) && k >= sys.nextKey
    ensures k !in sys.schedule.keys
  {
  }

  // ---------- slots not yet accepted ----------

  ghost predicate Later(sys: System, r: Role, i: nat) {
    sys.Get(r).contact.lastRecvSeq <= i < |sys.Get(Other(r)).log| && sys.Get(Other(r)).log[i].Sent?
  }

  ghost function SlotAt(sys: System, r: Role, i: nat): Slot
    requires Later(sys, r, i)
  {
    sys.Get(Other(r)).log[i]
  }

  // In the epoch being received, or one DH step ahead of it.
  ghost predicate Here(sys: System, r: Role, i: nat)
    requires Later(sys, r, i)
  {
    SlotAt(sys, r, i).at.At? && SlotAt(sys, r, i).at.epoch == RecvEpoch(sys.Get(r))
  }

  // How far ahead of the receive chain the slot is, and the keys stored once it is reached.
  ghost function Gap(sys: System, r: Role, i: nat): (nat, nat)
    requires Later(sys, r, i)
  {
    var q, n := sys.Get(r).contact.ratchet, SlotAt(sys, r, i).payload.header.n;
    if !Here(sys, r, i) then (n, n)
    else if n < q.recvN then (0, |q.skipped|)
    else (n - q.recvN, |q.skipped| + (n - q.recvN))
  }

  // What the invariant says about such a slot.
  ghost predicate SlotView(sys: System, r: Role, i: nat)
    requires Later(sys, r, i)
  {
    var me, sch, keys, slot := sys.Get(r), sys.schedule, sys.schedule.keys, SlotAt(sys, r, i);
    var q, p, f := me.contact.ratchet, slot.payload, RecvEpoch(me);
    && |keys| >= 2 && LockStep(sys) && f < |keys|
    && (q.peerKey == Some(keys[f]) || (Pending(me) && q.peerKey == None && q.recvN == 0))
    && (Pending(me) ==> r.Inviter? && me.epoch == 0)
    && (!Pending(me) ==>
          && First(r) <= me.epoch < |keys| && Owns(r, me.epoch)
          && q.selfKey == keys[me.epoch] && q.rootKey == sch.Root(me.epoch))
    && p.box.aad == p.header
    && match slot.at
       case At(j, n) =>
         && f <= j <= sys.Get(Other(r)).epoch && First(Other(r)) <= j < |keys| && Owns(Other(r), j)
         && (j == f ==> n >= q.recvN)
         && p.header.dh == keys[j] && p.header.n == n && p.box.key == MessageKey(sch.Chain(j), n)
       case Borrowed(x) =>
         && r.Joiner? && me.epoch <= 1 && p.box.plaintext.kind.Receipt?
         && p.header.dh == x && p.header.n == 0 && x !in keys
         && p.box.key == MessageKey(ChainKdf(sch.Root(1), DH(keys[1], x)), 0)
  }

  // Later slots are not before the cursor the receiver tracks.
  lemma SlotIsNotBehind(sch: Schedule, r: Role, s: Side, peer: seq<Slot>, i: nat)
    requires Wired(sch) && Receives(sch, r, s, peer) && InOrder(First(Other(r)), peer)
    requires s.contact.lastRecvSeq <= i < |peer| && peer[i].Sent?
    ensures peer[i].at.At? ==> RecvEpoch(s) <= peer[i].at.epoch
    ensures peer[i].at.At? && peer[i].at.epoch == RecvEpoch(s) ==> peer[i].at.n >= s.contact.ratchet.recvN
    ensures peer[i].at.Borrowed? && r.Joiner? ==> s.epoch <= 1
  {
    CursorAdvances(First(Other(r)), peer, s.contact.lastRecvSeq, i);
    assert FitsAt(First(Other(r)), peer, i);
  }

  lemma SeeSlot(sys: System, r: Role, i: nat)
    requires Inv(sys) && Later(sys, r, i)
    ensures SlotView(sys, r, i) && sys.schedule.Distinct()
  {
    SeeSide(sys, r);
    SeeSide(sys, Other(r));
    assert WellSealed(sys.schedule, sys.nextKey, Other(r), sys.Get(Other(r)), i);
    SlotIsNotBehind(sys.schedule, r, sys.Get(r), sys.Get(Other(r)).log, i);
  }

  lemma IsHere(sys: System, r: Role, i: nat)
    requires Later(sys, r, i) && SlotView(sys, r, i) && Here(sys, r, i)
    ensures var q, p := sys.Get(r).contact.ratchet, SlotAt(sys, r, i).payload;
            && Sealed(p, sys.schedule.Chain(RecvEpoch(sys.Get(r)))) && p.header.n >= q.recvN
            && (q.peerKey == Some(p.header.dh) || (Pending(sys.Get(r)) && q.peerKey == None && q.recvN == 0))
  {
  }

  // Ahead, the slot is under a key the receiver has not seen.
  lemma IsAhead(sys: System, r: Role, i: nat)
    requires Later(sys, r, i) && SlotView(sys, r, i) && !Here(sys, r, i) && sys.schedule.Distinct()
    ensures var me, slot := sys.Get(r), SlotAt(sys, r, i);
            var q, p := me.contact.ratchet, slot.payload;
            && !Pending(me) && me.epoch >= 1
            && q.peerKey.Some? && q.peerKey != Some(p.header.dh)
            && Sealed(p, ChainKdf(q.rootKey, DH(q.selfKey, p.header.dh)))
            && (slot.at.At? ==>
                  me.epoch + 1 == slot.at.epoch == |sys.schedule.keys| - 1
                  && p.header.dh == sys.schedule.keys[me.epoch + 1])
            && (slot.at.Borrowed? ==> p.box.plaintext.kind.Receipt?)
  {
    var sch, e := sys.schedule, sys.Get(r).epoch;
    if 1 <= e < |sch.keys| - 1 {
      sch.KeysDiffer(e - 1, e + 1, |sch.keys|);
    }
  }

  // Any slot not yet accepted opens exactly when it is within the ratchet's two limits.
  lemma SlotOpens(sys: System, r: Role, i: nat, newKey: KeyId)
    requires Inv(sys) && Later(sys, r, i)
    ensures var res := R.Decrypt(sys.Get(r).contact.ratchet, Framed(SlotAt(sys, r, i).payload), newKey);
            && (res.Success? <==> WithinGap(Gap(sys, r, i).0, Gap(sys, r, i).1))
            && (res.Success? ==> res.value.1 == SlotAt(sys, r, i).payload.box.plaintext)
            && (res.Failure? ==> res.error != R.AlreadyReceived)
  {
    var q, p := sys.Get(r).contact.ratchet, SlotAt(sys, r, i).payload;
    SeeSlot(sys, r, i);
    SeeSide(sys, r);
    if Here(sys, r, i) {
      IsHere(sys, r, i);
      OpensInEpoch(q, sys.schedule.Chain(RecvEpoch(sys.Get(r))), p, newKey);
    } else {
      IsAhead(sys, r, i);
      OpensByDhStep(q, p, newKey);
    }
  }

  ghost predicate NextHere(sys: System, r: Role)
    requires HasNext(sys, r)
  {
    Here(sys, r, sys.Get(r).contact.lastRecvSeq)
  }

  // The keys stored once the next slot is reached: on top of those there are, unless a DH step
  // clears them first.
  ghost function NextHeld(sys: System, r: Role): nat
    requires HasNext(sys, r)
  {
    NextBacklog(sys, r) + if NextHere(sys, r) then |sys.Get(r).contact.ratchet.skipped| else 0
  }

  // For the next slot, the gap is the backlog on the sender's log.
  ghost predicate NextIs(sys: System, r: Role) {
    && HasNext(sys, r)
    && var k := sys.Get(r).contact.lastRecvSeq;
    && Later(sys, r, k) && Gap(sys, r, k) == (NextBacklog(sys, r), NextHeld(sys, r))
    && Fits(PeerCursor(sys, r), NextSlot(sys, r))
    && (NextHere(sys, r) ==> PeerCursor(sys, r).epoch == NextSlot(sys, r).at.epoch)
  }

  ghost predicate Near(slot: Slot, f: nat)
    requires slot.Sent?
  {
    && (slot.at.At? ==> (slot.at.epoch == f || slot.at.epoch == f + 2) && slot.payload.header.n == slot.at.n)
    && (slot.at.Borrowed? ==> slot.payload.header.n == 0)
  }

  lemma BacklogIsGap(c: Cursor, slot: Slot, f: nat, recvN: nat)
    requires Tracks(c, f, recvN) && Fits(c, slot) && slot.Sent?
    requires Near(slot, f)
    ensures var n := slot.payload.header.n;
            Backlog(c, slot) == if slot.at.At? && slot.at.epoch == f then if n < recvN then 0 else n - recvN else n
    ensures slot.at.At? && slot.at.epoch == f ==> c.epoch == f
  {
  }

  lemma Tracked(sch: Schedule, nextKey: nat, r: Role, s: Side, peer: seq<Slot>)
    requires Wired(sch) && SideIn(sch, nextKey, r, s, peer) && InOrder(First(Other(r)), peer)
             && s.contact.lastRecvSeq < |peer|
    ensures var c := CursorAfter(First(Other(r)), peer[..s.contact.lastRecvSeq]);
            && Tracks(c, RecvEpoch(s), s.contact.ratchet.recvN)
            && Fits(c, peer[s.contact.lastRecvSeq])
  {
    assert FitsAt(First(Other(r)), peer, s.contact.lastRecvSeq);
  }

  lemma NextTracked(sys: System, r: Role)
    requires Inv(sys) && HasNext(sys, r)
    ensures && Tracks(PeerCursor(sys, r), RecvEpoch(sys.Get(r)), sys.Get(r).contact.ratchet.recvN)
            && Fits(PeerCursor(sys, r), NextSlot(sys, r))
  {
    SeeSide(sys, r);
    SeeSide(sys, Other(r));
    Tracked(sys.schedule, sys.nextKey, r, sys.Get(r), sys.Get(Other(r)).log);
  }

  lemma SlotPlaced(sys: System, r: Role, i: nat)
    requires Inv(sys) && Later(sys, r, i)
    ensures Near(SlotAt(sys, r, i), RecvEpoch(sys.Get(r)))
  {
    SeeSlot(sys, r, i);
    if !Here(sys, r, i) {
      IsAhead(sys, r, i);
    }
  }

  lemma NextGap(sys: System, r: Role)
    requires HasNext(sys, r) && Near(NextSlot(sys, r), RecvEpoch(sys.Get(r)))
             && Fits(PeerCursor(sys, r), NextSlot(sys, r))
    requires Tracks(PeerCursor(sys, r), RecvEpoch(sys.Get(r)), sys.Get(r).contact.ratchet.recvN)
    ensures NextIs(sys, r)
  {
    BacklogIsGap(PeerCursor(sys, r), NextSlot(sys, r), RecvEpoch(sys.Get(r)), sys.Get(r).contact.ratchet.recvN);
  }

  lemma SeeNext(sys: System, r: Role)
    requires Inv(sys) && HasNext(sys, r)
    ensures NextIs(sys, r)
  {
    NextTracked(sys, r);
    SlotPlaced(sys, r, sys.Get(r).contact.lastRecvSeq);
    NextGap(sys, r);
  }

  // The next blob opens exactly when its backlog, and the keys stored with it, are within the
  // ratchet's two limits.
  lemma NextOpens(sys: System, r: Role, newKey: KeyId)
    requires Inv(sys) && HasNext(sys, r)
    ensures var res := R.Decrypt(sys.Get(r).contact.ratchet, Framed(NextSlot(sys, r).payload), newKey);
            && (res.Success? <==> WithinGap(NextBacklog(sys, r), NextHeld(sys, r)))
            && (res.Success? ==> res.value.1 == NextSlot(sys, r).payload.box.plaintext)
            && (res.Failure? ==> res.error != R.AlreadyReceived)
  {
    SeeNext(sys, r);
    SlotOpens(sys, r, sys.Get(r).contact.lastRecvSeq, newKey);
  }

  // ---------- what does not open ----------

  // The epoch received in by the owner of key e.
  function Facing(e: nat): nat { if e == 0 then 1 else e - 1 }

  // Chains of one's own epochs are neither the one received on nor one agreement past the root.
  lemma OwnChain(sch: Schedule, e: nat, j: nat)
    requires |sch.keys| >= 2 && e < |sch.keys| && 1 <= j <= e && e % 2 == j % 2
    ensures sch.Chain(j) != sch.Chain(Facing(e))
    ensures sch.Chain(j).ChainKdf? ==> sch.Chain(j).root != sch.Root(e)
  {
    if j < e - 1 {
      sch.ChainsDiffer(j, e - 1);
    } else {
      sch.ChainsDiffer(e - 1, e);
    }
    if j >= 2 {
      sch.RootsDiffer(j - 1, e);
    }
  }

  lemma BorrowedChain(sch: Schedule, e: nat, dh: Shared)
    requires |sch.keys| >= 2 && e < |sch.keys| && e % 2 == 0
    ensures ChainKdf(sch.Root(1), dh) != sch.Chain(Facing(e)) && sch.Root(1) != sch.Root(e)
  {
    if e == 0 {
      sch.RootsDiffer(0, 1);
    } else {
      sch.RootsDiffer(1, e);
      if e > 2 {
        sch.RootsDiffer(1, e - 2);
      }
    }
  }

  // The key of a slot of one's own.
  ghost predicate OwnKey(sch: Schedule, e: nat, slot: Slot)
    requires |sch.keys| >= 2 && e < |sch.keys|
  {
    slot.Sent?
    && match slot.at
       case At(j, n) => 1 <= j <= e && e % 2 == j % 2 && slot.payload.box.key == MessageKey(sch.Chain(j), n)
       case Borrowed(x) =>
         e % 2 == 0 && slot.payload.box.key == MessageKey(ChainKdf(sch.Root(1), DH(sch.keys[1], x)), 0)
  }

  lemma OwnKeyIsElsewhere(sch: Schedule, e: nat, slot: Slot)
    requires |sch.keys| >= 2 && e < |sch.keys| && OwnKey(sch, e, slot)
    ensures var start := slot.payload.box.key.start;
            start != sch.Chain(Facing(e)) && (start.ChainKdf? ==> start.root != sch.Root(e))
  {
    match slot.at
    case At(j, _) => OwnChain(sch, e, j);
    case Borrowed(x) => BorrowedChain(sch, e, DH(sch.keys[1], x));
  }

  lemma OwnSlot(sch: Schedule, nextKey: nat, r: Role, s: Side, peer: seq<Slot>, i: nat)
    requires Wired(sch) && SideIn(sch, nextKey, r, s, peer) && i < |s.log| && s.log[i].Sent?
    ensures s.epoch < |sch.keys| && s.contact.ratchet.rootKey == sch.Root(s.epoch)
    ensures OnChain(s.contact.ratchet, sch.Chain(Facing(s.epoch))) && OwnKey(sch, s.epoch, s.log[i])
  {
    assert WellSealed(sch, nextKey, r, s, i);
  }

  // What a side sealed itself lies under none of the chains it can open.
  lemma OwnBoxStaysShut(q: R.State, sch: Schedule, e: nat, slot: Slot, blob: Blob, newKey: KeyId)
    requires |sch.keys| >= 2 && e < |sch.keys| && q.rootKey == sch.Root(e) && OnChain(q, sch.Chain(Facing(e)))
    requires OwnKey(sch, e, slot) && blob.Framed? && blob.payload.box == slot.payload.box
    ensures R.Decrypt(q, blob, newKey).Failure?
  {
    OwnKeyIsElsewhere(sch, e, slot);
    if R.Decrypt(q, blob, newKey).Success? {
      OpenedKey(q, sch.Chain(Facing(e)), blob, newKey);
      assert false;
    }
  }

  // A side never opens what it sealed itself, whatever header it comes back under.
  lemma NoReflection(sys: System, r: Role, blob: Blob, newKey: KeyId)
    requires Inv(sys) && blob.Framed? && SealedIn(sys.Get(r).log, blob.payload.box)
    ensures R.Decrypt(sys.Get(r).contact.ratchet, blob, newKey).Failure?
  {
    var i :| 0 <= i < |sys.Get(r).log| && sys.Get(r).log[i].Sent? && sys.Get(r).log[i].payload.box == blob.payload.box;
    SeeSide(sys, r);
    OwnSlot(sys.schedule, sys.nextKey, r, sys.Get(r), sys.Get(Other(r)).log, i);
    OwnBoxStaysShut(sys.Get(r).contact.ratchet, sys.schedule, sys.Get(r).epoch, sys.Get(r).log[i], blob, newKey);
  }

  ghost predicate FromPeer(log: seq<Slot>, i: nat, blob: Blob, m: InnerMessage) {
    i < |log| && log[i].Sent? && blob == Framed(log[i].payload) && m.seqNo == i + 1
  }

  // What opens came from the peer, under its own header.
  lemma OnlyPeerOpens(sys: System, r: Role, blob: Blob, newKey: KeyId)
    requires Inv(sys) && Presentable(sys, blob)
    requires R.Decrypt(sys.Get(r).contact.ratchet, blob, newKey).Success?
    ensures exists i: nat :: FromPeer(sys.Get(Other(r)).log, i, blob,
                                      R.Decrypt(sys.Get(r).contact.ratchet, blob, newKey).value.1)
  {
    var me, peer := sys.Get(r), sys.Get(Other(r));
    assert SideInv(sys, r) && SideInv(sys, Other(r));
    OpenedKey(me.contact.ratchet, sys.schedule.Chain(RecvEpoch(me)), blob, newKey);
    if SealedIn(me.log, blob.payload.box) {
      NoReflection(sys, r, blob, newKey);
    }
    assert SealedIn(peer.log, blob.payload.box);
    var i :| 0 <= i < |peer.log| && peer.log[i].Sent? && peer.log[i].payload.box == blob.payload.box;
    assert WellSealed(sys.schedule, sys.nextKey, Other(r), peer, i);
    assert FromPeer(peer.log, i, blob, R.Decrypt(me.contact.ratchet, blob, newKey).value.1);
  }

  // The next blob, unexpired, its backlog within the one limit and, on top of the keys the
  // receiver has stored, within the other.
  ghost predicate Acceptable(sys: System, r: Role, blob: Blob, now: int) {
    && HasNext(sys, r)
    && blob == Framed(NextSlot(sys, r).payload)
    && now <= NextSlot(sys, r).payload.box.plaintext.validUntil
    && WithinGap(NextBacklog(sys, r), NextHeld(sys, r))
  }

  lemma NextIsStamped(sys: System, r: Role)
    requires Inv(sys) && HasNext(sys, r)
    ensures var m := NextSlot(sys, r).payload.box.plaintext;
            m.seqNo == sys.Get(r).contact.lastRecvSeq + 1 && m.conversation == sys.Get(r).contact.conversation
  {
    SeeSide(sys, Other(r));
    assert WellSealed(sys.schedule, sys.nextKey, Other(r), sys.Get(Other(r)), sys.Get(r).contact.lastRecvSeq);
  }

  // The session gate lets the next number through until it expires.
  lemma GateAccepts(c: S.Contact, blob: Blob, m: InnerMessage, now: int, newKey: KeyId)
    requires m.seqNo == c.lastRecvSeq + 1 && m.conversation == c.conversation
    requires R.Decrypt(c.ratchet, blob, newKey).Success? ==> R.Decrypt(c.ratchet, blob, newKey).value.1 == m
    ensures var res := S.DecryptInbound(c, blob, now, newKey);
            && (res.Success? <==> R.Decrypt(c.ratchet, blob, newKey).Success? && now <= m.validUntil)
            && (res.Success? ==> res.value.1 == m)
  {
  }

  lemma NextIsAccepted(sys: System, r: Role, now: int, newKey: KeyId)
    requires Inv(sys) && HasNext(sys, r)
    ensures var p := NextSlot(sys, r).payload;
            var res := S.DecryptInbound(sys.Get(r).contact, Framed(p), now, newKey);
            && (res.Success? <==> Acceptable(sys, r, Framed(p), now))
            && (res.Success? ==> res.value.1 == p.box.plaintext)
  {
    NextIsStamped(sys, r);
    NextOpens(sys, r, newKey);
    var p := NextSlot(sys, r).payload;
    GateAccepts(sys.Get(r).contact, Framed(p), p.box.plaintext, now, newKey);
  }

  // The session gate: a message with any other sequence number is turned away.
  lemma GateRejects(c: S.Contact, blob: Blob, now: int, newKey: KeyId)
    requires R.Decrypt(c.ratchet, blob, newKey).Success? ==>
               R.Decrypt(c.ratchet, blob, newKey).value.1.seqNo != c.lastRecvSeq + 1
    ensures S.DecryptInbound(c, blob, now, newKey).Failure?
  {
  }

  lemma OthersAreRejected(sys: System, r: Role, blob: Blob, now: int, newKey: KeyId)
    requires Inv(sys) && Presentable(sys, blob)
    requires !(HasNext(sys, r) && blob == Framed(NextSlot(sys, r).payload))
    ensures S.DecryptInbound(sys.Get(r).contact, blob, now, newKey).Failure?
  {
    var c, log := sys.Get(r).contact, sys.Get(Other(r)).log;
    if R.Decrypt(c.ratchet, blob, newKey).Success? {
      OnlyPeerOpens(sys, r, blob, newKey);
      var i: nat :| FromPeer(log, i, blob, R.Decrypt(c.ratchet, blob, newKey).value.1);
      assert i != c.lastRecvSeq;
    }
    GateRejects(c, blob, now, newKey);
  }

  // Against any blob the network can present: a side accepts it if and only if it is the
  // peer's next message in sequence, unexpired and within the limits; and what it then reads
  // is what the peer wrote.
  lemma AcceptsExactlyNext(sys: System, r: Role, blob: Blob, now: int, newKey: KeyId)
    requires Inv(sys) && Presentable(sys, blob)
    ensures S.DecryptInbound(sys.Get(r).contact, blob, now, newKey).Success? <==> Acceptable(sys, r, blob, now)
    ensures S.DecryptInbound(sys.Get(r).contact, blob, now, newKey).Success? ==>
              S.DecryptInbound(sys.Get(r).contact, blob, now, newKey).value.1 == NextSlot(sys, r).payload.box.plaintext
  {
    if HasNext(sys, r) && blob == Framed(NextSlot(sys, r).payload) {
      NextIsAccepted(sys, r, now, newKey);
    } else {
      OthersAreRejected(sys, r, blob, now, newKey);
    }
  }
}
