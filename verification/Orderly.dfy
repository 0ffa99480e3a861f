/** Delivery at its best: every message presented once, in order, and accepted. Even then the
    attempts that are rolled back leave keys behind, and how many can be read off the log. */
module Orderly {
  import opened Crypto
  import opened Message
  import opened Log
  import opened SkippedKeys
  import opened TwoParty
  import opened Opening
  import opened Acceptance
  import opened Preservation
  import opened Runs
  import R = Ratchet
  import S = Session

  // ---------- counting ----------

  // Those of from..upto-1 that are stored already are from..lo-1.
  lemma AddsCount(m: map<R.SkipId, MessageKey>, t: map<R.SkipId, MessageKey>, dh: KeyId, from: nat, lo: nat, upto: nat)
    requires from <= lo <= upto && Adds(m, t, dh, from, upto) && AllStored(m, dh, from, lo)
    requires forall id <- m :: id.dh == dh ==> id.n < lo
    ensures |t| == |m| + (upto - lo)
  {
    var more := Ids(dh, lo, upto);
    IdsCount(dh, lo, upto);
    forall id | id in t.Keys && id !in m.Keys ensures id in more {
      assert id == R.SkipId(dh, id.n);
    }
    forall id | id in m.Keys ensures id !in more {
    }
    assert t.Keys == m.Keys + more by {
      forall id | id in more ensures id in t {
      }
    }
  }

  lemma {:induction false} CursorCounts(first: nat, log: seq<Slot>)
    ensures var c := CursorAfter(first, log); c.probed <= c.sinceText <= c.auxiliary <= c.n
    decreases |log|
  {
    if log != [] {
      CursorCounts(first, log[..|log| - 1]);
    }
  }

  // ---------- the table and the log ----------

  // The positions of the profile and presence messages of the epoch, but for those behind the
  // last text that no attempt has passed over yet.
  ghost predicate Tally(c: Cursor, t: map<R.SkipId, MessageKey>, recvN: nat, dh: KeyId) {
    && c.probed <= c.sinceText && |t| + c.sinceText == c.auxiliary + c.probed
    && (forall id <- t :: id.dh == dh && id.n < recvN + c.probed)
    && AllStored(t, dh, recvN, recvN + c.probed)
  }

  ghost predicate Tallied(sys: System, r: Role) {
    var f, q := RecvEpoch(sys.Get(r)), sys.Get(r).contact.ratchet;
    && sys.Get(r).contact.lastRecvSeq <= |sys.Get(Other(r)).log|
    && f < |sys.schedule.keys|
    && (PeerCursor(sys, r).epoch == f ==> Tally(PeerCursor(sys, r), q.skipped, q.recvN, sys.schedule.keys[f]))
  }

  lemma HereTally(c: Cursor, slot: Slot, m: map<R.SkipId, MessageKey>, t: map<R.SkipId, MessageKey>, recvN: nat,
                  dh: KeyId)
    requires Tally(c, m, recvN, dh) && slot.Sent? && slot.at == At(c.epoch, recvN + c.sinceText)
    requires Adds(m, t, dh, recvN, recvN + c.sinceText)
    ensures Tally(Next(c, slot), t, if slot.payload.box.plaintext.kind.Text? then recvN + c.sinceText + 1 else recvN,
                  dh)
  {
    AddsCount(m, t, dh, recvN, recvN + c.probed, recvN + c.sinceText);
  }

  // A text under a new key, which as many others have preceded as its number says.
  lemma AheadTally(c: Cursor, slot: Slot, t: map<R.SkipId, MessageKey>, dh: KeyId)
    requires slot.Sent? && slot.at.At? && slot.payload.box.plaintext.kind.Text?
    requires if slot.at.epoch == c.epoch then c.auxiliary == slot.at.n else slot.at.n == 0
    requires Adds(map[], t, dh, 0, slot.at.n)
    ensures Tally(Next(c, slot), t, slot.at.n + 1, dh)
  {
    AddsCount(map[], t, dh, 0, 0, slot.at.n);
  }

  // ---------- one step ----------

  // Whatever r is given it accepts, and it reads back the stored keys it had.
  ghost predicate Smooth(sys: System, step: Step, r: Role) {
    && (step.Receive? && step.role == r ==>
          S.DecryptInbound(sys.Get(r).contact, step.blob, step.now, step.newKey).Success?)
    && (step.Reload? && step.role == r ==> step.table == sys.Get(r).contact.ratchet.skipped)
  }

  // What r receives with stays, and so does the peer's log up to there.
  ghost predicate SameReceiver(a: System, b: System, r: Role) {
    var q, u := a.Get(r).contact.ratchet, b.Get(r).contact.ratchet;
    && RecvEpoch(b.Get(r)) == RecvEpoch(a.Get(r)) && u.skipped == q.skipped && u.recvN == q.recvN
    && b.Get(r).contact.lastRecvSeq == a.Get(r).contact.lastRecvSeq
    && a.Get(Other(r)).log <= b.Get(Other(r)).log && a.schedule.keys <= b.schedule.keys
  }

  lemma SameTallied(a: System, b: System, r: Role)
    requires Tallied(a, r) && SameReceiver(a, b, r)
    ensures Tallied(b, r)
  {
    var k := a.Get(r).contact.lastRecvSeq;
    assert b.Get(Other(r)).log[..k] == a.Get(Other(r)).log[..k];
  }

  lemma PendingLeavesReceiver(sys: System, d: S.Draft, now: int, k: KeyId)
    requires Inv(sys) && Pending(sys.inviter) && !d.kind.Receipt? && k >= sys.nextKey
    requires S.Encrypt(sys.inviter.contact, d, now, k).Success?
    ensures SameReceiver(sys, Apply(sys, SendMessage(Inviter, d, now, k)), Inviter)
  {
    SeeSide(sys, Inviter);
    PendingSendIs(sys, d, now, k);
  }

  lemma SteadyLeavesReceiver(sys: System, r: Role, d: S.Draft, now: int, k: KeyId)
    requires !Pending(sys.Get(r)) && !d.kind.Receipt? && S.Encrypt(sys.Get(r).contact, d, now, k).Success?
    ensures SameReceiver(sys, Apply(sys, SendMessage(r, d, now, k)), r)
  {
    SteadySendIs(sys, r, d, now, k);
  }

  lemma SendLeavesReceiver(sys: System, r: Role, d: S.Draft, now: int, k: KeyId)
    requires Inv(sys) && !d.kind.Receipt? && k >= sys.nextKey
    ensures SameReceiver(sys, Apply(sys, SendMessage(r, d, now, k)), r)
  {
    if S.Encrypt(sys.Get(r).contact, d, now, k).Success? {
      if Pending(sys.Get(r)) {
        SeeSide(sys, r);
        PendingLeavesReceiver(sys, d, now, k);
      } else {
        SteadyLeavesReceiver(sys, r, d, now, k);
      }
    }
  }

  lemma ReceiptLeavesReceiver(sys: System, r: Role, d: S.Draft, now: int, k: KeyId)
    ensures SameReceiver(sys, Apply(sys, SendReceipt(r, d, now, k)), r)
  {
  }

  lemma LoseLeavesReceiver(sys: System, r: Role)
    ensures SameReceiver(sys, Apply(sys, LoseNumber(r)), r)
  {
  }

  lemma ReloadLeavesReceiver(sys: System, r: Role, table: map<R.SkipId, MessageKey>)
    requires table == sys.Get(r).contact.ratchet.skipped
    ensures SameReceiver(sys, Apply(sys, Reload(r, table)), r)
  {
  }

  lemma OtherStays(sys: System, step: Step, r: Role)
    requires step.role != r
    ensures Apply(sys, step).Get(r) == sys.Get(r)
  {
  }

  lemma LogGrows(sys: System, step: Step, r: Role)
    ensures sys.Get(r).log <= Apply(sys, step).Get(r).log
  {
  }

  lemma ScheduleGrows(sys: System, step: Step)
    ensures sys.schedule.keys <= Apply(sys, step).schedule.keys
  {
  }

  lemma OtherLeavesReceiver(sys: System, step: Step, r: Role)
    requires step.role != r
    ensures SameReceiver(sys, Apply(sys, step), r)
  {
    OtherStays(sys, step, r);
    LogGrows(sys, step, Other(r));
    ScheduleGrows(sys, step);
  }

  // The receiving side after it has accepted the next message.
  lemma NonTextTallied(sys: System, r: Role, t: Side)
    requires Tallied(sys, r) && HasNext(sys, r) && NextIs(sys, r)
    requires NextSlot(sys, r).at.Borrowed? ==> PeerCursor(sys, r).epoch != RecvEpoch(sys.Get(r))
    requires var s, slot := sys.Get(r), NextSlot(sys, r);
             && !slot.payload.box.plaintext.kind.Text?
             && slot.payload.header.n == (if slot.at.At? then slot.at.n else 0)
             && t.contact.lastRecvSeq == s.contact.lastRecvSeq + 1 && RecvEpoch(t) == RecvEpoch(s)
             && t.contact.ratchet == s.contact.ratchet.(skipped := t.contact.ratchet.skipped)
             && (NextHere(sys, r) ==>
                   Tracks(PeerCursor(sys, r), RecvEpoch(s), s.contact.ratchet.recvN)
                   && Adds(s.contact.ratchet.skipped, t.contact.ratchet.skipped, sys.schedule.keys[RecvEpoch(s)],
                           s.contact.ratchet.recvN, slot.at.n))
    ensures Tallied(sys.Put(r, t), r)
  {
    var s, slot, next := sys.Get(r), NextSlot(sys, r), sys.Put(r, t);
    CursorStep(First(Other(r)), sys.Get(Other(r)).log, s.contact.lastRecvSeq);
    assert PeerCursor(next, r) == Next(PeerCursor(sys, r), slot);
    if NextHere(sys, r) {
      HereTally(PeerCursor(sys, r), slot, s.contact.ratchet.skipped, t.contact.ratchet.skipped,
                s.contact.ratchet.recvN, sys.schedule.keys[RecvEpoch(s)]);
    }
  }

  lemma HereTextTallied(sys: System, r: Role, t: Side)
    requires Tallied(sys, r) && HasNext(sys, r) && NextIs(sys, r) && NextHere(sys, r)
    requires var s, slot := sys.Get(r), NextSlot(sys, r);
             var q, u := s.contact.ratchet, t.contact.ratchet;
             && slot.payload.box.plaintext.kind.Text?
             && t.contact.lastRecvSeq == s.contact.lastRecvSeq + 1 && RecvEpoch(t) == RecvEpoch(s)
             && Tracks(PeerCursor(sys, r), RecvEpoch(s), q.recvN)
             && Adds(q.skipped, u.skipped, sys.schedule.keys[RecvEpoch(s)], q.recvN, slot.at.n)
             && u.recvN == slot.at.n + 1
    ensures Tallied(sys.Put(r, t), r)
  {
    var s, slot := sys.Get(r), NextSlot(sys, r);
    CursorStep(First(Other(r)), sys.Get(Other(r)).log, s.contact.lastRecvSeq);
    assert PeerCursor(sys.Put(r, t), r) == Next(PeerCursor(sys, r), slot);
    HereTally(PeerCursor(sys, r), slot, s.contact.ratchet.skipped, t.contact.ratchet.skipped,
              s.contact.ratchet.recvN, sys.schedule.keys[RecvEpoch(s)]);
  }

  lemma AheadTextTallied(sys: System, next: System, r: Role)
    requires HasNext(sys, r) && NextIs(sys, r) && NextSlot(sys, r).at.At?
    requires next.Get(Other(r)) == sys.Get(Other(r))
    requires var s, t, slot := sys.Get(r), next.Get(r), NextSlot(sys, r);
             && slot.payload.box.plaintext.kind.Text? && slot.at.epoch == RecvEpoch(s) + 2
             && t.contact.lastRecvSeq == s.contact.lastRecvSeq + 1
             && RecvEpoch(t) == slot.at.epoch < |next.schedule.keys|
             && Tracks(PeerCursor(sys, r), RecvEpoch(s), s.contact.ratchet.recvN)
             && Adds(map[], t.contact.ratchet.skipped, next.schedule.keys[slot.at.epoch], 0, slot.at.n)
             && t.contact.ratchet.recvN == slot.at.n + 1
    ensures Tallied(next, r)
  {
    var log, k := sys.Get(Other(r)).log, sys.Get(r).contact.lastRecvSeq;
    CursorStep(First(Other(r)), log, k);
    CursorCounts(First(Other(r)), log[..k]);
    assert PeerCursor(next, r) == Next(PeerCursor(sys, r), NextSlot(sys, r));
    AheadTally(PeerCursor(sys, r), NextSlot(sys, r), next.Get(r).contact.ratchet.skipped,
               next.schedule.keys[NextSlot(sys, r).at.epoch]);
  }

  // ---------- what is accepted ----------

  lemma CursorFrom(first: nat, log: seq<Slot>, k: nat)
    requires InOrder(first, log) && k <= |log|
    ensures CursorAfter(first, log[..k]).epoch >= first
  {
    CursorAdvances(first, log, 0, k);
    assert log[..0] == [];
  }

  lemma BorrowedIsAhead(sys: System, r: Role)
    requires Inv(sys) && HasNext(sys, r) && NextSlot(sys, r).at.Borrowed?
    ensures PeerCursor(sys, r).epoch != RecvEpoch(sys.Get(r)) && !NextHere(sys, r)
  {
    SeeNext(sys, r);
    SeeSlot(sys, r, sys.Get(r).contact.lastRecvSeq);
    SeeSide(sys, Other(r));
    CursorFrom(First(Other(r)), sys.Get(Other(r)).log, sys.Get(r).contact.lastRecvSeq);
  }

  // Under the key in use the attempt passes over the whole backlog.
  lemma HereLeaves(sys: System, r: Role, k: KeyId)
    requires Inv(sys) && HasNext(sys, r) && NextHere(sys, r)
    requires R.Decrypt(sys.Get(r).contact.ratchet, Framed(NextSlot(sys, r).payload), k).Success?
    ensures var q, slot := sys.Get(r).contact.ratchet, NextSlot(sys, r);
            var u := R.Decrypt(q, Framed(slot.payload), k).value.0;
            && RecvEpoch(sys.Get(r)) < |sys.schedule.keys| && slot.payload.header.n == slot.at.n
            && Adds(q.skipped, u.skipped, sys.schedule.keys[RecvEpoch(sys.Get(r))], q.recvN, slot.at.n)
            && u.recvN == slot.at.n + 1
  {
    var l := sys.Get(r).contact.lastRecvSeq;
    SeeNext(sys, r);
    SeeSlot(sys, r, l);
    SeeSide(sys, r);
    IsHere(sys, r, l);
    OpensInEpoch(sys.Get(r).contact.ratchet, sys.schedule.Chain(RecvEpoch(sys.Get(r))), NextSlot(sys, r).payload, k);
  }

  lemma NonTextAccepted(sys: System, r: Role, k: KeyId)
    requires Inv(sys) && Tallied(sys, r) && HasNext(sys, r) && !NextSlot(sys, r).payload.box.plaintext.kind.Text?
    requires R.Decrypt(sys.Get(r).contact.ratchet, Framed(NextSlot(sys, r).payload), k).Success?
    ensures var s, p := sys.Get(r), NextSlot(sys, r).payload;
            Tallied(sys.Put(r, AfterRolledBack(s, R.Leftover(s.contact.ratchet, Framed(p)), p.box.plaintext)), r)
  {
    var s, p := sys.Get(r), NextSlot(sys, r).payload;
    SeeNext(sys, r);
    NextTracked(sys, r);
    NextIsStamped(sys, r);
    SlotPlaced(sys, r, s.contact.lastRecvSeq);
    if NextSlot(sys, r).at.Borrowed? {
      BorrowedIsAhead(sys, r);
    } else if NextHere(sys, r) {
      HereLeaves(sys, r, k);
      SuccessIsLeftover(s.contact.ratchet, Framed(p), k);
    }
    NonTextTallied(sys, r, AfterRolledBack(s, R.Leftover(s.contact.ratchet, Framed(p)), p.box.plaintext));
  }

  lemma HereTextAccepted(sys: System, r: Role, k: KeyId)
    requires Inv(sys) && Tallied(sys, r) && HasNext(sys, r) && NextHere(sys, r)
    requires NextSlot(sys, r).payload.box.plaintext.kind.Text?
    requires R.Decrypt(sys.Get(r).contact.ratchet, Framed(NextSlot(sys, r).payload), k).Success?
    ensures var (q, m) := R.Decrypt(sys.Get(r).contact.ratchet, Framed(NextSlot(sys, r).payload), k).value;
            q.selfKey == sys.Get(r).contact.ratchet.selfKey && Tallied(sys.Put(r, AfterText(sys.Get(r), q, m)), r)
  {
    var (q, m) := R.Decrypt(sys.Get(r).contact.ratchet, Framed(NextSlot(sys, r).payload), k).value;
    SeeNext(sys, r);
    NextTracked(sys, r);
    NextIsStamped(sys, r);
    NextOpens(sys, r, k);
    HereLeaves(sys, r, k);
    HereTextKeeps(sys, r, k);
    StaysPending(sys.Get(r).contact.ratchet, Framed(NextSlot(sys, r).payload), k);
    HereTextTallied(sys, r, AfterText(sys.Get(r), q, m));
  }

  lemma StaysPending(q: R.State, blob: Blob, k: KeyId)
    requires R.Decrypt(q, blob, k).Success?
    ensures R.Decrypt(q, blob, k).value.0.pendingPeer == q.pendingPeer
  {
  }

  lemma AheadTextAccepted(sys: System, r: Role, k: KeyId)
    requires Inv(sys) && HasNext(sys, r) && !NextHere(sys, r) && k >= sys.nextKey
    requires NextSlot(sys, r).payload.box.plaintext.kind.Text?
    requires R.Decrypt(sys.Get(r).contact.ratchet, Framed(NextSlot(sys, r).payload), k).Success?
    ensures var (q, m) := R.Decrypt(sys.Get(r).contact.ratchet, Framed(NextSlot(sys, r).payload), k).value;
            && q.selfKey == k
            && Tallied(sys.Put(r, AfterText(sys.Get(r), q, m).(epoch := |sys.schedule.keys|))
                          .(schedule := sys.schedule.Extend(k), nextKey := k + 1), r)
  {
    var s, slot, sch, l := sys.Get(r), NextSlot(sys, r), sys.schedule, sys.Get(r).contact.lastRecvSeq;
    var (q, m) := R.Decrypt(s.contact.ratchet, Framed(slot.payload), k).value;
    SeeNext(sys, r);
    NextTracked(sys, r);
    NextIsStamped(sys, r);
    SeeSlot(sys, r, l);
    IsAhead(sys, r, l);
    AheadFacts(sys, r);
    OpensByDhStep(s.contact.ratchet, slot.payload, k);
    AheadTextTallied(sys, sys.Put(r, AfterText(s, q, m).(epoch := |sch.keys|))
                             .(schedule := sch.Extend(k), nextKey := k + 1), r);
  }

  lemma AcceptTallied(sys: System, r: Role, blob: Blob, now: int, k: KeyId)
    requires Inv(sys) && Tallied(sys, r) && Enabled(sys, Receive(r, blob, now, k))
    requires S.DecryptInbound(sys.Get(r).contact, blob, now, k).Success?
    ensures Tallied(Apply(sys, Receive(r, blob, now, k)), r)
  {
    AcceptsExactlyNext(sys, r, blob, now, k);
    ReceiveIs(sys, r, blob, now, k);
    if !NextSlot(sys, r).payload.box.plaintext.kind.Text? {
      NonTextAccepted(sys, r, k);
    } else if NextHere(sys, r) {
      HereTextAccepted(sys, r, k);
    } else {
      AheadKey(sys, r, k);
      AheadTextAccepted(sys, r, k);
    }
  }

  lemma QuietStep(sys: System, step: Step, r: Role)
    requires Inv(sys) && Enabled(sys, step) && Smooth(sys, step, r) && !(step.Receive? && step.role == r)
    ensures SameReceiver(sys, Apply(sys, step), r)
  {
    if step.role != r {
      OtherLeavesReceiver(sys, step, r);
    } else {
      match step
      case SendMessage(_, d, now, k) => SendLeavesReceiver(sys, r, d, now, k);
      case SendReceipt(_, d, now, k) => ReceiptLeavesReceiver(sys, r, d, now, k);
      case LoseNumber(_) => LoseLeavesReceiver(sys, r);
      case Reload(_, table) => ReloadLeavesReceiver(sys, r, table);
    }
  }

  lemma StepTallied(sys: System, step: Step, r: Role)
    requires Inv(sys) && Enabled(sys, step) && Smooth(sys, step, r) && Tallied(sys, r)
    ensures Tallied(Apply(sys, step), r)
  {
    if step.Receive? && step.role == r {
      AcceptTallied(sys, r, step.blob, step.now, step.newKey);
    } else {
      QuietStep(sys, step, r);
      SameTallied(sys, Apply(sys, step), r);
    }
  }

  // ---------- whole runs ----------

  ghost predicate SmoothRun(sys: System, steps: seq<Step>, r: Role)
    decreases |steps|
  {
    steps == [] || (Smooth(sys, steps[0], r) && SmoothRun(Apply(sys, steps[0]), steps[1..], r))
  }

  lemma {:induction false} RunTallied(sys: System, steps: seq<Step>, r: Role)
    requires Inv(sys) && Run(sys, steps) && SmoothRun(sys, steps, r) && Tallied(sys, r)
    ensures Inv(After(sys, steps)) && Tallied(After(sys, steps), r)
    decreases |steps|
  {
    if steps != [] {
      StepKeepsInv(sys, steps[0]);
      StepTallied(sys, steps[0], r);
      RunTallied(Apply(sys, steps[0]), steps[1..], r);
    }
  }

  // The backlog of a message that arrives in order, and the keys stored with it: counts on the
  // sender's log alone. If nothing of an attempt were left behind, it would be the profile and
  // presence messages of the epoch, without those counted twice.
  function OrderlyBacklog(c: Cursor, s: Slot): (nat, nat)
    requires s.Sent?
  {
    if s.at.At? && s.at.epoch == c.epoch then (c.sinceText, c.auxiliary + c.probed) else (0, 0)
  }

  lemma OrderlyHeld(sys: System, r: Role)
    requires Inv(sys) && Tallied(sys, r) && HasNext(sys, r)
    ensures var o := OrderlyBacklog(PeerCursor(sys, r), NextSlot(sys, r));
            WithinGap(o.0, o.1) <==> WithinGap(NextBacklog(sys, r), NextHeld(sys, r))
  {
    SeeNext(sys, r);
    NextTracked(sys, r);
    CursorCounts(First(Other(r)), sys.Get(Other(r)).log[..sys.Get(r).contact.lastRecvSeq]);
    SlotPlaced(sys, r, sys.Get(r).contact.lastRecvSeq);
  }

  lemma PairedTallied(sys: System, master: Master, hybrid: bool, inviterKey: KeyId, joinerKey: KeyId,
                      conversation: string, r: Role)
    requires Paired(sys, master, hybrid, inviterKey, joinerKey, conversation)
    ensures Tallied(sys, r)
  {
  }

  // From a completed pairing, while everything given to a side is accepted in its turn: its next
  // message is accepted if and only if it is unexpired and its orderly backlog is within the
  // ratchet's limits.
  lemma InOrderDelivery(sys: System, steps: seq<Step>, master: Master, hybrid: bool,
                        inviterKey: KeyId, joinerKey: KeyId, conversation: string, r: Role, now: int, newKey: KeyId)
    requires Paired(sys, master, hybrid, inviterKey, joinerKey, conversation)
    requires Run(sys, steps) && SmoothRun(sys, steps, r) && HasNext(After(sys, steps), r)
    ensures var end := After(sys, steps);
            var p, o := NextSlot(end, r).payload, OrderlyBacklog(PeerCursor(end, r), NextSlot(end, r));
            S.DecryptInbound(end.Get(r).contact, Framed(p), now, newKey).Success? <==>
            now <= p.box.plaintext.validUntil && WithinGap(o.0, o.1)
  {
    PairedInv(sys, master, hybrid, inviterKey, joinerKey, conversation);
    PairedTallied(sys, master, hybrid, inviterKey, joinerKey, conversation, r);
    RunTallied(sys, steps, r);
    OrderlyHeld(After(sys, steps), r);
    NextIsAccepted(After(sys, steps), r, now, newKey);
  }
}
