/** Every event, crashes included, keeps the delivery invariant. */
module DeliverySteps {
  import opened Crypto
  import opened Message
  import opened Log
  import opened TwoParty
  import opened Acceptance
  import opened Preservation
  import opened LocalStore
  import opened SkippedKeys
  import opened Delivery
  import R = Ratchet
  import Runs
  import S = Session

  // ---------- how the history grows ----------

  ghost predicate Grown(a: System, b: System) {
    && a.inviter.log <= b.inviter.log && a.joiner.log <= b.joiner.log
    && a.inviter.accepted <= b.inviter.accepted && a.joiner.accepted <= b.joiner.accepted
    && a.nextKey <= b.nextKey
    && forall x: KeyId | x < a.nextKey && x !in a.schedule.keys :: x !in b.schedule.keys
  }

  // r moves the history on; the other side stays as it is.
  ghost predicate Moved(a: System, b: System, r: Role) {
    Grown(a, b) && b.Get(Other(r)) == a.Get(Other(r))
  }

  lemma AdoptMoves(sys: System, r: Role, c: S.Contact, k: KeyId)
    requires k >= sys.nextKey && c.ratchet.selfKey in {sys.Get(r).contact.ratchet.selfKey, k}
    ensures var next := Adopt(sys, r, c, k);
            && Moved(sys, next, r) && next.Get(r).log == sys.Get(r).log && next.Get(r).accepted == sys.Get(r).accepted
            && next.Get(r).contact == c
  {
  }

  lemma SendMoves(sys: System, r: Role, d: S.Draft, now: int, k: KeyId)
    requires k >= sys.nextKey && S.Encrypt(sys.Get(r).contact, d, now, k).Success?
    ensures var (c, p) := S.Encrypt(sys.Get(r).contact, d, now, k).value;
            var next := Apply(sys, SendMessage(r, d, now, k));
            && Moved(sys, next, r) && next.Get(r).contact == c && next.Get(r).accepted == sys.Get(r).accepted
            && next.Get(r).log == sys.Get(r).log + [Sent(p, At(next.Get(r).epoch, p.header.n))]
            && p.box.plaintext.kind == d.kind
  {
    var (c, p) := S.Encrypt(sys.Get(r).contact, d, now, k).value;
    AdoptMoves(sys, r, c, k);
  }

  lemma ReceiptMoves(sys: System, r: Role, d: S.Draft, now: int, k: KeyId)
    requires k !in sys.schedule.keys && S.EncryptReceipt(sys.Get(r).contact, d, now, k).Success?
    ensures var (c, p) := S.EncryptReceipt(sys.Get(r).contact, d, now, k).value;
            var next := Apply(sys, SendReceipt(r, d, now, k));
            && Moved(sys, next, r) && next.Get(r).contact == c && next.Get(r).accepted == sys.Get(r).accepted
            && (exists at :: next.Get(r).log == sys.Get(r).log + [Sent(p, at)])
            && p.box.plaintext.kind == d.kind
            && c == sys.Get(r).contact.(nextSendSeq := sys.Get(r).contact.nextSendSeq + 1)
  {
    var (c, p) := S.EncryptReceipt(sys.Get(r).contact, d, now, k).value;
    var next := Apply(sys, SendReceipt(r, d, now, k));
    var at := if p.header.dh != sys.Get(r).contact.ratchet.selfKey then Borrowed(p.header.dh)
              else At(sys.Get(r).epoch, p.header.n);
    assert next.Get(r).log == sys.Get(r).log + [Sent(p, at)];
  }

  lemma ReceiveMoves(sys: System, r: Role, blob: Blob, now: int, k: KeyId)
    requires k >= sys.nextKey && S.DecryptInbound(sys.Get(r).contact, blob, now, k).Success?
    ensures var (c, m) := S.DecryptInbound(sys.Get(r).contact, blob, now, k).value;
            var next := Apply(sys, Receive(r, blob, now, k));
            && Moved(sys, next, r) && next.Get(r).contact == c && next.Get(r).log == sys.Get(r).log
            && next.Get(r).accepted == sys.Get(r).accepted + [m]
            && m.seqNo == sys.Get(r).contact.lastRecvSeq + 1
            && (!m.kind.Text? ==> c == S.AfterTrial(sys.Get(r).contact, blob).(lastRecvSeq := m.seqNo))
  {
    InboundIs(sys.Get(r).contact, blob, now, k);
    AdoptMoves(sys, r, S.DecryptInbound(sys.Get(r).contact, blob, now, k).value.0, k);
  }

  lemma InboundIs(c: S.Contact, blob: Blob, now: int, k: KeyId)
    requires S.DecryptInbound(c, blob, now, k).Success?
    ensures var (e, m) := S.DecryptInbound(c, blob, now, k).value;
            && e.ratchet.selfKey in {c.ratchet.selfKey, k} && m.seqNo == c.lastRecvSeq + 1
            && (!m.kind.Text? ==> e == S.AfterTrial(c, blob).(lastRecvSeq := m.seqNo))
  {
  }

  lemma TableMoves(sys: System, r: Role, table: map<R.SkipId, MessageKey>)
    ensures var next := Apply(sys, Reload(r, table));
            && Moved(sys, next, r) && next.Get(r) == sys.Get(r).(contact := WithTable(sys.Get(r).contact, table))
  {
  }

  lemma TrialMoves(sys: System, r: Role, blob: Blob, now: int, k: KeyId)
    requires S.DecryptInbound(sys.Get(r).contact, blob, now, k).Failure?
    ensures var next := Apply(sys, Receive(r, blob, now, k));
            && Moved(sys, next, r) && next.Get(r) == sys.Get(r).(contact := S.AfterTrial(sys.Get(r).contact, blob))
  {
  }

  lemma LoseMoves(sys: System, r: Role)
    ensures var next := Apply(sys, LoseNumber(r));
            && Moved(sys, next, r) && next.Get(r).accepted == sys.Get(r).accepted
            && next.Get(r).contact == sys.Get(r).contact.(nextSendSeq := sys.Get(r).contact.nextSendSeq + 1)
            && next.Get(r).log == sys.Get(r).log + [Hole]
  {
  }

  lemma ReserveMoves(sys: System, r: Role, k: KeyId)
    ensures Moved(sys, Reserve(sys, k), r) && Reserve(sys, k).Get(r) == sys.Get(r)
  {
  }

  // ---------- what growth keeps ----------

  lemma GrownKeepsCommitted(a: System, b: System, r: Role, id: MessageId)
    requires Grown(a, b) && Committed(a, r, id)
    ensures Committed(b, r, id)
  {
    var i: nat :| TextAt(a, r, i, id);
    assert TextAt(b, r, i, id);
  }

  lemma GrownKeepsInLog(a: seq<Slot>, b: seq<Slot>, p: Payload)
    requires a <= b && InLog(a, p)
    ensures InLog(b, p)
  {
    var i :| 0 <= i < |a| && a[i].Sent? && a[i].payload == p;
    assert b[i] == a[i];
  }

  lemma GrownKeepsWire(a: System, b: System, wire: set<Payload>, more: set<Payload>)
    requires WireInv(a, wire) && Grown(a, b)
    requires forall p <- more :: OfLogs(b, p)
    ensures WireInv(b, wire + more)
  {
    forall p | p in wire ensures OfLogs(b, p) {
      assert OfLogs(a, p);
      if InLog(a.inviter.log, p) {
        GrownKeepsInLog(a.inviter.log, b.inviter.log, p);
      } else {
        GrownKeepsInLog(a.joiner.log, b.joiner.log, p);
      }
    }
  }

  lemma OfferIsPresentable(sys: System, wire: set<Payload>, blob: Blob)
    requires WireInv(sys, wire) && OnOffer(wire, blob)
    ensures Presentable(sys, blob)
  {
    if blob.Framed? && !blob.payload.box.key.Foreign? {
      var p :| p in wire && p.box == blob.payload.box;
      assert OfLogs(sys, p);
      if InLog(sys.inviter.log, p) {
        assert SealedIn(sys.inviter.log, blob.payload.box);
      } else {
        assert SealedIn(sys.joiner.log, blob.payload.box);
      }
    }
  }

  lemma HonestStays(t: Turn, u: Turn, r: Role)
    requires HonestReceipts(t, r) && Grown(t.sys, u.sys)
    requires forall i: nat | |t.sys.Get(r).log| <= i < |u.sys.Get(r).log| :: HonestSlot(u.sys, r, i)
    requires forall id <- u.device.disk.receipts :: id in t.device.disk.receipts || Committed(u.sys, r, id)
    ensures HonestReceipts(u, r)
  {
    forall i: nat | i < |u.sys.Get(r).log| ensures HonestSlot(u.sys, r, i) {
      if i < |t.sys.Get(r).log| {
        GrownKeepsHonest(t.sys, u.sys, r, i);
      }
    }
    forall id | id in u.device.disk.receipts ensures Committed(u.sys, r, id) {
      if id in t.device.disk.receipts {
        GrownKeepsCommitted(t.sys, u.sys, r, id);
      }
    }
  }

  lemma GrownKeepsHonest(a: System, b: System, r: Role, i: nat)
    requires Grown(a, b) && i < |a.Get(r).log| && HonestSlot(a, r, i)
    ensures i < |b.Get(r).log| && HonestSlot(b, r, i)
  {
    var slot := a.Get(r).log[i];
    if slot.Sent? && slot.payload.box.plaintext.kind.Receipt? {
      GrownKeepsCommitted(a, b, r, slot.payload.box.plaintext.kind.messageId);
    }
  }

  // Nothing new accepted, nothing stored lost but to the sweep, no queued receipt dropped.
  ghost predicate KeepsStored(t: Turn, u: Turn, r: Role) {
    && t.wire <= u.wire
    && (forall s <- u.device.disk.inbound :: s in t.device.disk.inbound)
    && (forall s, m | StoredText(t.device, s, m) :: StoredText(u.device, s, m))
    && (forall id <- t.device.disk.receipts :: Answered(u, r, id))
  }

  lemma OutStays(t: Turn, u: Turn, r: Role, id: MessageId)
    requires ReceiptOut(t, r, id) && Grown(t.sys, u.sys) && t.wire <= u.wire
    ensures ReceiptOut(u, r, id)
  {
    var p :| HandedOver(t.wire, t.sys.Get(r).log, p, id);
    GrownKeepsInLog(t.sys.Get(r).log, u.sys.Get(r).log, p);
    assert HandedOver(u.wire, u.sys.Get(r).log, p, id);
  }

  lemma AnswerStays(t: Turn, u: Turn, r: Role, i: nat, id: MessageId)
    requires Durable(t, r) && Grown(t.sys, u.sys) && t.wire <= u.wire
             && t.device.disk.receipts <= u.device.disk.receipts
    requires TextAt(t.sys, r, i, id)
    ensures Answered(u, r, id)
  {
    assert Answered(t, r, id);
    if id !in t.device.disk.receipts {
      OutStays(t, u, r, id);
    }
  }

  lemma DurableStays(t: Turn, u: Turn, r: Role)
    requires Runs.AcceptedPrefix(t.sys, r) && Durable(t, r) && Grown(t.sys, u.sys) && KeepsStored(t, u, r)
    requires u.sys.Get(r).accepted == t.sys.Get(r).accepted
    ensures Durable(u, r)
  {
    var got := t.sys.Get(r).accepted;
    forall i: nat | i < |got| ensures Kept(u.device, got, i) {
      assert Kept(t.device, got, i);
    }
    forall i: nat, id | TextAt(u.sys, r, i, id) ensures Answered(u, r, id) {
      assert TextAt(t.sys, r, i, id);
      assert Answered(t, r, id);
      if id !in t.device.disk.receipts {
        OutStays(t, u, r, id);
      }
    }
  }

  // ---------- the device that does nothing ----------

  lemma AcceptableStays(a: System, b: System, r: Role, blob: Blob, now: int)
    requires Moved(a, b, Other(r)) && Acceptable(a, r, blob, now)
    ensures Acceptable(b, r, blob, now) && NextSlot(b, r) == NextSlot(a, r)
  {
    var k := a.Get(r).contact.lastRecvSeq;
    assert a.Get(Other(r)).log[..k] == b.Get(Other(r)).log[..k];
  }

  lemma BusyStays(d: Device, a: System, b: System, wire: set<Payload>, more: set<Payload>, r: Role)
    requires BusyOk(Turn(d, a, wire), r) && Moved(a, b, Other(r)) && wire <= more
    ensures BusyOk(Turn(d, b, more), r)
  {
    match d.busy
    case Idle =>
    case HandingOff(_) =>
    case ReceiptRead(_, blob, now) => AcceptableStays(a, b, r, blob, now);
    case ReceiptSent(id) =>
      GrownKeepsCommitted(a, b, r, id);
      OutStays(Turn(d, a, wire), Turn(d, b, more), r, id);
    case _ => GrownKeepsCommitted(a, b, r, d.busy.id);
  }

  lemma BystanderKeeps(d: Device, a: System, b: System, wire: set<Payload>, more: set<Payload>, r: Role)
    requires Runs.AcceptedPrefix(a, r) && DeviceInv(Turn(d, a, wire), r) && Moved(a, b, Other(r)) && wire <= more
    ensures DeviceInv(Turn(d, b, more), r)
  {
    BusyStays(d, a, b, wire, more, r);
    HonestStays(Turn(d, a, wire), Turn(d, b, more), r);
    DurableStays(Turn(d, a, wire), Turn(d, b, more), r);
  }

  // ---------- one device's turn ----------

  ghost predicate Ready(t: Turn, r: Role) {
    && DeviceInv(t, r) && Runs.AcceptedPrefix(t.sys, r)
    && |t.sys.Get(r).accepted| == t.sys.Get(r).contact.lastRecvSeq
  }

  // The device keeps its part, and the history moves on.
  ghost predicate Keeps(t: Turn, u: Turn, r: Role) {
    Moved(t.sys, u.sys, r) && t.wire <= u.wire && DeviceInv(u, r)
  }

  // The stored keys the history ends with are ones the chain can go on with.
  lemma OwnTableOk(sys: System, r: Role)
    requires Inv(sys)
    ensures TableOk(sys.Get(r).contact.ratchet, sys.Get(r).contact.ratchet.skipped)
  {
    SeeSide(sys, r);
  }

  ghost predicate HistoryTableOk(t: Turn, r: Role) {
    TableOk(t.sys.Get(r).contact.ratchet, t.sys.Get(r).contact.ratchet.skipped)
  }

  lemma SealKeepsTable(c: S.Contact, d: S.Draft, now: int, k: KeyId)
    requires S.Encrypt(c, d, now, k).Success?
    ensures S.Encrypt(c, d, now, k).value.0.ratchet.skipped == c.ratchet.skipped
  {
  }

  lemma JustReadIs(d: Device)
    requires JustRead(d)
    ensures Memory(d) == d.disk.contact
  {
  }

  // The advanced contact saved, with or without a row in the outbox, and the message sealed.
  lemma SealedLands(t: Turn, u: Turn, r: Role, p: Payload)
    requires Ready(t, r) && Moved(t.sys, u.sys, r) && u.wire == t.wire
    requires u.sys.Get(r).accepted == t.sys.Get(r).accepted && |u.sys.Get(r).log| == |t.sys.Get(r).log| + 1
    requires var slot := u.sys.Get(r).log[|t.sys.Get(r).log|];
             slot.Sent? && slot.payload == p && !p.box.plaintext.kind.Receipt?
    requires u.device == t.device.(disk := u.device.disk, busy := HandingOff(p))
    requires u.device.disk == t.device.disk.(contact := u.sys.Get(r).contact, outbound := u.device.disk.outbound)
    requires JustRead(u.device) && HistoryTableOk(u, r)
    ensures DeviceInv(u, r)
  {
    JustReadIs(u.device);
    HonestStays(t, u, r);
    DurableStays(t, u, r);
  }

  lemma SendCommitActs(t: Turn, r: Role, d: S.Draft, now: int, k: KeyId)
    requires Ready(t, r) && Allowed(t, SendCommit(r, d, now, k)) && HistoryTableOk(Act(t, SendCommit(r, d, now, k)), r)
    ensures Keeps(t, Act(t, SendCommit(r, d, now, k)), r)
  {
    JustReadIs(t.device);
    if S.Encrypt(t.device.disk.contact, d, now, k).Success? {
      SendMoves(t.sys, r, d, now, k);
      SealKeepsTable(t.device.disk.contact, d, now, k);
      SealedLands(t, Act(t, SendCommit(r, d, now, k)), r, S.Encrypt(t.device.disk.contact, d, now, k).value.1);
    }
  }

  lemma HandOffActs(t: Turn, r: Role, ok: bool)
    requires Ready(t, r) && Allowed(t, HandOff(r, ok))
    ensures Keeps(t, Act(t, HandOff(r, ok)), r)
  {
    var u := Act(t, HandOff(r, ok));
    HonestStays(t, u, r);
    DurableStays(t, u, r);
  }

  // The text is stored and its receipt owed in the same transaction that moves the position.
  lemma TextLands(t: Turn, u: Turn, r: Role, p: Payload, now: int)
    requires Ready(t, r) && Moved(t.sys, u.sys, r) && u.wire == t.wire
    requires var i, m := |t.sys.Get(r).accepted|, p.box.plaintext;
             && u.sys.Get(r).accepted == t.sys.Get(r).accepted + [m] && u.sys.Get(r).log == t.sys.Get(r).log
             && m.kind.Text? && m.seqNo == i + 1
             && i < |t.sys.Get(Other(r)).log| && t.sys.Get(Other(r)).log[i].Sent?
             && t.sys.Get(Other(r)).log[i].payload == p
             && u.device.disk == CommitReceiveText(t.device.disk, u.sys.Get(r).contact, m, MessageId(p), now)
    requires JustRead(u.device) && HistoryTableOk(u, r)
    requires u.device.busy == Owes(MessageId(p)) && u.device.swept == t.device.swept
    ensures DeviceInv(u, r)
  {
    var i := |t.sys.Get(r).accepted|;
    assert TextAt(u.sys, r, i, MessageId(p));
    HonestStays(t, u, r);
    forall j: nat | j <= i ensures Kept(u.device, u.sys.Get(r).accepted, j) {
      assert j < i ==> Kept(t.device, t.sys.Get(r).accepted, j);
    }
    forall j: nat, id | TextAt(u.sys, r, j, id) ensures Answered(u, r, id) {
      if j < i {
        AnswerStays(t, u, r, j, id);
      }
    }
  }

  lemma ReceiptLands(t: Turn, u: Turn, r: Role, blob: Blob, now: int)
    requires Ready(t, r) && u.sys == t.sys && u.wire == t.wire && Acceptable(t.sys, r, blob, now)
    requires Memory(t.device) == t.sys.Get(r).contact && u.device.table == t.device.table
    requires NextSlot(t.sys, r).payload.box.plaintext.kind.Receipt?
    requires var c := t.sys.Get(r).contact;
             && u.device.busy == ReceiptRead(S.AfterTrial(c, blob).(lastRecvSeq := c.lastRecvSeq + 1), blob, now)
             && u.device.disk == t.device.disk.(outbound := u.device.disk.outbound) && u.device.swept == t.device.swept
    ensures Moved(t.sys, u.sys, r) && DeviceInv(u, r)
  {
    HonestStays(t, u, r);
    DurableStays(t, u, r);
  }

  // A message that is neither text nor owed anything: the position moves with the contact.
  lemma OtherLands(t: Turn, u: Turn, r: Role, m: InnerMessage)
    requires Ready(t, r) && Moved(t.sys, u.sys, r) && u.wire == t.wire && !m.kind.Text?
    requires u.sys.Get(r).accepted == t.sys.Get(r).accepted + [m] && u.sys.Get(r).log == t.sys.Get(r).log
    requires u.device.disk == t.device.disk.(contact := u.sys.Get(r).contact) && JustRead(u.device)
             && HistoryTableOk(u, r)
    requires u.device.busy == Idle && u.device.swept == t.device.swept
    ensures DeviceInv(u, r)
  {
    var i := |t.sys.Get(r).accepted|;
    HonestStays(t, u, r);
    forall j: nat | j <= i ensures Kept(u.device, u.sys.Get(r).accepted, j) {
      assert j < i ==> Kept(t.device, t.sys.Get(r).accepted, j);
    }
    forall j: nat, id | TextAt(u.sys, r, j, id) ensures Answered(u, r, id) {
      AnswerStays(t, u, r, j, id);
    }
  }

  lemma TrialIs(t: Turn, r: Role, blob: Blob, now: int, k: KeyId)
    requires S.DecryptInbound(Memory(t.device), blob, now, k).Failure?
    ensures Act(t, Fetch(r, blob, now, k)) ==
            Turn(t.device.(table := R.Leftover(Memory(t.device).ratchet, blob)), Apply(t.sys, Receive(r, blob, now, k)),
                 t.wire)
  {
  }

  // A blob that is turned away changes the stored keys in memory, and nothing that is saved.
  lemma TrialLands(t: Turn, u: Turn, r: Role)
    requires Ready(t, r) && t.device.busy.Idle? && Moved(t.sys, u.sys, r) && u.wire == t.wire
    requires u.device == t.device.(table := u.device.table)
    requires u.sys.Get(r) == t.sys.Get(r).(contact := WithTable(t.sys.Get(r).contact, u.device.table))
    ensures DeviceInv(u, r)
  {
    HonestStays(t, u, r);
    DurableStays(t, u, r);
  }

  lemma TrialActs(t: Turn, r: Role, blob: Blob, now: int, k: KeyId)
    requires Ready(t, r) && t.device.busy.Idle?
    requires S.DecryptInbound(Memory(t.device), blob, now, k).Failure?
    ensures Keeps(t, Act(t, Fetch(r, blob, now, k)), r)
  {
    TrialIs(t, r, blob, now, k);
    TrialMoves(t.sys, r, blob, now, k);
    TrialLands(t, Act(t, Fetch(r, blob, now, k)), r);
  }

  lemma FetchActs(t: Turn, r: Role, blob: Blob, now: int, k: KeyId)
    requires Ready(t, r) && t.device.busy.Idle? && k >= t.sys.nextKey
    requires S.DecryptInbound(Memory(t.device), blob, now, k).Success?
    requires Acceptable(t.sys, r, blob, now)
    requires S.DecryptInbound(Memory(t.device), blob, now, k).value.1 == NextSlot(t.sys, r).payload.box.plaintext
    requires HistoryTableOk(Act(t, Fetch(r, blob, now, k)), r)
    ensures Keeps(t, Act(t, Fetch(r, blob, now, k)), r)
  {
    var u := Act(t, Fetch(r, blob, now, k));
    var m := S.DecryptInbound(Memory(t.device), blob, now, k).value.1;
    ReceiveMoves(t.sys, r, blob, now, k);
    if m.kind.Text? {
      TextLands(t, u, r, blob.payload, now);
    } else if m.kind.Receipt? {
      ReceiptLands(t, u, r, blob, now);
    } else {
      OtherLands(t, u, r, m);
    }
  }

  // The position saved, with the stored keys the attempt left.
  lemma PositionIs(t: Turn, r: Role)
    requires Ready(t, r) && t.device.busy.ReceiptRead?
    requires var b := t.device.busy;
             && S.DecryptInbound(t.sys.Get(r).contact, b.blob, b.now, t.sys.nextKey).Success?
             && !S.DecryptInbound(t.sys.Get(r).contact, b.blob, b.now, t.sys.nextKey).value.1.kind.Text?
    ensures var b, u := t.device.busy, Act(t, SavePosition(r));
            && u.sys == Apply(t.sys, Receive(r, b.blob, b.now, t.sys.nextKey)) && u.wire == t.wire
            && u.device.busy == Idle && u.device.swept == t.device.swept && JustRead(u.device)
            && u.device.disk == t.device.disk.(contact := b.contact)
            && b.contact == S.DecryptInbound(t.sys.Get(r).contact, b.blob, b.now, t.sys.nextKey).value.0
  {
    InboundIs(t.sys.Get(r).contact, t.device.busy.blob, t.device.busy.now, t.sys.nextKey);
  }

  lemma SavePositionActs(t: Turn, r: Role)
    requires Ready(t, r) && t.device.busy.ReceiptRead?
    requires var b := t.device.busy;
             && S.DecryptInbound(t.sys.Get(r).contact, b.blob, b.now, t.sys.nextKey).Success?
             && !S.DecryptInbound(t.sys.Get(r).contact, b.blob, b.now, t.sys.nextKey).value.1.kind.Text?
    requires HistoryTableOk(Act(t, SavePosition(r)), r)
    ensures Keeps(t, Act(t, SavePosition(r)), r)
  {
    var b := t.device.busy;
    PositionIs(t, r);
    ReceiveMoves(t.sys, r, b.blob, b.now, t.sys.nextKey);
    OtherLands(t, Act(t, SavePosition(r)), r,
               S.DecryptInbound(t.sys.Get(r).contact, b.blob, b.now, t.sys.nextKey).value.1);
  }

  // A receipt that cannot be sealed is not owed any more in this fetch; the queue still holds it.
  lemma UnsealedActs(t: Turn, r: Role)
    requires Ready(t, r) && t.device.busy.Owes?
    ensures var u := t.(device := t.device.(busy := Idle)); Keeps(t, u, r)
  {
    var u := t.(device := t.device.(busy := Idle));
    HonestStays(t, u, r);
    DurableStays(t, u, r);
  }

  // A receipt sealed and its number spent on disk, with the outcome still open.
  lemma SpentLands(t: Turn, u: Turn, r: Role, before: S.Contact, p: Payload, draft: S.Draft, now: int, k: KeyId)
    requires Ready(t, r) && t.device.busy.Owes? && k !in t.sys.schedule.keys
    requires u.sys == Reserve(t.sys, k) && u.wire == t.wire && before == t.sys.Get(r).contact
    requires S.EncryptReceipt(before, draft, now, k) == Success((u.device.disk.contact, p))
    requires u.device.disk == t.device.disk.(contact := before.(nextSendSeq := before.nextSendSeq + 1))
    requires draft.kind == Receipt(t.device.busy.id)
    requires u.device == t.device.(disk := u.device.disk,
                                         busy := ReceiptReady(t.device.busy.id, before, p, draft, now, k))
    ensures Keeps(t, u, r)
  {
    ReserveMoves(t.sys, r, k);
    GrownKeepsCommitted(t.sys, u.sys, r, t.device.busy.id);
    HonestStays(t, u, r);
    DurableStays(t, u, r);
  }

  lemma ReceiptPersistActs(t: Turn, r: Role, device: string, createdAt: int, validUntil: int, now: int, k: KeyId)
    requires Ready(t, r) && t.device.busy.Owes? && k >= t.sys.nextKey && k !in t.sys.schedule.keys
    ensures Keeps(t, Act(t, ReceiptPersist(r, device, createdAt, validUntil, now, k)), r)
  {
    var u := Act(t, ReceiptPersist(r, device, createdAt, validUntil, now, k));
    var draft := S.Draft(device, Receipt(t.device.busy.id), createdAt, validUntil);
    JustReadIs(t.device);
    if S.EncryptReceipt(t.device.disk.contact, draft, now, k).Success? {
      ReceiptMoves(t.sys, r, draft, now, k);
      SpentLands(t, u, r, t.sys.Get(r).contact, S.EncryptReceipt(t.device.disk.contact, draft, now, k).value.1, draft,
                 now, k);
    } else {
      UnsealedActs(t, r);
    }
  }

  lemma ReceiptDelivered(t: Turn, r: Role)
    requires Ready(t, r) && t.device.busy.ReceiptReady?
    ensures Keeps(t, Act(t, ReceiptHandOff(r, true)), r)
  {
    var u, b := Act(t, ReceiptHandOff(r, true)), t.device.busy;
    ReceiptMoves(t.sys, r, b.draft, b.now, b.newKey);
    GrownKeepsCommitted(t.sys, u.sys, r, b.id);
    var at :| u.sys.Get(r).log == t.sys.Get(r).log + [Sent(b.payload, at)];
    assert u.sys.Get(r).log[|t.sys.Get(r).log|] == Sent(b.payload, at);
    assert HandedOver(u.wire, u.sys.Get(r).log, b.payload, b.id);
    HonestStays(t, u, r);
    DurableStays(t, u, r);
  }

  lemma ReceiptRefused(t: Turn, r: Role)
    requires Ready(t, r) && t.device.busy.ReceiptReady?
    ensures Keeps(t, Act(t, ReceiptHandOff(r, false)), r)
  {
    var u := Act(t, ReceiptHandOff(r, false));
    HonestStays(t, u, r);
    DurableStays(t, u, r);
  }

  lemma ReceiptCloseActs(t: Turn, r: Role)
    requires Ready(t, r) && (t.device.busy.ReceiptSent? || t.device.busy.ReceiptFailed?)
    ensures Keeps(t, Act(t, ReceiptClose(r)), r)
  {
    var u := Act(t, ReceiptClose(r));
    HonestStays(t, u, r);
    DurableStays(t, u, r);
  }

  lemma FlushActs(t: Turn, r: Role, id: MessageId)
    requires Ready(t, r) && t.device.busy.Idle? && JustRead(t.device) && id in t.device.disk.receipts
    ensures Keeps(t, Act(t, Flush(r, id)), r)
  {
    var u := Act(t, Flush(r, id));
    HonestStays(t, u, r);
    DurableStays(t, u, r);
  }

  lemma ReadAgainActs(t: Turn, r: Role)
    requires Ready(t, r) && !t.device.busy.ReceiptReady?
    ensures var u := ReadAgain(t.(device := t.device.(busy := Idle)), r); Keeps(t, u, r)
  {
    var u := ReadAgain(t.(device := t.device.(busy := Idle)), r);
    TableMoves(t.sys, r, t.device.disk.contact.ratchet.skipped);
    HonestStays(t, u, r);
    DurableStays(t, u, r);
  }

  lemma CrashActs(t: Turn, r: Role)
    requires Ready(t, r)
    ensures Keeps(t, Act(t, Crash(r)), r)
  {
    if t.device.busy.ReceiptReady? {
      var u := Act(t, Crash(r));
      LoseMoves(t.sys, r);
      HonestStays(t, u, r);
      DurableStays(t, u, r);
    } else {
      ReadAgainActs(t, r);
    }
  }

  lemma SweepActs(t: Turn, r: Role, now: int)
    requires Ready(t, r) && t.device.busy.Idle?
    ensures Keeps(t, Act(t, Sweep(r, now)), r)
  {
    var u := Act(t, Sweep(r, now));
    HonestStays(t, u, r);
    DurableStays(t, u, r);
  }

  // ---------- the history and the wire ----------

  lemma NextIsPresentable(sys: System, r: Role, blob: Blob, now: int)
    requires Acceptable(sys, r, blob, now)
    ensures Presentable(sys, blob)
  {
    assert SealedIn(sys.Get(Other(r)).log, blob.payload.box);
  }

  // Seen from the history, an event is one step of the two-party system, a key set aside,
  // or nothing.
  ghost predicate Refines(a: System, b: System) {
    b == a || (exists step :: Enabled(a, step) && b == Apply(a, step)) || (exists k :: b == Reserve(a, k))
  }

  lemma EventRefines(t: Turn, e: Event)
    requires WireInv(t.sys, t.wire) && BusyOk(t, e.role) && DiskAgrees(t, e.role) && Allowed(t, e)
    ensures Refines(t.sys, Act(t, e).sys)
  {
    var sys, r, b := t.sys, e.role, t.device.busy;
    match e
    case SendCommit(_, d, now, k) => assert Enabled(sys, SendMessage(r, d, now, k));
    case Fetch(_, blob, now, k) =>
      OfferIsPresentable(sys, t.wire, blob);
      assert Enabled(sys, Receive(r, blob, now, k));
    case SavePosition(_) =>
      NextIsPresentable(sys, r, b.blob, b.now);
      assert Enabled(sys, Receive(r, b.blob, b.now, sys.nextKey));
    case ReceiptHandOff(_, _) => assert Enabled(sys, SendReceipt(r, b.draft, b.now, b.newKey));
    case Read(_) => assert Enabled(sys, Reload(r, t.device.disk.contact.ratchet.skipped));
    case Crash(_) =>
      assert Enabled(sys, LoseNumber(r));
      assert Enabled(sys, Reload(r, t.device.disk.contact.ratchet.skipped));
    case _ =>
  }

  lemma RefinesKeepsInv(a: System, b: System)
    requires Inv(a) && Refines(a, b)
    ensures Inv(b)
  {
    if step :| Enabled(a, step) && b == Apply(a, step) {
      StepKeepsInv(a, step);
    } else if k :| b == Reserve(a, k) {
      ReserveKeeps(a, k);
    }
  }

  lemma OneMoreOnWire(t: Turn, e: Event, p: Payload)
    requires WireInv(t.sys, t.wire) && Grown(t.sys, Act(t, e).sys) && Act(t, e).wire == t.wire + {p}
    requires OfLogs(Act(t, e).sys, p)
    ensures WireInv(Act(t, e).sys, Act(t, e).wire)
  {
    GrownKeepsWire(t.sys, Act(t, e).sys, t.wire, {p});
  }

  lemma WireSame(t: Turn, e: Event)
    requires WireInv(t.sys, t.wire) && Grown(t.sys, Act(t, e).sys) && Act(t, e).wire == t.wire
    ensures WireInv(Act(t, e).sys, Act(t, e).wire)
  {
    GrownKeepsWire(t.sys, Act(t, e).sys, t.wire, {});
    assert t.wire + {} == t.wire;
  }

  lemma ReceiptOnWire(t: Turn, r: Role)
    requires Ready(t, r) && t.device.busy.ReceiptReady?
    ensures OfLogs(Act(t, ReceiptHandOff(r, true)).sys, t.device.busy.payload)
    ensures Act(t, ReceiptHandOff(r, true)).wire == t.wire + {t.device.busy.payload}
  {
    var u, b := Act(t, ReceiptHandOff(r, true)), t.device.busy;
    ReceiptMoves(t.sys, r, b.draft, b.now, b.newKey);
    var at :| u.sys.Get(r).log == t.sys.Get(r).log + [Sent(b.payload, at)];
    assert u.sys.Get(r).log[|t.sys.Get(r).log|] == Sent(b.payload, at);
  }

  lemma WireKeeps(t: Turn, e: Event)
    requires WireInv(t.sys, t.wire) && Ready(t, e.role) && Allowed(t, e) && Grown(t.sys, Act(t, e).sys)
    ensures WireInv(Act(t, e).sys, Act(t, e).wire)
  {
    if e.ReceiptHandOff? && e.ok {
      ReceiptOnWire(t, e.role);
      OneMoreOnWire(t, e, t.device.busy.payload);
    } else if e.HandOff? && e.ok {
      OneMoreOnWire(t, e, t.device.busy.payload);
    } else {
      WireSame(t, e);
    }
  }

  // What the two-party invariant says of an event before it happens.
  ghost predicate Foreseen(t: Turn, e: Event) {
    match e
    case Fetch(r, blob, now, k) =>
      S.DecryptInbound(Memory(t.device), blob, now, k).Success? ==>
        && Acceptable(t.sys, r, blob, now)
        && S.DecryptInbound(Memory(t.device), blob, now, k).value.1 == NextSlot(t.sys, r).payload.box.plaintext
    case SavePosition(r) =>
      var b := t.device.busy;
      b.ReceiptRead? ==>
        && S.DecryptInbound(t.sys.Get(r).contact, b.blob, b.now, t.sys.nextKey).Success?
        && !S.DecryptInbound(t.sys.Get(r).contact, b.blob, b.now, t.sys.nextKey).value.1.kind.Text?
    case ReceiptPersist(_, _, _, _, _, k) => k !in t.sys.schedule.keys
    case _ => true
  }

  lemma Foresee(t: Turn, e: Event)
    requires Inv(t.sys) && WireInv(t.sys, t.wire) && Allowed(t, e)
    requires BusyOk(t, e.role) && DiskAgrees(t, e.role)
    ensures Foreseen(t, e)
  {
    var b := t.device.busy;
    match e
    case Fetch(r, blob, now, k) =>
      OfferIsPresentable(t.sys, t.wire, blob);
      AcceptsExactlyNext(t.sys, r, blob, now, k);
    case SavePosition(r) =>
      NextIsPresentable(t.sys, r, b.blob, b.now);
      AcceptsExactlyNext(t.sys, r, b.blob, b.now, t.sys.nextKey);
    case ReceiptPersist(_, _, _, _, _, k) => NewKeyIsNew(t.sys, k);
    case _ =>
  }

  lemma FetchKeeps(t: Turn, r: Role, blob: Blob, now: int, k: KeyId)
    requires Ready(t, r) && Allowed(t, Fetch(r, blob, now, k)) && Foreseen(t, Fetch(r, blob, now, k))
    requires HistoryTableOk(Act(t, Fetch(r, blob, now, k)), r)
    ensures Keeps(t, Act(t, Fetch(r, blob, now, k)), r)
  {
    if S.DecryptInbound(Memory(t.device), blob, now, k).Success? {
      FetchActs(t, r, blob, now, k);
    } else {
      TrialActs(t, r, blob, now, k);
    }
  }

  lemma DeviceKeeps(t: Turn, e: Event)
    requires Ready(t, e.role) && Allowed(t, e) && Foreseen(t, e)
    requires HistoryTableOk(Act(t, e), e.role)
    ensures Keeps(t, Act(t, e), e.role)
  {
    var r := e.role;
    match e
    case SendCommit(_, d, now, k) => SendCommitActs(t, r, d, now, k);
    case HandOff(_, ok) => HandOffActs(t, r, ok);
    case Fetch(_, blob, now, k) => FetchKeeps(t, r, blob, now, k);
    case SavePosition(_) => SavePositionActs(t, r);
    case ReceiptPersist(_, device, createdAt, validUntil, now, k) =>
      ReceiptPersistActs(t, r, device, createdAt, validUntil, now, k);
    case ReceiptHandOff(_, ok) => if ok { ReceiptDelivered(t, r); } else { ReceiptRefused(t, r); }
    case ReceiptClose(_) => ReceiptCloseActs(t, r);
    case Flush(_, id) => FlushActs(t, r, id);
    case Read(_) => ReadAgainActs(t, r);
    case Crash(_) => CrashActs(t, r);
    case Sweep(_, now) => SweepActs(t, r, now);
  }

  lemma Look(w: World, r: Role)
    requires WorldInv(w)
    ensures Ready(w.TurnOf(r), r) && Inv(w.sys) && WireInv(w.sys, w.wire)
  {
    Runs.InvAcceptedPrefix(w.sys, r);
  }

  lemma Assemble(w: World, r: Role, u: Turn)
    requires Inv(u.sys) && WireInv(u.sys, u.wire) && DeviceInv(u, r)
    requires DeviceInv(Turn(w.Dev(Other(r)), u.sys, u.wire), Other(r))
    ensures WorldInv(w.EndTurn(r, u))
  {
    var v := w.EndTurn(r, u);
    assert v.TurnOf(r) == u && v.TurnOf(Other(r)) == Turn(w.Dev(Other(r)), u.sys, u.wire);
  }

  lemma TurnKeeps(t: Turn, e: Event)
    requires Inv(t.sys) && WireInv(t.sys, t.wire) && Ready(t, e.role) && Allowed(t, e)
    ensures var u := Act(t, e); Inv(u.sys) && WireInv(u.sys, u.wire) && Keeps(t, u, e.role)
  {
    EventRefines(t, e);
    RefinesKeepsInv(t.sys, Act(t, e).sys);
    OwnTableOk(Act(t, e).sys, e.role);
    Foresee(t, e);
    DeviceKeeps(t, e);
    WireKeeps(t, e);
  }

  lemma BystanderStays(w: World, r: Role, u: Turn)
    requires Ready(w.TurnOf(Other(r)), Other(r)) && Keeps(w.TurnOf(r), u, r)
    ensures DeviceInv(Turn(w.Dev(Other(r)), u.sys, u.wire), Other(r))
  {
    BystanderKeeps(w.Dev(Other(r)), w.sys, u.sys, w.wire, u.wire, Other(r));
  }

  lemma EventKeepsWorld(w: World, e: Event)
    requires WorldInv(w) && Allowed(w.TurnOf(e.role), e)
    ensures WorldInv(Occur(w, e))
  {
    var u := Act(w.TurnOf(e.role), e);
    Look(w, e.role);
    Look(w, Other(e.role));
    TurnKeeps(w.TurnOf(e.role), e);
    BystanderStays(w, e.role, u);
    Assemble(w, e.role, u);
  }
}
