/** Two devices with durable tables, volatile work in progress, and crashes between any two
    durable steps. The tables refine the two-party system: each event is one of its steps or
    none, so what it guarantees holds of what survives a crash. */
module Delivery {
  import opened Crypto
  import opened Message
  import opened Log
  import opened TwoParty
  import opened Acceptance
  import opened LocalStore
  import opened SkippedKeys
  import R = Ratchet
  import S = Session

  // What a device is in the middle of; a crash forgets it.
  datatype Busy =
    | Idle
    | HandingOff(payload: Payload)                   // committed, not yet given to a relay
    | Owes(id: MessageId)                            // about to answer a text with a receipt
    | ReceiptReady(id: MessageId, before: S.Contact, payload: Payload, draft: S.Draft, now: int, newKey: KeyId)
    | ReceiptSent(id: MessageId)                     // given to a relay, still in the queue
    | ReceiptFailed(id: MessageId)                   // refused by every relay
    | ReceiptRead(contact: S.Contact, blob: Blob, now: int)  // row removed, position not yet saved

  // After a flush a device goes on with the contact on disk: what a fetch that keeps the one it read
  // before does to sequence numbers is said in FlushRewind.
  //
  // `table` are the stored keys of the contact in memory, which attempts to decrypt change before
  // anything is saved; the rest of that contact is the one on disk. `swept` and `lapsed` record
  // what retention has removed from inbox and outbox; no step reads them.
  datatype Device = Device(disk: Tables, table: map<R.SkipId, MessageKey>, busy: Busy, swept: set<nat>,
                           lapsed: set<MessageId>)

  function Memory(d: Device): S.Contact {
    WithTable(d.disk.contact, d.table)
  }

  // Nothing was tried since the contact was read or saved.
  predicate JustRead(d: Device) {
    d.table == d.disk.contact.ratchet.skipped
  }

  // What one device's turn works on: its own state, the history the tables are compared
  // with, and what relays hold or held.
  datatype Turn = Turn(device: Device, sys: System, wire: set<Payload>)

  datatype World = World(inviter: Device, joiner: Device, sys: System, wire: set<Payload>) {
    function Dev(r: Role): Device { if r.Inviter? then inviter else joiner }

    function TurnOf(r: Role): Turn { Turn(Dev(r), sys, wire) }

    function EndTurn(r: Role, t: Turn): World {
      if r.Inviter? then World(t.device, joiner, t.sys, t.wire) else World(inviter, t.device, t.sys, t.wire)
    }
  }

  datatype Event =
    | SendCommit(role: Role, draft: S.Draft, now: int, newKey: KeyId)
    | HandOff(role: Role, ok: bool)
    | Fetch(role: Role, blob: Blob, now: int, newKey: KeyId)
    | SavePosition(role: Role)
    | ReceiptPersist(role: Role, device: string, createdAt: int, validUntil: int, now: int, newKey: KeyId)
    | ReceiptHandOff(role: Role, ok: bool)
    | ReceiptClose(role: Role)
    | Flush(role: Role, id: MessageId)
    | Read(role: Role)   // a new command reads the contact from disk
    | Crash(role: Role)
    | Sweep(role: Role, now: int)

  // A relay, or anyone on the way, presents what was handed over, altered as they please.
  ghost predicate OnOffer(wire: set<Payload>, blob: Blob) {
    blob.Malformed? || blob.payload.box.key.Foreign? || exists p :: p in wire && p.box == blob.payload.box
  }

  ghost predicate Allowed(t: Turn, e: Event) {
    var busy := t.device.busy;
    match e
    case SendCommit(_, d, _, k) => busy.Idle? && JustRead(t.device) && !d.kind.Receipt? && k >= t.sys.nextKey
    case HandOff(_, _) => busy.HandingOff?
    case Fetch(_, blob, _, k) => busy.Idle? && OnOffer(t.wire, blob) && k >= t.sys.nextKey
    case SavePosition(_) => busy.ReceiptRead?
    case ReceiptPersist(_, _, _, _, _, k) => busy.Owes? && k >= t.sys.nextKey
    case ReceiptHandOff(_, _) => busy.ReceiptReady?
    case ReceiptClose(_) => busy.ReceiptSent? || busy.ReceiptFailed?
    case Flush(_, id) => busy.Idle? && JustRead(t.device) && id in t.device.disk.receipts
    case Read(_) => busy.Idle?
    case Crash(_) => true
    case Sweep(_, _) => busy.Idle?
  }

  // The saved state and the busy state an event leaves, the history and the wire.
  function Act(t: Turn, e: Event): Turn {
    var d, r := t.device, e.role;
    match e
    case SendCommit(_, draft, now, k) =>
      (match S.Encrypt(d.disk.contact, draft, now, k)
       case Failure(_) => t
       case Success(cp) =>
         var disk := if draft.kind.Text? then CommitSend(d.disk, cp.0, cp.1, draft.kind.body, now)
                     else PersistContact(d.disk, cp.0);
         Turn(d.(disk := disk, busy := HandingOff(cp.1)), Apply(t.sys, SendMessage(r, draft, now, k)), t.wire))
    case HandOff(_, ok) =>
      Turn(d.(busy := Idle), t.sys, if ok && d.busy.HandingOff? then t.wire + {d.busy.payload} else t.wire)
    case Fetch(_, blob, now, k) =>
      var heard := Apply(t.sys, Receive(r, blob, now, k));
      (match S.DecryptInbound(Memory(d), blob, now, k)
       case Failure(_) => Turn(d.(table := R.Leftover(Memory(d).ratchet, blob)), heard, t.wire)
       case Success(cm) =>
         match cm.1.kind
         case Text(_) =>
           var id := MessageId(blob.payload);
           Turn(d.(disk := CommitReceiveText(d.disk, cm.0, cm.1, id, now), table := cm.0.ratchet.skipped,
                     busy := Owes(id)),
                heard, t.wire)
         case Receipt(id) =>
           t.(device := d.(disk := MarkDelivered(d.disk, id), busy := ReceiptRead(cm.0, blob, now)))
         case _ => Turn(d.(disk := PersistContact(d.disk, cm.0), table := cm.0.ratchet.skipped), heard, t.wire))
    case SavePosition(_) =>
      if !d.busy.ReceiptRead? then t else
      Turn(d.(disk := PersistContact(d.disk, d.busy.contact), table := d.busy.contact.ratchet.skipped, busy := Idle),
           Apply(t.sys, Receive(r, d.busy.blob, d.busy.now, t.sys.nextKey)), t.wire)
    case ReceiptPersist(_, device, createdAt, validUntil, now, k) =>
      if !d.busy.Owes? then t else
      var draft := S.Draft(device, Receipt(d.busy.id), createdAt, validUntil);
      (match S.EncryptReceipt(d.disk.contact, draft, now, k)
       case Failure(_) => t.(device := d.(busy := Idle))
       case Success(cp) =>
         Turn(d.(disk := PersistContact(d.disk, cp.0),
                 busy := ReceiptReady(d.busy.id, d.disk.contact, cp.1, draft, now, k)),
              Reserve(t.sys, k), t.wire))
    case ReceiptHandOff(_, ok) =>
      if !d.busy.ReceiptReady? then t
      else if ok then
        Turn(d.(busy := ReceiptSent(d.busy.id)),
             Apply(t.sys, SendReceipt(r, d.busy.draft, d.busy.now, d.busy.newKey)), t.wire + {d.busy.payload})
      else
        t.(device := d.(disk := PersistContact(d.disk, d.busy.before), busy := ReceiptFailed(d.busy.id)))
    case ReceiptClose(_) =>
      t.(device := if d.busy.ReceiptSent? then d.(disk := DeleteReceipt(d.disk, d.busy.id), busy := Idle)
                   else if d.busy.ReceiptFailed? then d.(disk := SaveReceipt(d.disk, d.busy.id), busy := Idle)
                   else d)
    case Flush(_, id) => t.(device := d.(busy := Owes(id)))
    case Read(_) => ReadAgain(t, r)
    case Crash(_) =>
      if d.busy.ReceiptReady? then Turn(d.(busy := Idle), Apply(t.sys, LoseNumber(r)), t.wire)
      else ReadAgain(t.(device := d.(busy := Idle)), r)
    case Sweep(_, now) =>
      var disk := SweepOutbound(SweepMessages(d.disk, now), now);
      t.(device := d.(disk := disk, swept := d.swept + (d.disk.inbound.Keys - disk.inbound.Keys),
                      lapsed := d.lapsed + (d.disk.outbound.Keys - disk.outbound.Keys)))
  }

  function ReadAgain(t: Turn, r: Role): Turn {
    var table := t.device.disk.contact.ratchet.skipped;
    Turn(t.device.(table := table), Apply(t.sys, Reload(r, table)), t.wire)
  }

  function Occur(w: World, e: Event): World {
    w.EndTurn(e.role, Act(w.TurnOf(e.role), e))
  }

  // ---------- the invariant ----------

  // r has accepted a text, and id is the id of the peer's payload that carried it.
  ghost predicate Committed(sys: System, r: Role, id: MessageId) {
    exists i: nat :: TextAt(sys, r, i, id)
  }

  ghost predicate TextAt(sys: System, r: Role, i: nat, id: MessageId) {
    var got, sent := sys.Get(r).accepted, sys.Get(Other(r)).log;
    && i < |got| && i < |sent| && sent[i].Sent?
    && got[i] == sent[i].payload.box.plaintext && got[i].kind.Text? && id == MessageId(sent[i].payload)
  }

  ghost predicate InLog(log: seq<Slot>, p: Payload) {
    exists i :: 0 <= i < |log| && log[i].Sent? && log[i].payload == p
  }

  // r has handed a receipt for the text to a relay.
  ghost predicate ReceiptOut(t: Turn, r: Role, id: MessageId) {
    exists p :: HandedOver(t.wire, t.sys.Get(r).log, p, id)
  }

  ghost predicate HandedOver(wire: set<Payload>, log: seq<Slot>, p: Payload, id: MessageId) {
    p in wire && InLog(log, p) && p.box.plaintext.kind == Receipt(id)
  }

  ghost predicate BusyOk(t: Turn, r: Role) {
    var sys, me := t.sys, t.sys.Get(r);
    match t.device.busy
    case Idle => true
    case HandingOff(p) => InLog(me.log, p)
    case Owes(id) => Committed(sys, r, id)
    case ReceiptReady(id, before, p, draft, now, k) =>
      && Committed(sys, r, id) && draft.kind == Receipt(id)
      && before == me.contact && S.EncryptReceipt(before, draft, now, k) == Success((t.device.disk.contact, p))
      && k < sys.nextKey && k !in sys.schedule.keys
    case ReceiptSent(id) => Committed(sys, r, id) && ReceiptOut(t, r, id)
    case ReceiptFailed(id) => Committed(sys, r, id)
    case ReceiptRead(c, blob, now) =>
      && Acceptable(sys, r, blob, now)
      && NextSlot(sys, r).payload.box.plaintext.kind.Receipt?
      && c == S.AfterTrial(me.contact, blob).(lastRecvSeq := me.contact.lastRecvSeq + 1)
  }

  // The contact in memory is the system's, but for a receipt whose number is spent and whose
  // outcome is open. The one on disk may hold other stored keys, that the chain can go on with.
  ghost predicate DiskAgrees(t: Turn, r: Role) {
    var c, busy := t.sys.Get(r).contact, t.device.busy;
    && Memory(t.device) == (if busy.ReceiptReady? then c.(nextSendSeq := c.nextSendSeq + 1) else c)
    && TableOk(c.ratchet, t.device.disk.contact.ratchet.skipped)
    && (busy.Owes? || busy.ReceiptReady? || busy.ReceiptSent? || busy.ReceiptFailed? ==> JustRead(t.device))
  }

  // Receipts, sent or queued, answer texts that were committed.
  ghost predicate HonestReceipts(t: Turn, r: Role) {
    && (forall i: nat | i < |t.sys.Get(r).log| :: HonestSlot(t.sys, r, i))
    && (forall id <- t.device.disk.receipts :: Committed(t.sys, r, id))
  }

  ghost predicate HonestSlot(sys: System, r: Role, i: nat)
    requires i < |sys.Get(r).log|
  {
    var slot := sys.Get(r).log[i];
    slot.Sent? && slot.payload.box.plaintext.kind.Receipt? ==>
      Committed(sys, r, slot.payload.box.plaintext.kind.messageId)
  }

  // Every accepted text is stored unless swept, and its receipt is queued or was handed over.
  ghost predicate Durable(t: Turn, r: Role) {
    var d, got := t.device, t.sys.Get(r).accepted;
    && (forall s <- d.disk.inbound :: 1 <= s <= |got|)
    && (forall i: nat | i < |got| :: Kept(d, got, i))
    && (forall i: nat, id | TextAt(t.sys, r, i, id) :: Answered(t, r, id))
  }

  ghost predicate Answered(t: Turn, r: Role, id: MessageId) {
    id in t.device.disk.receipts || ReceiptOut(t, r, id)
  }

  ghost predicate Kept(d: Device, got: seq<InnerMessage>, i: nat)
    requires i < |got|
  {
    got[i].kind.Text? ==> StoredText(d, i + 1, got[i])
  }

  ghost predicate StoredText(d: Device, s: nat, m: InnerMessage) {
    (s in d.disk.inbound && d.disk.inbound[s].inner == m && d.disk.inbound[s].validUntil == m.validUntil)
    || s in d.swept
  }

  ghost predicate DeviceInv(t: Turn, r: Role) {
    DiskAgrees(t, r) && BusyOk(t, r) && HonestReceipts(t, r) && Durable(t, r)
  }

  ghost predicate WireInv(sys: System, wire: set<Payload>) {
    forall p <- wire :: OfLogs(sys, p)
  }

  ghost predicate OfLogs(sys: System, p: Payload) {
    InLog(sys.inviter.log, p) || InLog(sys.joiner.log, p)
  }

  ghost predicate WorldInv(w: World) {
    Inv(w.sys) && WireInv(w.sys, w.wire) && DeviceInv(w.TurnOf(Inviter), Inviter) && DeviceInv(w.TurnOf(Joiner), Joiner)
  }

  // ---------- what a crash and a hand-over come to ----------

  // A crash keeps what is saved and what was handed over, and nothing else of the device: the contact
  // in memory is then the saved one.
  lemma CrashKeepsDisk(t: Turn, r: Role)
    requires t.device.busy.ReceiptReady? ==> JustRead(t.device)
    ensures var u := Act(t, Crash(r));
            && u.device.disk == t.device.disk && u.wire == t.wire && u.device.busy == Idle
            && Memory(u.device) == u.device.disk.contact
  {
  }

  // What is handed over can be presented to the peer under any header, for good; what is refused is
  // not put on the wire.
  lemma HandOverIsOnOffer(t: Turn, r: Role, ok: bool, h: Header)
    requires t.device.busy.HandingOff? || t.device.busy.ReceiptReady?
    ensures var p := t.device.busy.payload;
            var u := Act(t, if t.device.busy.HandingOff? then HandOff(r, ok) else ReceiptHandOff(r, ok));
            && u.wire == (if ok then t.wire + {p} else t.wire)
            && (ok ==> OnOffer(u.wire, Framed(Payload(h, p.box))))
  {
  }
}
