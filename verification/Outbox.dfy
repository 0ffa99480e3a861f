/** The sender's outbox accounts for every text: each is still there, or has lapsed by
    retention, or has been taken in by the peer. */
module Outbox {
  import opened Crypto
  import opened Message
  import opened Log
  import opened TwoParty
  import opened LocalStore
  import opened Delivery
  import opened DeliverySteps
  import DeliveryRuns
  import S = Session

  predicate IsText(slot: Slot) {
    slot.Sent? && slot.payload.box.plaintext.kind.Text?
  }

  // The row keeps the text as it was sealed, under its own id.
  ghost predicate RowOk(t: Turn, r: Role, id: MessageId)
    requires id in t.device.disk.outbound
  {
    var row := t.device.disk.outbound[id];
    && id == MessageId(row.payload) && InLog(t.sys.Get(r).log, row.payload)
    && row.payload.box.plaintext.kind == Text(row.body) && row.seqNo == row.payload.box.plaintext.seqNo
    && row.validUntil == row.createdAt + MESSAGE_TTL_MS
  }

  ghost predicate Accounted(t: Turn, r: Role, p: Payload) {
    MessageId(p) in t.device.disk.outbound || MessageId(p) in t.device.lapsed
    || Committed(t.sys, Other(r), MessageId(p))
  }

  ghost predicate AccountedAt(t: Turn, r: Role, i: nat)
    requires i < |t.sys.Get(r).log|
  {
    IsText(t.sys.Get(r).log[i]) ==> Accounted(t, r, t.sys.Get(r).log[i].payload)
  }

  ghost predicate OutboxOk(t: Turn, r: Role) {
    && (forall i: nat | i < |t.sys.Get(r).log| :: AccountedAt(t, r, i))
    && (forall id <- t.device.disk.outbound :: RowOk(t, r, id))
  }

  // Nothing leaves the outbox without an account of it, and no text enters the log.
  lemma OutboxStays(t: Turn, u: Turn, r: Role)
    requires OutboxOk(t, r) && Grown(t.sys, u.sys) && t.device.lapsed <= u.device.lapsed
    requires forall i: nat | |t.sys.Get(r).log| <= i < |u.sys.Get(r).log| :: !IsText(u.sys.Get(r).log[i])
    requires forall id <- u.device.disk.outbound ::
               id in t.device.disk.outbound && u.device.disk.outbound[id] == t.device.disk.outbound[id]
    requires forall id <- t.device.disk.outbound ::
               id in u.device.disk.outbound || id in u.device.lapsed || Committed(u.sys, Other(r), id)
    ensures OutboxOk(u, r)
  {
    forall i: nat | i < |u.sys.Get(r).log| ensures AccountedAt(u, r, i) {
      if i < |t.sys.Get(r).log| && IsText(t.sys.Get(r).log[i]) {
        assert AccountedAt(t, r, i);
        if Committed(t.sys, Other(r), MessageId(t.sys.Get(r).log[i].payload)) {
          GrownKeepsCommitted(t.sys, u.sys, Other(r), MessageId(t.sys.Get(r).log[i].payload));
        }
      }
    }
    forall id | id in u.device.disk.outbound ensures RowOk(u, r, id) {
      assert RowOk(t, r, id);
      GrownKeepsInLog(t.sys.Get(r).log, u.sys.Get(r).log, t.device.disk.outbound[id].payload);
    }
  }

  // A text is committed with its row.
  lemma SendKeepsOutbox(t: Turn, r: Role, d: S.Draft, now: int, k: KeyId)
    requires OutboxOk(t, r) && Ready(t, r) && Allowed(t, SendCommit(r, d, now, k))
    ensures OutboxOk(Act(t, SendCommit(r, d, now, k)), r)
  {
    var u := Act(t, SendCommit(r, d, now, k));
    if S.Encrypt(t.device.disk.contact, d, now, k).Success? {
      var p, n := S.Encrypt(t.device.disk.contact, d, now, k).value.1, |t.sys.Get(r).log|;
      SendMoves(t.sys, r, d, now, k);
      assert u.sys.Get(r).log[n].payload == p;
      if d.kind.Text? {
        RowAdded(t, u, r, p);
      } else {
        OutboxStays(t, u, r);
      }
    }
  }

  lemma RowAdded(t: Turn, u: Turn, r: Role, p: Payload)
    requires OutboxOk(t, r) && Grown(t.sys, u.sys) && u.device.lapsed == t.device.lapsed
    requires var n := |t.sys.Get(r).log|;
             |u.sys.Get(r).log| == n + 1 && u.sys.Get(r).log[n].Sent? && u.sys.Get(r).log[n].payload == p
    requires var row := u.device.disk.outbound;
             && MessageId(p) in row && row == t.device.disk.outbound[MessageId(p) := row[MessageId(p)]]
             && row[MessageId(p)].payload == p && row[MessageId(p)].seqNo == p.box.plaintext.seqNo
             && p.box.plaintext.kind == Text(row[MessageId(p)].body)
             && row[MessageId(p)].validUntil == row[MessageId(p)].createdAt + MESSAGE_TTL_MS
    ensures OutboxOk(u, r)
  {
    forall i: nat | i < |u.sys.Get(r).log| ensures AccountedAt(u, r, i) {
      if i < |t.sys.Get(r).log| && IsText(t.sys.Get(r).log[i]) {
        assert AccountedAt(t, r, i);
        if Committed(t.sys, Other(r), MessageId(t.sys.Get(r).log[i].payload)) {
          GrownKeepsCommitted(t.sys, u.sys, Other(r), MessageId(t.sys.Get(r).log[i].payload));
        }
      }
    }
    forall id | id in u.device.disk.outbound ensures RowOk(u, r, id) {
      if id != MessageId(p) {
        assert RowOk(t, r, id);
        GrownKeepsInLog(t.sys.Get(r).log, u.sys.Get(r).log, t.device.disk.outbound[id].payload);
      }
    }
  }

  lemma ReceiveKeepsLog(sys: System, r: Role, blob: Blob, now: int, k: KeyId)
    ensures Apply(sys, Receive(r, blob, now, k)).Get(r).log == sys.Get(r).log
  {
  }

  // A receipt removes the row of a text the peer has committed; nothing else touches the outbox.
  lemma FetchKeepsOutbox(t: Turn, r: Role, blob: Blob, now: int, k: KeyId)
    requires OutboxOk(t, r) && Grown(t.sys, Act(t, Fetch(r, blob, now, k)).sys)
    requires var res := S.DecryptInbound(Memory(t.device), blob, now, k);
             res.Success? && res.value.1.kind.Receipt? ==> Committed(t.sys, Other(r), res.value.1.kind.messageId)
    ensures OutboxOk(Act(t, Fetch(r, blob, now, k)), r)
  {
    ReceiveKeepsLog(t.sys, r, blob, now, k);
    OutboxStays(t, Act(t, Fetch(r, blob, now, k)), r);
  }

  lemma HandOffKeepsOutbox(t: Turn, r: Role, ok: bool)
    requires OutboxOk(t, r) && Ready(t, r) && Allowed(t, ReceiptHandOff(r, ok))
    ensures OutboxOk(Act(t, ReceiptHandOff(r, ok)), r)
  {
    var u, b := Act(t, ReceiptHandOff(r, ok)), t.device.busy;
    if ok {
      ReceiptMoves(t.sys, r, b.draft, b.now, b.newKey);
      var at :| u.sys.Get(r).log == t.sys.Get(r).log + [Sent(b.payload, at)];
      assert u.sys.Get(r).log[|t.sys.Get(r).log|] == Sent(b.payload, at);
    }
    OutboxStays(t, u, r);
  }

  lemma PositionKeepsOutbox(t: Turn, r: Role)
    requires OutboxOk(t, r) && Grown(t.sys, Act(t, SavePosition(r)).sys)
    ensures OutboxOk(Act(t, SavePosition(r)), r)
  {
    if t.device.busy.ReceiptRead? {
      ReceiveKeepsLog(t.sys, r, t.device.busy.blob, t.device.busy.now, t.sys.nextKey);
    }
    OutboxStays(t, Act(t, SavePosition(r)), r);
  }

  lemma CrashKeepsOutbox(t: Turn, r: Role)
    requires OutboxOk(t, r) && Grown(t.sys, Act(t, Crash(r)).sys)
    ensures OutboxOk(Act(t, Crash(r)), r)
  {
    TableMoves(t.sys, r, t.device.disk.contact.ratchet.skipped);
    LoseMoves(t.sys, r);
    OutboxStays(t, Act(t, Crash(r)), r);
  }

  lemma OthersKeepOutbox(t: Turn, e: Event)
    requires OutboxOk(t, e.role) && Grown(t.sys, Act(t, e).sys)
    requires !e.SendCommit? && !e.Fetch? && !e.ReceiptHandOff? && !e.SavePosition? && !e.Crash?
    ensures OutboxOk(Act(t, e), e.role)
  {
    if e.Read? {
      TableMoves(t.sys, e.role, t.device.disk.contact.ratchet.skipped);
    }
    OutboxStays(t, Act(t, e), e.role);
  }

  // A fetched receipt answers a text the peer has committed.
  ghost predicate HonestFetch(t: Turn, e: Event) {
    e.Fetch? ==>
      var res := S.DecryptInbound(Memory(t.device), e.blob, e.now, e.newKey);
      res.Success? && res.value.1.kind.Receipt? ==> Committed(t.sys, Other(e.role), res.value.1.kind.messageId)
  }

  lemma FetchIsHonest(w: World, e: Event)
    requires WorldInv(w) && Allowed(w.TurnOf(e.role), e)
    ensures HonestFetch(w.TurnOf(e.role), e)
  {
    if e.Fetch? {
      var res := S.DecryptInbound(Memory(w.Dev(e.role)), e.blob, e.now, e.newKey);
      if res.Success? && res.value.1.kind.Receipt? {
        DeliveryRuns.ReceiptsAreHonest(w, e.role, e.blob, e.now, e.newKey, res.value.1.kind.messageId);
      }
    }
  }

  lemma ActionKeepsOutbox(t: Turn, e: Event)
    requires OutboxOk(t, e.role) && Ready(t, e.role) && Allowed(t, e) && HonestFetch(t, e)
             && Grown(t.sys, Act(t, e).sys)
    ensures OutboxOk(Act(t, e), e.role)
  {
    match e
    case SendCommit(r, d, now, k) => SendKeepsOutbox(t, r, d, now, k);
    case Fetch(r, blob, now, k) => FetchKeepsOutbox(t, r, blob, now, k);
    case ReceiptHandOff(r, ok) => HandOffKeepsOutbox(t, r, ok);
    case SavePosition(r) => PositionKeepsOutbox(t, r);
    case Crash(r) => CrashKeepsOutbox(t, r);
    case _ => OthersKeepOutbox(t, e);
  }

  lemma ActorKeepsOutbox(w: World, e: Event)
    requires WorldInv(w) && OutboxOk(w.TurnOf(e.role), e.role) && Allowed(w.TurnOf(e.role), e)
    ensures OutboxOk(Act(w.TurnOf(e.role), e), e.role) && Moved(w.sys, Act(w.TurnOf(e.role), e).sys, e.role)
  {
    Look(w, e.role);
    TurnKeeps(w.TurnOf(e.role), e);
    FetchIsHonest(w, e);
    ActionKeepsOutbox(w.TurnOf(e.role), e);
  }

  // ---------- runs ----------

  ghost predicate BothOutboxes(w: World) {
    OutboxOk(w.TurnOf(Inviter), Inviter) && OutboxOk(w.TurnOf(Joiner), Joiner)
  }

  lemma BystanderOutbox(d: Device, a: System, b: System, wire: set<Payload>, more: set<Payload>, r: Role)
    requires OutboxOk(Turn(d, a, wire), r) && Moved(a, b, Other(r))
    ensures OutboxOk(Turn(d, b, more), r)
  {
    OutboxStays(Turn(d, a, wire), Turn(d, b, more), r);
  }

  lemma BothAfter(w: World, r: Role, u: Turn)
    requires OutboxOk(u, r) && OutboxOk(Turn(w.Dev(Other(r)), u.sys, u.wire), Other(r))
    ensures BothOutboxes(w.EndTurn(r, u))
  {
    var v := w.EndTurn(r, u);
    assert v.TurnOf(r) == u && v.TurnOf(Other(r)) == Turn(w.Dev(Other(r)), u.sys, u.wire);
  }

  lemma OneOutbox(w: World, r: Role)
    requires BothOutboxes(w)
    ensures OutboxOk(w.TurnOf(r), r)
  {
  }

  lemma EventKeepsOutboxes(w: World, e: Event)
    requires WorldInv(w) && BothOutboxes(w) && Allowed(w.TurnOf(e.role), e)
    ensures BothOutboxes(Occur(w, e))
  {
    var o, u := Other(e.role), Act(w.TurnOf(e.role), e);
    OneOutbox(w, e.role);
    OneOutbox(w, o);
    ActorKeepsOutbox(w, e);
    BystanderOutbox(w.Dev(o), w.sys, u.sys, w.wire, u.wire, o);
    BothAfter(w, e.role, u);
  }

  lemma {:induction false} RunKeepsOutboxes(w: World, events: seq<Event>)
    requires WorldInv(w) && BothOutboxes(w) && DeliveryRuns.Run(w, events)
    ensures BothOutboxes(DeliveryRuns.After(w, events))
    decreases |events|
  {
    if events != [] {
      EventKeepsOutboxes(w, events[0]);
      EventKeepsWorld(w, events[0]);
      RunKeepsOutboxes(Occur(w, events[0]), events[1..]);
    }
  }

  // In every run with crashes, each text a side has committed is still in its outbox, under its
  // own id, or has lapsed by retention, or has been stored by the peer.
  lemma NoSilentLoss(w: World, events: seq<Event>, master: Master, hybrid: bool,
                     inviterKey: KeyId, joinerKey: KeyId, conversation: string, r: Role, i: nat)
    requires DeliveryRuns.Started(w, master, hybrid, inviterKey, joinerKey, conversation) && DeliveryRuns.Run(w, events)
    requires i < |DeliveryRuns.After(w, events).sys.Get(r).log|
             && IsText(DeliveryRuns.After(w, events).sys.Get(r).log[i])
    ensures var end := DeliveryRuns.After(w, events);
            var p := end.sys.Get(r).log[i].payload;
            || (MessageId(p) in end.Dev(r).disk.outbound && end.Dev(r).disk.outbound[MessageId(p)].payload == p
                && p.box.plaintext.kind == Text(end.Dev(r).disk.outbound[MessageId(p)].body)
                && end.Dev(r).disk.outbound[MessageId(p)].seqNo == p.box.plaintext.seqNo)
            || MessageId(p) in end.Dev(r).lapsed
            || DeliveryRuns.TakenIn(end, Other(r), MessageId(p))
  {
    var end := DeliveryRuns.After(w, events);
    var id := MessageId(end.sys.Get(r).log[i].payload);
    DeliveryRuns.StartedInv(w, master, hybrid, inviterKey, joinerKey, conversation);
    RunKeepsOutboxes(w, events);
    DeliveryRuns.RunKeepsWorld(w, events);
    assert AccountedAt(end.TurnOf(r), r, i);
    if id in end.Dev(r).disk.outbound {
      assert RowOk(end.TurnOf(r), r, id);
    } else if id !in end.Dev(r).lapsed {
      Look(end, Other(r));
      DeliveryRuns.CommittedIsTakenIn(end.TurnOf(Other(r)), Other(r), id);
    }
  }

  // ---------- what retention takes ----------

  // A sweep takes from inbox and outbox exactly what has expired or is a day old, and records it.
  lemma SweepTakesDue(t: Turn, r: Role, now: int)
    ensures var d, u := t.device, Act(t, Sweep(r, now)).device;
            && Act(t, Sweep(r, now)).sys == t.sys && Act(t, Sweep(r, now)).wire == t.wire
            && u.disk.contact == d.disk.contact && u.disk.receipts == d.disk.receipts && u.table == d.table
            && (forall id :: id in u.lapsed <==> (id in d.lapsed || RowDue(d.disk, id, now)))
            && (forall n :: n in u.swept <==> (n in d.swept || TextDue(d.disk, n, now)))
  {
  }

  predicate RowDue(t: Tables, id: MessageId, now: int) {
    && id in t.outbound
    && (now >= t.outbound[id].validUntil || now >= t.outbound[id].createdAt + 24 * 60 * 60 * 1000)
  }

  predicate TextDue(t: Tables, n: nat, now: int) {
    n in t.inbound && (now >= t.inbound[n].validUntil || now >= t.inbound[n].receivedAt + 24 * 60 * 60 * 1000)
  }
}
