/** What survives crashes: guarantees over whole runs of two devices, with a crash possible
    between any two durable steps and a network that reorders, repeats and forges. */
module DeliveryRuns {
  import opened Crypto
  import opened Message
  import opened TwoParty
  import opened Acceptance
  import opened LocalStore
  import opened Delivery
  import opened DeliverySteps
  import KeyUse
  import Pairing
  import Runs
  import S = Session

  ghost predicate Run(w: World, events: seq<Event>)
    decreases |events|
  {
    events == [] || (Allowed(w.TurnOf(events[0].role), events[0]) && Run(Occur(w, events[0]), events[1..]))
  }

  ghost function After(w: World, events: seq<Event>): World
    decreases |events|
  {
    if events == [] then w else After(Occur(w, events[0]), events[1..])
  }

  // Both devices have saved the contact that pairing made, and nothing else.
  ghost predicate Started(w: World, master: Master, hybrid: bool, inviterKey: KeyId, joinerKey: KeyId,
                          conversation: string)
  {
    && Runs.Paired(w.sys, master, hybrid, inviterKey, joinerKey, conversation)
    && w.inviter == Device(Tables(w.sys.inviter.contact, map[], map[], {}), map[], Idle, {}, {})
    && w.joiner == Device(Tables(w.sys.joiner.contact, map[], map[], {}), map[], Idle, {}, {})
    && w.wire == {}
  }

  lemma StartedInv(w: World, master: Master, hybrid: bool, inviterKey: KeyId, joinerKey: KeyId, conversation: string)
    requires Started(w, master, hybrid, inviterKey, joinerKey, conversation)
    ensures WorldInv(w)
  {
    Runs.PairedInv(w.sys, master, hybrid, inviterKey, joinerKey, conversation);
  }

  // Two devices that have saved what pairing gave them.
  function FirstWorld(x: Pairing.PairedContact, y: Pairing.PairedContact, inviterKey: KeyId, joinerKey: KeyId): World {
    World(Device(Tables(x.contact, map[], map[], {}), map[], Idle, {}, {}),
          Device(Tables(y.contact, map[], map[], {}), map[], Idle, {}, {}),
          Pairing.Joined(x, y, inviterKey, joinerKey), {})
  }

  // From any invite and a request honestly built for it, delivery starts in the invariant.
  lemma PairingStarts(inviter: Pairing.Identity, joiner: Pairing.Identity, i: Pairing.Invite,
                      je: KeyId, jr: KeyId, coins: nat, ie: KeyId, ir: KeyId, now: int, later: int)
    requires Pairing.IssuedBy(i, inviter) && ir != jr
    ensures var (q, s) := Pairing.BuildRequest(joiner, i, joiner.name, je, jr, coins);
            var a := Pairing.InviterComplete(inviter, i, q, ie, ir, now);
            && a.Success?
            && var b := Pairing.JoinerComplete(joiner, i, q, s, a.value.0, later);
               && b.Success?
               && Started(FirstWorld(a.value.1, b.value, ir, jr), a.value.1.master, Pairing.SupportsHybrid(i), ir, jr,
                          a.value.1.contact.conversation)
               && WorldInv(FirstWorld(a.value.1, b.value, ir, jr))
  {
    var (q, s) := Pairing.BuildRequest(joiner, i, joiner.name, je, jr, coins);
    Pairing.PairingEstablishes(inviter, joiner, i, joiner.name, je, jr, coins, ie, ir, now, later);
    var (resp, x) := Pairing.InviterComplete(inviter, i, q, ie, ir, now).value;
    var y := Pairing.JoinerComplete(joiner, i, q, s, resp, later).value;
    StartedInv(FirstWorld(x, y, ir, jr), x.master, Pairing.SupportsHybrid(i), ir, jr, x.contact.conversation);
  }

  lemma {:induction false} RunKeepsWorld(w: World, events: seq<Event>)
    requires WorldInv(w) && Run(w, events)
    ensures WorldInv(After(w, events))
    decreases |events|
  {
    if events != [] {
      EventKeepsWorld(w, events[0]);
      RunKeepsWorld(Occur(w, events[0]), events[1..]);
    }
  }

  // ---------- no false delivery ----------

  // The peer has durably taken in the text with this id: its row is in the inbox, or was
  // there until retention removed it.
  ghost predicate TakenIn(w: World, r: Role, id: MessageId) {
    exists i: nat :: TextAt(w.sys, r, i, id) && StoredText(w.Dev(r), i + 1, w.sys.Get(r).accepted[i])
  }

  lemma CommittedIsTakenIn(t: Turn, r: Role, id: MessageId)
    requires Durable(t, r) && Committed(t.sys, r, id)
    ensures exists i: nat :: TextAt(t.sys, r, i, id) && StoredText(t.device, i + 1, t.sys.Get(r).accepted[i])
  {
    var i: nat :| TextAt(t.sys, r, i, id);
    assert Kept(t.device, t.sys.Get(r).accepted, i);
  }

  // Only retention and a fetched receipt remove a row of the outbox.
  lemma OnlyReceiptsRemove(t: Turn, e: Event, id: MessageId)
    requires id in t.device.disk.outbound && id !in Act(t, e).device.disk.outbound && !e.Sweep?
    ensures e.Fetch?
    ensures S.DecryptInbound(Memory(t.device), e.blob, e.now, e.newKey).Success?
    ensures S.DecryptInbound(Memory(t.device), e.blob, e.now, e.newKey).value.1.kind == Receipt(id)
  {
  }

  lemma ReceiptsAreHonest(w: World, r: Role, blob: Blob, now: int, k: KeyId, id: MessageId)
    requires WorldInv(w) && Allowed(w.TurnOf(r), Fetch(r, blob, now, k))
    requires S.DecryptInbound(Memory(w.Dev(r)), blob, now, k).Success?
    requires S.DecryptInbound(Memory(w.Dev(r)), blob, now, k).value.1.kind == Receipt(id)
    ensures Committed(w.sys, Other(r), id)
  {
    OfferIsPresentable(w.sys, w.wire, blob);
    AcceptsExactlyNext(w.sys, r, blob, now, k);
    Look(w, Other(r));
    assert HonestSlot(w.sys, Other(r), w.sys.Get(r).contact.lastRecvSeq);
  }

  lemma RemovalIsCommitted(w: World, e: Event, id: MessageId)
    requires WorldInv(w) && Allowed(w.TurnOf(e.role), e) && !e.Sweep?
    requires id in w.Dev(e.role).disk.outbound && id !in Act(w.TurnOf(e.role), e).device.disk.outbound
    ensures TakenIn(w, Other(e.role), id)
  {
    OnlyReceiptsRemove(w.TurnOf(e.role), e, id);
    ReceiptsAreHonest(w, e.role, e.blob, e.now, e.newKey, id);
    Look(w, Other(e.role));
    CommittedIsTakenIn(w.TurnOf(Other(e.role)), Other(e.role), id);
  }

  // Whatever happened before, crashes included: if an event takes a text out of the sender's
  // outbox, other than by retention, the peer has already stored that text.
  lemma NoFalseDelivery(w: World, events: seq<Event>, master: Master, hybrid: bool,
                        inviterKey: KeyId, joinerKey: KeyId, conversation: string, e: Event, id: MessageId)
    requires Started(w, master, hybrid, inviterKey, joinerKey, conversation) && Run(w, events)
    requires Allowed(After(w, events).TurnOf(e.role), e) && !e.Sweep?
    requires id in After(w, events).Dev(e.role).disk.outbound
    requires id !in Occur(After(w, events), e).Dev(e.role).disk.outbound
    ensures TakenIn(After(w, events), Other(e.role), id)
  {
    var v := After(w, events);
    StartedInv(w, master, hybrid, inviterKey, joinerKey, conversation);
    RunKeepsWorld(w, events);
    RemovalIsCommitted(v, e, id);
  }

  // ---------- durable receive ----------

  // Up to the position a device has saved, every number the peer spent on a text has its row
  // (unless swept), and its receipt is queued or was handed to a relay.
  ghost predicate SavedUpToPosition(w: World, r: Role) {
    var d, sent := w.Dev(r), w.sys.Get(Other(r)).log;
    && d.disk.contact.lastRecvSeq <= |sent|
    && forall i: nat | i < d.disk.contact.lastRecvSeq ::
         sent[i].Sent? && SavedSlot(w.TurnOf(r), r, i + 1, sent[i].payload)
  }

  ghost predicate SavedSlot(t: Turn, r: Role, s: nat, p: Payload) {
    p.box.plaintext.kind.Text? ==> StoredText(t.device, s, p.box.plaintext) && Answered(t, r, MessageId(p))
  }

  lemma ReadyIsSaved(t: Turn, r: Role, i: nat)
    requires Ready(t, r) && i < t.sys.Get(r).contact.lastRecvSeq
    ensures i < |t.sys.Get(Other(r)).log| && t.sys.Get(Other(r)).log[i].Sent?
    ensures SavedSlot(t, r, i + 1, t.sys.Get(Other(r)).log[i].payload)
  {
    var p := t.sys.Get(Other(r)).log[i].payload;
    assert Kept(t.device, t.sys.Get(r).accepted, i);
    if p.box.plaintext.kind.Text? {
      assert TextAt(t.sys, r, i, MessageId(p));
      assert Answered(t, r, MessageId(p));
    }
  }

  lemma WorldIsSaved(w: World, r: Role)
    requires WorldInv(w)
    ensures SavedUpToPosition(w, r)
  {
    Look(w, r);
    var t := w.TurnOf(r);
    forall i: nat | i < w.Dev(r).disk.contact.lastRecvSeq
      ensures i < |t.sys.Get(Other(r)).log| && t.sys.Get(Other(r)).log[i].Sent?
      ensures SavedSlot(t, r, i + 1, t.sys.Get(Other(r)).log[i].payload)
    {
      ReadyIsSaved(t, r, i);
    }
  }

  // In every state a run with crashes can reach.
  lemma DurableReceive(w: World, events: seq<Event>, master: Master, hybrid: bool,
                       inviterKey: KeyId, joinerKey: KeyId, conversation: string, r: Role)
    requires Started(w, master, hybrid, inviterKey, joinerKey, conversation) && Run(w, events)
    ensures SavedUpToPosition(After(w, events), r)
  {
    StartedInv(w, master, hybrid, inviterKey, joinerKey, conversation);
    RunKeepsWorld(w, events);
    WorldIsSaved(After(w, events), r);
  }

  // ---------- keys across crashes ----------

  // No two different texts, profiles or presence messages ever handed to a relay share a
  // message key or a header position, whichever device sent them and whatever crashed.
  lemma KeyFreshness(w: World, events: seq<Event>, master: Master, hybrid: bool,
                     inviterKey: KeyId, joinerKey: KeyId, conversation: string, p: Payload, q: Payload)
    requires Started(w, master, hybrid, inviterKey, joinerKey, conversation) && Run(w, events)
    requires p in After(w, events).wire && q in After(w, events).wire && p != q
    requires !p.box.plaintext.kind.Receipt? && !q.box.plaintext.kind.Receipt?
    ensures p.box.key != q.box.key && (p.header.dh != q.header.dh || p.header.n != q.header.n)
  {
    var v := After(w, events);
    StartedInv(w, master, hybrid, inviterKey, joinerKey, conversation);
    RunKeepsWorld(w, events);
    Look(v, Inviter);
    var r, i := SlotOf(v.sys, p);
    var s, j := SlotOf(v.sys, q);
    KeyUse.KeysUsedOnce(v.sys, r, i, s, j);
  }

  lemma SlotOf(sys: System, p: Payload) returns (r: Role, i: nat)
    requires OfLogs(sys, p)
    ensures i < |sys.Get(r).log| && sys.Get(r).log[i].Sent? && sys.Get(r).log[i].payload == p
  {
    r := if InLog(sys.inviter.log, p) then Inviter else Joiner;
    i :| i < |sys.Get(r).log| && sys.Get(r).log[i].Sent? && sys.Get(r).log[i].payload == p;
  }
}
