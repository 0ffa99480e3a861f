/** Two paired contacts and the network between them, as a transition system, and the
    relation between their ratchets that every step keeps. */
module TwoParty {
  import opened Crypto
  import opened Message
  import opened KeySchedule
  import opened Log
  import opened SkippedKeys
  import R = Ratchet
  import S = Session

  datatype Role = Inviter | Joiner

  function Other(r: Role): Role { if r.Inviter? then Joiner else Inviter }

  // The first epoch a side sends in.
  function First(r: Role): nat { if r.Inviter? then 2 else 1 }

  // The inviter owns the even keys of the schedule, the joiner the odd ones.
  predicate Owns(r: Role, epoch: nat) { epoch % 2 == (if r.Inviter? then 0 else 1) }

  // One side: its contact record, what it has sent and accepted, and the index of its own
  // ratchet key in the schedule.
  datatype Side = Side(contact: S.Contact, epoch: nat, log: seq<Slot>, accepted: seq<InnerMessage>)

  datatype System = System(inviter: Side, joiner: Side, schedule: Schedule, nextKey: nat) {
    function Get(r: Role): Side { if r.Inviter? then inviter else joiner }

    function Put(r: Role, s: Side): System {
      if r.Inviter? then this.(inviter := s) else this.(joiner := s)
    }
  }

  // ---------- what the network can present ----------

  ghost predicate SealedIn(log: seq<Slot>, box: Box) {
    exists i :: 0 <= i < |log| && log[i].Sent? && log[i].payload.box == box
  }

  // Anything whose ciphertext one of the two sealed, under any header, or was sealed under
  // a key neither derived: reordered, repeated, reflected, re-headed and forged blobs.
  ghost predicate Presentable(sys: System, blob: Blob) {
    blob.Malformed? || blob.payload.box.key.Foreign?
    || SealedIn(sys.inviter.log, blob.payload.box) || SealedIn(sys.joiner.log, blob.payload.box)
  }

  // ---------- steps ----------

  datatype Step =
    | SendMessage(role: Role, draft: S.Draft, now: int, newKey: KeyId)
    | SendReceipt(role: Role, draft: S.Draft, now: int, newKey: KeyId)
    | LoseNumber(role: Role)
    | Receive(role: Role, blob: Blob, now: int, newKey: KeyId)
    | Reload(role: Role, table: map<R.SkipId, MessageKey>)  // the stored keys are read from disk again

  ghost predicate Enabled(sys: System, step: Step) {
    match step
    case SendMessage(_, d, _, k) => !d.kind.Receipt? && k >= sys.nextKey
    case SendReceipt(_, d, _, k) => d.kind.Receipt? && k !in sys.schedule.keys
    case LoseNumber(_) => true
    case Receive(_, blob, _, k) => k >= sys.nextKey && Presentable(sys, blob)
    case Reload(r, table) => TableOk(sys.Get(r).contact.ratchet, table)
  }

  // The side takes over a new contact record; a new ratchet key extends the schedule.
  function Adopt(sys: System, r: Role, c: S.Contact, newKey: KeyId): System {
    var s := sys.Get(r);
    if c.ratchet.selfKey == s.contact.ratchet.selfKey then sys.Put(r, s.(contact := c))
    else
      sys.Put(r, s.(contact := c, epoch := |sys.schedule.keys|))
         .(schedule := sys.schedule.Extend(c.ratchet.selfKey), nextKey := newKey + 1)
  }

  function Append(sys: System, r: Role, slot: Slot): System {
    var s := sys.Get(r);
    sys.Put(r, s.(log := s.log + [slot]))
  }

  // Later keys will be new with respect to this one too.
  function Reserve(sys: System, k: KeyId): System {
    if k < sys.nextKey then sys else sys.(nextKey := k + 1)
  }

  function Apply(sys: System, step: Step): System {
    match step
    case SendMessage(r, d, now, k) =>
      (match S.Encrypt(sys.Get(r).contact, d, now, k)
       case Failure(_) => sys
       case Success(cp) =>
         var next := Adopt(sys, r, cp.0, k);
         Append(next, r, Sent(cp.1, At(next.Get(r).epoch, cp.1.header.n))))
    case SendReceipt(r, d, now, k) =>
      (match S.EncryptReceipt(sys.Get(r).contact, d, now, k)
       case Failure(_) => sys
       case Success(cp) =>
         var s := sys.Get(r);
         var borrowed := cp.1.header.dh != s.contact.ratchet.selfKey;
         var at := if borrowed then Borrowed(cp.1.header.dh) else At(s.epoch, cp.1.header.n);
         var next := Append(Adopt(sys, r, cp.0, k), r, Sent(cp.1, at));
         if borrowed then Reserve(next, k) else next)
    case LoseNumber(r) =>
      var s := sys.Get(r);
      Append(sys.Put(r, s.(contact := s.contact.(nextSendSeq := s.contact.nextSendSeq + 1))), r, Hole)
    case Receive(r, blob, now, k) =>
      (match S.DecryptInbound(sys.Get(r).contact, blob, now, k)
       case Failure(_) => WithContact(sys, r, S.AfterTrial(sys.Get(r).contact, blob))
       case Success(cm) =>
         var next := Adopt(sys, r, cm.0, k);
         var s := next.Get(r);
         next.Put(r, s.(accepted := s.accepted + [cm.1])))
    case Reload(r, table) => WithContact(sys, r, WithTable(sys.Get(r).contact, table))
  }

  function WithContact(sys: System, r: Role, c: S.Contact): System {
    sys.Put(r, sys.Get(r).(contact := c))
  }

  function WithTable(c: S.Contact, table: map<R.SkipId, MessageKey>): S.Contact {
    c.(ratchet := c.ratchet.(skipped := table))
  }

  // ---------- the invariant ----------

  predicate Pending(s: Side) { s.contact.ratchet.pendingPeer.Some? }

  // The epoch a side receives in.
  function RecvEpoch(s: Side): nat {
    if Pending(s) then 1 else if s.epoch > 0 then s.epoch - 1 else 0
  }

  ghost predicate Wired(sch: Schedule) {
    |sch.keys| >= 2
  }

  // A sent message is sealed with the key its place in the schedule assigns to it.
  ghost predicate WellSealed(sch: Schedule, nextKey: nat, r: Role, s: Side, i: nat)
    requires Wired(sch) && i < |s.log|
  {
    var slot := s.log[i];
    slot.Sent? ==>
      var p := slot.payload;
      && p.box.aad == p.header
      && p.box.plaintext.seqNo == i + 1
      && p.box.plaintext.conversation == s.contact.conversation
      && match slot.at
         case At(j, n) =>
           && First(r) <= j <= s.epoch && j < |sch.keys| && Owns(r, j)
           && p.header.dh == sch.keys[j] && p.header.n == n
           && p.box.key == MessageKey(sch.Chain(j), n)
         case Borrowed(x) =>
           && r.Inviter? && p.box.plaintext.kind.Receipt?
           && p.header.dh == x && p.header.n == 0 && x < nextKey && x !in sch.keys
           && p.box.key == MessageKey(ChainKdf(sch.Root(1), DH(sch.keys[1], x)), 0)
  }

  // The sending half of a side follows the schedule.
  ghost predicate Sends(sch: Schedule, r: Role, s: Side)
    requires Wired(sch)
  {
    var q := s.contact.ratchet;
    var c := CursorAfter(First(r), s.log);
    && s.contact.nextSendSeq == |s.log| + 1
    && InOrder(First(r), s.log)
    && if Pending(s) then
         && r.Inviter? && s.epoch == 0 && |sch.keys| == 2
         && q.pendingPeer == Some(sch.keys[1]) && q.selfKey == sch.keys[0] && q.rootKey == sch.Root(0)
         && c == Cursor(2, 0, 0, 0, 0, false)
       else
         && First(r) <= s.epoch < |sch.keys| && Owns(r, s.epoch)
         && q.selfKey == sch.keys[s.epoch] && q.rootKey == sch.Root(s.epoch)
         && q.sendChain == Some(ChainKey(sch.Chain(s.epoch), q.sendN))
         && if c.epoch == s.epoch then c.n == q.sendN
            else c.epoch + 2 == s.epoch == |sch.keys| - 1 && q.sendN == 0
  }

  // Where the receiver stands against the sender's cursor at the first slot not accepted:
  // in the same epoch and behind by the auxiliary messages it rolled back, or still before
  // an epoch in which nothing but those and receipts has been sent.
  predicate Tracks(c: Cursor, epoch: nat, recvN: nat) {
    || (c.epoch == epoch && c.n == recvN + c.sinceText)
    || (c.epoch == epoch + 2 && c.n == c.sinceText)
  }

  ghost predicate Receives(sch: Schedule, r: Role, s: Side, peer: seq<Slot>)
    requires Wired(sch)
  {
    var q := s.contact.ratchet;
    var k := s.contact.lastRecvSeq;
    && RecvEpoch(s) < |sch.keys|
    && (q.peerKey == Some(sch.keys[RecvEpoch(s)]) || (Pending(s) && q.peerKey == None && q.recvN == 0))
    && OnChain(q, sch.Chain(RecvEpoch(s)))
    && k <= |peer| && |s.accepted| == k
    && (forall i | 0 <= i < k :: peer[i].Sent? && s.accepted[i] == peer[i].payload.box.plaintext)
    && Tracks(CursorAfter(First(Other(r)), peer[..k]), RecvEpoch(s), q.recvN)
    && (r.Joiner? && s.epoch > 1 ==> CursorAfter(2, peer[..k]).begun)
  }

  ghost predicate AllSealed(sch: Schedule, nextKey: nat, r: Role, s: Side)
    requires Wired(sch)
  {
    forall i: nat | i < |s.log| :: WellSealed(sch, nextKey, r, s, i)
  }

  ghost predicate SideIn(sch: Schedule, nextKey: nat, r: Role, s: Side, peer: seq<Slot>)
    requires Wired(sch)
  {
    Sends(sch, r, s) && Receives(sch, r, s, peer) && AllSealed(sch, nextKey, r, s)
  }

  ghost predicate SideInv(sys: System, r: Role)
    requires Wired(sys.schedule)
  {
    SideIn(sys.schedule, sys.nextKey, r, sys.Get(r), sys.Get(Other(r)).log)
  }

  // One of the two holds the newest key of the schedule, the other the one before it.
  ghost predicate LockStep(sys: System) {
    var top := |sys.schedule.keys| - 1;
    (sys.inviter.epoch == top && sys.joiner.epoch == top - 1)
    || (sys.joiner.epoch == top && sys.inviter.epoch == top - 1)
  }

  ghost predicate Inv(sys: System) {
    && Wired(sys.schedule) && sys.schedule.Distinct() && sys.schedule.Below(sys.nextKey)
    && LockStep(sys)
    && sys.inviter.contact.conversation == sys.joiner.contact.conversation
    && SideInv(sys, Inviter) && SideInv(sys, Joiner)
  }

  // The network can present anything malformed, anything sealed under a key of its own, and any
  // ciphertext of the two under any header.
  lemma NetworkIsFree(sys: System, r: Role, i: nat, h: Header, m: InnerMessage, id: nat)
    ensures Presentable(sys, Malformed) && Presentable(sys, Framed(Payload(h, Box(Foreign(id), h, m))))
    ensures i < |sys.Get(r).log| && sys.Get(r).log[i].Sent? ==>
              Presentable(sys, Framed(Payload(h, sys.Get(r).log[i].payload.box)))
  {
    if i < |sys.Get(r).log| && sys.Get(r).log[i].Sent? {
      assert SealedIn(sys.Get(r).log, sys.Get(r).log[i].payload.box);
    }
  }
}
