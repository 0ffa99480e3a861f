/** Contacts added from public bundles (Contact.establish): the same steps and the same network,
    but the two never exchange ratchet keys before they talk. */
module Static {
  import opened Crypto
  import opened Message
  import opened KeySchedule
  import opened Log
  import opened SkippedKeys
  import opened TwoParty
  import opened Opening
  import opened Preservation
  import Pairing
  import Runs
  import R = Ratchet
  import S = Session

  // The initiator's first chain and the other's.
  function Start(r: Role, root: RootKey): ChainStart {
    if r.Inviter? then SendInit(root) else RecvInit(root)
  }

  // A slot sealed under its sender's one chain.
  ghost predicate StaticSlot(root: RootKey, r: Role, own: KeyId, slot: Slot, i: nat) {
    slot.Sent? ==>
      var p := slot.payload;
      && p.box.aad == p.header && p.header.dh == own && p.box.key == MessageKey(Start(r, root), p.header.n)
      && p.box.plaintext.seqNo == i + 1
  }

  ghost predicate StaticSide(root: RootKey, r: Role, own: KeyId, peer: KeyId, s: Side, sent: seq<Slot>) {
    var q, k := s.contact.ratchet, s.contact.lastRecvSeq;
    && q.rootKey == root && q.selfKey == own && q.pendingPeer.None?
    && q.sendChain == Some(ChainKey(Start(r, root), q.sendN))
    && OnChain(q, Start(Other(r), root)) && (q.peerKey == None || q.peerKey == Some(peer))
    && s.contact.nextSendSeq == |s.log| + 1
    && (forall i: nat | i < |s.log| :: StaticSlot(root, r, own, s.log[i], i))
    && k <= |sent| && |s.accepted| == k
    && (forall i: nat | i < k :: sent[i].Sent? && s.accepted[i] == sent[i].payload.box.plaintext)
  }

  ghost predicate StaticInv(sys: System, root: RootKey, a: KeyId, b: KeyId) {
    && root.RootOf?
    && StaticSide(root, Inviter, a, b, sys.inviter, sys.joiner.log)
    && StaticSide(root, Joiner, b, a, sys.joiner, sys.inviter.log)
  }

  // The record made from a public bundle; the names decide who is the initiator.
  function Establish(local: string, remote: string, shared: Shared, ratchetKey: KeyId): S.Contact {
    var initiator := Pairing.Precedes(local, remote) && local != remote;
    S.Contact(Pairing.ConversationId(local, remote), false, 0, 1, 0,
              R.FromMaster(BundleMaster(shared), initiator, false, ratchetKey))
  }

  // Two people with different names who add each other's bundles.
  ghost predicate Established(sys: System, shared: Shared, a: KeyId, b: KeyId, conversation: string) {
    var master := BundleMaster(shared);
    && Runs.FreshContact(sys.inviter.contact, conversation, R.FromMaster(master, true, false, a))
    && Runs.FreshContact(sys.joiner.contact, conversation, R.FromMaster(master, false, false, b))
    && sys.inviter.log == [] && sys.joiner.log == [] && sys.inviter.accepted == [] && sys.joiner.accepted == []
  }

  lemma EstablishPairs(x: string, y: string, shared: Shared, a: KeyId, b: KeyId, sch: Schedule, nextKey: nat)
    requires Pairing.Precedes(x, y) && x != y
    ensures var sys := System(Side(Establish(x, y, shared, a), 0, [], []), Side(Establish(y, x, shared, b), 0, [], []),
                              sch, nextKey);
            Established(sys, shared, a, b, Pairing.ConversationId(x, y))
  {
    Pairing.PrecedesIsTotalOrder(x, y);
  }

  // Two of the same name would both seal under the chain the other seals under, and neither
  // opens anything.
  lemma SameNameNeverTalks(x: string, shared: Shared, a: KeyId, b: KeyId, d: S.Draft, now: int, later: int, k: KeyId,
                           l: KeyId)
    ensures var sent := S.Encrypt(Establish(x, x, shared, a), d, now, k);
            sent.Success? && S.DecryptInbound(Establish(x, x, shared, b), Framed(sent.value.1), later, l).Failure?
  {
  }

  lemma EstablishedInv(sys: System, shared: Shared, a: KeyId, b: KeyId, conversation: string)
    requires Established(sys, shared, a, b, conversation)
    ensures StaticInv(sys, RootOf(BundleMaster(shared)), a, b)
  {
  }

  function Own(r: Role, a: KeyId, b: KeyId): KeyId { if r.Inviter? then a else b }

  // ---------- sending ----------

  lemma SealIs(c: S.Contact, d: S.Draft, now: int, k: KeyId)
    requires c.ratchet.pendingPeer.None? && S.Encrypt(c, d, now, k).Success?
    ensures var (e, p) := S.Encrypt(c, d, now, k).value;
            var q, u := c.ratchet, e.ratchet;
            && q.sendChain.Some? && p.header.dh == q.selfKey && p.header.n == q.sendN && p.box.aad == p.header
            && p.box.key == MessageKey(q.sendChain.value.start, q.sendChain.value.steps)
            && p.box.plaintext.seqNo == c.nextSendSeq
            && e.nextSendSeq == c.nextSendSeq + 1 && e.lastRecvSeq == c.lastRecvSeq
            && u == q.(sendN := q.sendN + 1,
                       sendChain := Some(ChainKey(q.sendChain.value.start, q.sendChain.value.steps + 1)))
  {
  }

  lemma AppendStatic(root: RootKey, r: Role, own: KeyId, peer: KeyId, s: Side, t: Side, slot: Slot, sent: seq<Slot>)
    requires StaticSide(root, r, own, peer, s, sent)
    requires t.log == s.log + [slot] && StaticSlot(root, r, own, slot, |s.log|) && t.accepted == s.accepted
    requires var q, u := s.contact.ratchet, t.contact.ratchet;
             && u == q.(sendN := u.sendN, sendChain := u.sendChain)
             && u.sendChain == Some(ChainKey(Start(r, root), u.sendN))
             && t.contact.nextSendSeq == s.contact.nextSendSeq + 1 && t.contact.lastRecvSeq == s.contact.lastRecvSeq
    ensures StaticSide(root, r, own, peer, t, sent)
  {
  }

  lemma PeerAppends(root: RootKey, r: Role, own: KeyId, peer: KeyId, s: Side, sent: seq<Slot>, more: seq<Slot>)
    requires StaticSide(root, r, own, peer, s, sent) && sent <= more
    ensures StaticSide(root, r, own, peer, s, more)
  {
  }

  lemma SendKeeps(sys: System, root: RootKey, a: KeyId, b: KeyId, r: Role, next: System, slot: Slot)
    requires StaticInv(sys, root, a, b)
    requires next.Get(Other(r)) == sys.Get(Other(r))
    requires StaticSide(root, r, Own(r, a, b), Own(Other(r), a, b), next.Get(r), sys.Get(Other(r)).log)
    requires next.Get(r).log == sys.Get(r).log + [slot]
    ensures StaticInv(next, root, a, b)
  {
    PeerAppends(root, Other(r), Own(Other(r), a, b), Own(r, a, b), sys.Get(Other(r)), sys.Get(r).log, next.Get(r).log);
  }

  // ---------- receiving ----------

  ghost predicate StaticSealedIn(root: RootKey, r: Role, own: KeyId, log: seq<Slot>) {
    forall i: nat | i < |log| :: StaticSlot(root, r, own, log[i], i)
  }

  lemma SealedStart(root: RootKey, r: Role, own: KeyId, log: seq<Slot>, box: Box)
    requires StaticSealedIn(root, r, own, log) && SealedIn(log, box)
    ensures box.key.MessageKey? && box.key.start == Start(r, root)
  {
    var j: nat :| j < |log| && log[j].Sent? && log[j].payload.box == box;
    assert StaticSlot(root, r, own, log[j], j);
  }

  // Whatever opens is the peer's, under its own header, and opens without a DH step.
  lemma StaticOpens(root: RootKey, r: Role, own: KeyId, peer: KeyId, s: Side, sent: seq<Slot>, blob: Blob,
                    k: KeyId) returns (i: nat)
    requires root.RootOf? && StaticSide(root, r, own, peer, s, sent) && StaticSealedIn(root, Other(r), peer, sent)
    requires blob.Malformed? || blob.payload.box.key.Foreign? || SealedIn(s.log, blob.payload.box)
             || SealedIn(sent, blob.payload.box)
    requires R.Decrypt(s.contact.ratchet, blob, k).Success?
    ensures i < |sent| && sent[i].Sent? && blob == Framed(sent[i].payload)
    ensures R.Decrypt(s.contact.ratchet, blob, k).value.1 == sent[i].payload.box.plaintext
    ensures s.contact.ratchet.peerKey.None? || s.contact.ratchet.peerKey == Some(blob.payload.header.dh)
  {
    if SealedIn(s.log, blob.payload.box) {
      SealedStart(root, r, own, s.log, blob.payload.box);
    }
    OpenedKey(s.contact.ratchet, Start(Other(r), root), blob, k);
    assert SealedIn(sent, blob.payload.box);
    i :| i < |sent| && sent[i].Sent? && sent[i].payload.box == blob.payload.box;
    assert StaticSlot(root, Other(r), peer, sent[i], i);
    assert blob.payload == sent[i].payload;
  }

  lemma InboundOpens(c: S.Contact, blob: Blob, now: int, k: KeyId)
    requires S.DecryptInbound(c, blob, now, k).Success?
    ensures R.Decrypt(c.ratchet, blob, k).Success?
    ensures var (e, m) := S.DecryptInbound(c, blob, now, k).value;
            && m == R.Decrypt(c.ratchet, blob, k).value.1 && m.seqNo == c.lastRecvSeq + 1
            && e.lastRecvSeq == m.seqNo && e.nextSendSeq == c.nextSendSeq
            && e.ratchet == (if m.kind.Text? then R.Decrypt(c.ratchet, blob, k).value.0
                             else R.RolledBack(c.ratchet, blob))
  {
  }

  lemma AcceptStatic(root: RootKey, r: Role, own: KeyId, peer: KeyId, s: Side, sent: seq<Slot>, blob: Blob, now: int,
                     k: KeyId)
    requires root.RootOf? && StaticSide(root, r, own, peer, s, sent) && StaticSealedIn(root, Other(r), peer, sent)
    requires blob.Malformed? || blob.payload.box.key.Foreign? || SealedIn(s.log, blob.payload.box)
             || SealedIn(sent, blob.payload.box)
    requires S.DecryptInbound(s.contact, blob, now, k).Success?
    ensures var (c, m) := S.DecryptInbound(s.contact, blob, now, k).value;
            && c.ratchet.selfKey == own
            && StaticSide(root, r, own, peer, s.(contact := c, accepted := s.accepted + [m]), sent)
  {
    InboundOpens(s.contact, blob, now, k);
    var i := StaticOpens(root, r, own, peer, s, sent, blob, k);
    assert StaticSlot(root, Other(r), peer, sent[i], i);
    OpeningKeepsChain(s.contact.ratchet, Start(Other(r), root), peer, blob, k);
    LeftoverKeepsChain(s.contact.ratchet, Start(Other(r), root), blob);
  }

  lemma TableStatic(root: RootKey, r: Role, own: KeyId, peer: KeyId, s: Side, sent: seq<Slot>,
                    table: map<R.SkipId, MessageKey>)
    requires StaticSide(root, r, own, peer, s, sent) && TableOk(s.contact.ratchet, table)
    ensures StaticSide(root, r, own, peer, s.(contact := WithTable(s.contact, table)), sent)
  {
  }

  lemma StaticReloadKeeps(sys: System, root: RootKey, a: KeyId, b: KeyId, r: Role, table: map<R.SkipId, MessageKey>)
    requires StaticInv(sys, root, a, b) && TableOk(sys.Get(r).contact.ratchet, table)
    ensures var next := Apply(sys, Reload(r, table)); StaticInv(next, root, a, b) && next.schedule == sys.schedule
  {
    TableStatic(root, r, Own(r, a, b), Own(Other(r), a, b), sys.Get(r), sys.Get(Other(r)).log, table);
  }

  lemma StaticTrialKeeps(sys: System, root: RootKey, a: KeyId, b: KeyId, r: Role, blob: Blob, now: int, k: KeyId)
    requires StaticInv(sys, root, a, b) && S.DecryptInbound(sys.Get(r).contact, blob, now, k).Failure?
    ensures var next := Apply(sys, Receive(r, blob, now, k));
            StaticInv(next, root, a, b) && next.schedule == sys.schedule
  {
    var q := sys.Get(r).contact.ratchet;
    LeftoverKeepsChain(q, Start(Other(r), root), blob);
    TrialIsReload(sys, r, blob, now, k);
    StaticReloadKeeps(sys, root, a, b, r, R.Leftover(q, blob));
  }

  lemma AcceptedIs(sys: System, r: Role, blob: Blob, now: int, k: KeyId)
    requires S.DecryptInbound(sys.Get(r).contact, blob, now, k).Success?
    requires S.DecryptInbound(sys.Get(r).contact, blob, now, k).value.0.ratchet.selfKey ==
               sys.Get(r).contact.ratchet.selfKey
    ensures var (c, m) := S.DecryptInbound(sys.Get(r).contact, blob, now, k).value;
            Apply(sys, Receive(r, blob, now, k)) ==
            sys.Put(r, sys.Get(r).(contact := c, accepted := sys.Get(r).accepted + [m]))
  {
  }

  lemma PutKeeps(sys: System, root: RootKey, a: KeyId, b: KeyId, r: Role, t: Side)
    requires StaticInv(sys, root, a, b) && t.log == sys.Get(r).log
    requires StaticSide(root, r, Own(r, a, b), Own(Other(r), a, b), t, sys.Get(Other(r)).log)
    ensures StaticInv(sys.Put(r, t), root, a, b)
  {
  }

  lemma StaticAcceptKeeps(sys: System, root: RootKey, a: KeyId, b: KeyId, r: Role, blob: Blob, now: int, k: KeyId)
    requires StaticInv(sys, root, a, b) && Presentable(sys, blob)
    requires S.DecryptInbound(sys.Get(r).contact, blob, now, k).Success?
    ensures var next := Apply(sys, Receive(r, blob, now, k));
            StaticInv(next, root, a, b) && next.schedule == sys.schedule
  {
    var (c, m) := S.DecryptInbound(sys.Get(r).contact, blob, now, k).value;
    AcceptStatic(root, r, Own(r, a, b), Own(Other(r), a, b), sys.Get(r), sys.Get(Other(r)).log, blob, now, k);
    AcceptedIs(sys, r, blob, now, k);
    PutKeeps(sys, root, a, b, r, sys.Get(r).(contact := c, accepted := sys.Get(r).accepted + [m]));
  }

  lemma StaticReceiveKeeps(sys: System, root: RootKey, a: KeyId, b: KeyId, r: Role, blob: Blob, now: int, k: KeyId)
    requires StaticInv(sys, root, a, b) && Presentable(sys, blob)
    ensures var next := Apply(sys, Receive(r, blob, now, k));
            StaticInv(next, root, a, b) && next.schedule == sys.schedule
  {
    if S.DecryptInbound(sys.Get(r).contact, blob, now, k).Success? {
      StaticAcceptKeeps(sys, root, a, b, r, blob, now, k);
    } else {
      StaticTrialKeeps(sys, root, a, b, r, blob, now, k);
    }
  }

  lemma StaticSendKeeps(sys: System, root: RootKey, a: KeyId, b: KeyId, r: Role, d: S.Draft, now: int, k: KeyId)
    requires StaticInv(sys, root, a, b)
    ensures var next := Apply(sys, SendMessage(r, d, now, k));
            StaticInv(next, root, a, b) && next.schedule == sys.schedule
  {
    var s := sys.Get(r);
    if S.Encrypt(s.contact, d, now, k).Success? {
      SealIs(s.contact, d, now, k);
      var next := Apply(sys, SendMessage(r, d, now, k));
      var slot := next.Get(r).log[|s.log|];
      AppendStatic(root, r, Own(r, a, b), Own(Other(r), a, b), s, next.Get(r), slot, sys.Get(Other(r)).log);
      SendKeeps(sys, root, a, b, r, next, slot);
    }
  }

  lemma StaticReceiptKeeps(sys: System, root: RootKey, a: KeyId, b: KeyId, r: Role, d: S.Draft, now: int, k: KeyId)
    requires StaticInv(sys, root, a, b)
    ensures var next := Apply(sys, SendReceipt(r, d, now, k));
            StaticInv(next, root, a, b) && next.schedule == sys.schedule
  {
    var s := sys.Get(r);
    if S.Encrypt(s.contact, d, now, k).Success? {
      SealIs(s.contact, d, now, k);
      var next := Apply(sys, SendReceipt(r, d, now, k));
      var slot := next.Get(r).log[|s.log|];
      AppendStatic(root, r, Own(r, a, b), Own(Other(r), a, b), s, next.Get(r), slot, sys.Get(Other(r)).log);
      SendKeeps(sys, root, a, b, r, next, slot);
    }
  }

  lemma StaticLoseKeeps(sys: System, root: RootKey, a: KeyId, b: KeyId, r: Role)
    requires StaticInv(sys, root, a, b)
    ensures var next := Apply(sys, LoseNumber(r)); StaticInv(next, root, a, b) && next.schedule == sys.schedule
  {
    var s, next := sys.Get(r), Apply(sys, LoseNumber(r));
    AppendStatic(root, r, Own(r, a, b), Own(Other(r), a, b), s, next.Get(r), Hole, sys.Get(Other(r)).log);
    SendKeeps(sys, root, a, b, r, next, Hole);
  }

  lemma StaticStepKeeps(sys: System, root: RootKey, a: KeyId, b: KeyId, step: Step)
    requires StaticInv(sys, root, a, b) && Enabled(sys, step)
    ensures StaticInv(Apply(sys, step), root, a, b) && Apply(sys, step).schedule == sys.schedule
  {
    match step
    case SendMessage(r, d, now, k) => StaticSendKeeps(sys, root, a, b, r, d, now, k);
    case SendReceipt(r, d, now, k) => StaticReceiptKeeps(sys, root, a, b, r, d, now, k);
    case LoseNumber(r) => StaticLoseKeeps(sys, root, a, b, r);
    case Receive(r, blob, now, k) => StaticReceiveKeeps(sys, root, a, b, r, blob, now, k);
    case Reload(r, table) => StaticReloadKeeps(sys, root, a, b, r, table);
  }

  lemma {:induction false} StaticRunKeeps(sys: System, root: RootKey, a: KeyId, b: KeyId, steps: seq<Step>)
    requires StaticInv(sys, root, a, b) && Runs.Run(sys, steps)
    ensures StaticInv(Runs.After(sys, steps), root, a, b) && Runs.After(sys, steps).schedule == sys.schedule
    decreases |steps|
  {
    if steps != [] {
      StaticStepKeeps(sys, root, a, b, steps[0]);
      StaticRunKeeps(Apply(sys, steps[0]), root, a, b, steps[1..]);
    }
  }

  // Between established contacts the roots stay equal and neither ratchet key ever changes, in
  // every run and against every network: no DH step is ever kept. What each has accepted is
  // still the beginning of what the other sent.
  lemma RootsStayEqual(sys: System, steps: seq<Step>, shared: Shared, a: KeyId, b: KeyId, conversation: string)
    requires Established(sys, shared, a, b, conversation) && Runs.Run(sys, steps)
    ensures var end := Runs.After(sys, steps);
            var q, u := end.inviter.contact.ratchet, end.joiner.contact.ratchet;
            && q.rootKey == u.rootKey == RootOf(BundleMaster(shared)) && q.selfKey == a && u.selfKey == b
            && (q.peerKey.Some? ==> q.peerKey.value == b) && (u.peerKey.Some? ==> u.peerKey.value == a)
            && Runs.AcceptedPrefix(end, Inviter) && Runs.AcceptedPrefix(end, Joiner)
  {
    EstablishedInv(sys, shared, a, b, conversation);
    StaticRunKeeps(sys, RootOf(BundleMaster(shared)), a, b, steps);
    StaticPrefix(Runs.After(sys, steps), RootOf(BundleMaster(shared)), a, b, Inviter);
    StaticPrefix(Runs.After(sys, steps), RootOf(BundleMaster(shared)), a, b, Joiner);
  }

  lemma StaticPrefix(sys: System, root: RootKey, a: KeyId, b: KeyId, r: Role)
    requires StaticInv(sys, root, a, b)
    ensures Runs.AcceptedPrefix(sys, r)
  {
    var sent := sys.Get(Other(r)).log;
    forall i: nat | i < |sys.Get(r).accepted| && sent[i].Sent? ensures sent[i].payload.box.plaintext.seqNo == i + 1 {
      assert StaticSlot(root, Other(r), Own(Other(r), a, b), sent[i], i);
    }
  }
}
