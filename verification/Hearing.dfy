/** What trying one blob does: to the mail what it does to the two-party history. */
module Hearing {
  import opened Crypto
  import opened Message
  import opened SkippedKeys
  import opened TwoParty
  import opened Acceptance
  import opened Preservation
  import opened Reach
  import opened Fetch
  import R = Ratchet
  import S = Session

  // The saved contact is the side's, and keys from m.key on are unused.
  ghost predicate DiskSynced(sys: System, r: Role, m: Mail) {
    Inv(sys) && m.disk.contact == sys.Get(r).contact && m.key >= sys.nextKey
  }

  // The same contact, but for stored keys that its chain can go on with.
  ghost predicate SavedAs(disk: S.Contact, c: S.Contact) {
    WithTable(disk, c.ratchet.skipped) == c && TableOk(c.ratchet, disk.ratchet.skipped)
  }

  // The contact in memory is the side's, the saved one as good, and keys from m.key on are unused.
  ghost predicate Synced(sys: System, r: Role, m: Mail) {
    Inv(sys) && m.contact == sys.Get(r).contact && SavedAs(m.disk.contact, m.contact) && m.key >= sys.nextKey
  }

  lemma RereadSyncs(sys: System, r: Role, m: Mail)
    requires DiskSynced(sys, r, m)
    ensures Synced(sys, r, Reread(m))
  {
    SeeSide(sys, r);
  }

  // ---------- one receipt ----------

  // A receipt is sealed and handed over, or leaves no trace.
  ghost function Answered(sys: System, r: Role, m: Mail, id: MessageId, env: Env): System {
    if S.EncryptReceipt(m.disk.contact, ReceiptDraft(id, env), env.now, m.key).Success? && m.tried !in env.refused
    then Apply(sys, SendReceipt(r, ReceiptDraft(id, env), env.now, m.key))
    else sys
  }

  // What receiving works on is the same.
  ghost predicate SameReception(a: System, b: System, r: Role) {
    && b.Get(Other(r)) == a.Get(Other(r)) && a.Get(r).log <= b.Get(r).log
    && b.Get(r).contact.ratchet == a.Get(r).contact.ratchet && b.Get(r).epoch == a.Get(r).epoch
    && b.Get(r).contact.lastRecvSeq == a.Get(r).contact.lastRecvSeq && b.Get(r).accepted == a.Get(r).accepted
    && b.schedule == a.schedule
  }

  lemma ReceiptStep(sys: System, r: Role, d: S.Draft, now: int, k: KeyId)
    requires S.EncryptReceipt(sys.Get(r).contact, d, now, k).Success?
    ensures var next := Apply(sys, SendReceipt(r, d, now, k));
            && SameReception(sys, next, r) && next.nextKey <= (if k < sys.nextKey then sys.nextKey else k + 1)
            && next.Get(r).contact == S.EncryptReceipt(sys.Get(r).contact, d, now, k).value.0
  {
  }

  lemma SealFails(sys: System, r: Role, d: S.Draft, now: int, k: KeyId)
    requires Inv(sys) && S.EncryptReceipt(sys.Get(r).contact, d, now, k).Failure?
    ensures SealsLeft(sys.Get(r).contact, now) == Some(0)
  {
    SeeSide(sys, r);
  }

  // Trying a receipt: sealed unless the session is due for rekeying, and then its number is spent
  // unless it is refused.
  ghost predicate ReceiptTried(m: Mail, n: Mail, env: Env) {
    if SealsLeft(m.disk.contact, env.now) == Some(0) then n.halted
    else && n.halted == m.halted && n.tried == m.tried + 1
         && SealsLeft(n.disk.contact, env.now) == SealsAfter(SealsLeft(m.disk.contact, env.now), m.tried in env.refused)
  }

  lemma SendIsTried(m: Mail, id: MessageId, env: Env)
    requires S.EncryptReceipt(m.disk.contact, ReceiptDraft(id, env), env.now, m.key).Failure? ==>
               SealsLeft(m.disk.contact, env.now) == Some(0)
    ensures ReceiptTried(m, SendDeliveryReceipt(m, id, env), env)
  {
  }

  lemma AnswerSyncs(sys: System, r: Role, m: Mail, id: MessageId, env: Env)
    requires DiskSynced(sys, r, m)
    ensures var next, n := Answered(sys, r, m, id, env), SendDeliveryReceipt(m, id, env);
            && DiskSynced(next, r, n) && SameReception(sys, next, r) && n.got == m.got
            && ReceiptTried(m, n, env)
  {
    var d := ReceiptDraft(id, env);
    if S.EncryptReceipt(m.disk.contact, d, env.now, m.key).Failure? {
      SealFails(sys, r, d, env.now, m.key);
    }
    SendIsTried(m, id, env);
    if S.EncryptReceipt(m.disk.contact, d, env.now, m.key).Success? && m.tried !in env.refused {
      NewKeyIsNew(sys, m.key);
      StepKeepsInv(sys, SendReceipt(r, d, env.now, m.key));
      ReceiptStep(sys, r, d, env.now, m.key);
    }
  }

  // ---------- one blob ----------

  ghost function Heard(sys: System, r: Role, m: Mail, blob: Blob, env: Env): System {
    var heard := Apply(sys, Receive(r, blob, env.now, m.key));
    match S.DecryptInbound(m.contact, blob, env.now, m.key)
    case Failure(_) => heard
    case Success(cm) =>
      if cm.1.kind.Text?
      then Answered(heard, r, StoreText(Got(m, cm.1), cm.0, cm.1, blob.payload, env), MessageId(blob.payload), env)
      else heard
  }

  // One more message accepted: the next one.
  ghost predicate MovesOn(a: System, b: System, r: Role)
    requires HasNext(a, r)
  {
    && b.Get(Other(r)) == a.Get(Other(r)) && a.Get(r).log <= b.Get(r).log
    && b.Get(r).contact.lastRecvSeq == a.Get(r).contact.lastRecvSeq + 1
    && b.Get(r).accepted == a.Get(r).accepted + [NextSlot(a, r).payload.box.plaintext]
  }

  // Nothing accepted: at most the stored keys are others.
  ghost predicate Stays(a: System, b: System, r: Role) {
    && b.Get(Other(r)) == a.Get(Other(r)) && b.Get(r).log == a.Get(r).log
    && b.Get(r).contact.lastRecvSeq == a.Get(r).contact.lastRecvSeq && b.Get(r).accepted == a.Get(r).accepted
  }

  lemma ReloadLeaves(sys: System, r: Role, table: map<R.SkipId, MessageKey>)
    ensures var next := Apply(sys, Reload(r, table));
            && next.Get(r).contact == WithTable(sys.Get(r).contact, table) && Stays(sys, next, r)
            && SameChain(sys, next, r)
            && next.nextKey == sys.nextKey
  {
  }

  // Reading the contact again is a step of the history.
  lemma RereadIsReload(sys: System, r: Role, m: Mail)
    requires Synced(sys, r, m)
    ensures var next := Apply(sys, Reload(r, m.disk.contact.ratchet.skipped));
            Synced(next, r, Reread(m)) && Stays(sys, next, r) && SameChain(sys, next, r)
  {
    var table := m.disk.contact.ratchet.skipped;
    ReloadKeeps(sys, r, table);
    ReloadLeaves(sys, r, table);
    RereadSyncs(Apply(sys, Reload(r, table)), r, m);
  }

  lemma ReceiveMovesOn(sys: System, r: Role, blob: Blob, now: int, k: KeyId)
    requires Inv(sys) && Enabled(sys, Receive(r, blob, now, k))
    requires S.DecryptInbound(sys.Get(r).contact, blob, now, k).Success?
    ensures var next := Apply(sys, Receive(r, blob, now, k));
            && HasNext(sys, r) && blob == Framed(NextSlot(sys, r).payload) && MovesOn(sys, next, r) && Inv(next)
            && next.Get(r).contact == S.DecryptInbound(sys.Get(r).contact, blob, now, k).value.0
            && S.DecryptInbound(sys.Get(r).contact, blob, now, k).value.1 == NextSlot(sys, r).payload.box.plaintext
            && next.nextKey <= k + 1
  {
    AcceptsExactlyNext(sys, r, blob, now, k);
    StepKeepsInv(sys, Receive(r, blob, now, k));
    AcceptMovesOn(sys, r, now, k);
    ReceiveLeaves(sys, r, blob, now, k);
  }

  lemma ReceiveLeaves(sys: System, r: Role, blob: Blob, now: int, k: KeyId)
    requires k >= sys.nextKey && S.DecryptInbound(sys.Get(r).contact, blob, now, k).Success?
    ensures var next := Apply(sys, Receive(r, blob, now, k));
            && next.Get(r).contact == S.DecryptInbound(sys.Get(r).contact, blob, now, k).value.0
            && next.Get(r).log == sys.Get(r).log && next.nextKey <= k + 1
  {
  }

  lemma TrialLeaves(sys: System, r: Role, blob: Blob, now: int, k: KeyId)
    requires S.DecryptInbound(sys.Get(r).contact, blob, now, k).Failure?
    ensures var next := Apply(sys, Receive(r, blob, now, k));
            && next.Get(r).contact == S.AfterTrial(sys.Get(r).contact, blob) && Stays(sys, next, r)
            && next.nextKey == sys.nextKey
  {
  }

  lemma TrialKeepsSeals(c: S.Contact, blob: Blob, now: int)
    ensures SealsLeft(S.AfterTrial(c, blob), now) == SealsLeft(c, now)
  {
  }

  lemma TrialTakes(m: Mail, blob: Blob, env: Env)
    requires S.DecryptInbound(m.contact, blob, env.now, m.key).Failure?
    ensures var n := Take(m, blob, env).0;
            && n.contact == S.AfterTrial(m.contact, blob) && n.disk == m.disk && n.key == m.key + 1 && n.got == m.got
            && SameAnswers(m, n, env)
  {
    TrialKeepsSeals(m.contact, blob, env.now);
  }

  lemma TrialSyncs(sys: System, r: Role, m: Mail, blob: Blob, env: Env)
    requires Synced(sys, r, m) && Presentable(sys, blob) && S.DecryptInbound(m.contact, blob, env.now, m.key).Failure?
    ensures Matches(sys, r, m, Heard(sys, r, m, blob, env), Take(m, blob, env).0, false, env)
  {
    StepKeepsInv(sys, Receive(r, blob, env.now, m.key));
    TrialLeaves(sys, r, blob, env.now, m.key);
    TrialTakes(m, blob, env);
  }

  lemma MovesOnThen(a: System, b: System, c: System, r: Role)
    requires HasNext(a, r) && MovesOn(a, b, r) && SameReception(b, c, r)
    ensures MovesOn(a, c, r)
  {
  }

  // Storing the text that was heard, and answering it.
  lemma TextSyncs(sys: System, heard: System, r: Role, m: Mail, c: S.Contact, p: Payload, env: Env)
    requires SealsLeft(c, env.now) == SealsLeft(m.contact, env.now)
    requires HasNext(sys, r) && MovesOn(sys, heard, r) && Inv(heard) && heard.Get(r).contact == c
             && heard.nextKey <= m.key + 1
    requires NextSlot(sys, r).payload.box.plaintext.kind.Text?
    ensures var inner := NextSlot(sys, r).payload.box.plaintext;
            var next := Answered(heard, r, StoreText(Got(m, inner), c, inner, p, env), MessageId(p), env);
            Matches(sys, r, m, next, Settle(Got(m, inner), c, inner, p, env), true, env)
            && SameReception(heard, next, r)
  {
    var inner := NextSlot(sys, r).payload.box.plaintext;
    var stored := StoreText(Got(m, inner), c, inner, p, env);
    var next := Answered(heard, r, stored, MessageId(p), env);
    AnswerSyncs(heard, r, stored, MessageId(p), env);
    RereadSyncs(next, r, SendDeliveryReceipt(stored, MessageId(p), env));
    MovesOnThen(sys, heard, next, r);
  }

  // Saving anything else.
  lemma OtherSyncs(sys: System, heard: System, r: Role, m: Mail, c: S.Contact, p: Payload, env: Env)
    requires SealsLeft(c, env.now) == SealsLeft(m.contact, env.now)
    requires HasNext(sys, r) && MovesOn(sys, heard, r) && Inv(heard) && heard.Get(r).contact == c
             && heard.nextKey <= m.key + 1
    requires !NextSlot(sys, r).payload.box.plaintext.kind.Text?
    ensures var inner := NextSlot(sys, r).payload.box.plaintext;
            Matches(sys, r, m, heard, Settle(Got(m, inner), c, inner, p, env), true, env)
  {
    var inner := NextSlot(sys, r).payload.box.plaintext;
    var n := Settle(Got(m, inner), c, inner, p, env);
    RereadSyncs(heard, r, n);
    assert Reread(n) == n;
  }

  // What one blob does to the mail it does to the history; it is accepted exactly when it is
  // the acceptable one.
  ghost predicate Matches(sys: System, r: Role, m: Mail, next: System, n: Mail, accepted: bool, env: Env) {
    && Synced(next, r, n)
    && (accepted ==>
          && HasNext(sys, r) && MovesOn(sys, next, r) && Answers(m, n, NextSlot(sys, r).payload.box.plaintext.kind, env)
          && n.got == m.got + [NextSlot(sys, r).payload.box.plaintext] && n.contact == n.disk.contact)
    && (!accepted ==> Stays(sys, next, r) && n.got == m.got && SameAnswers(m, n, env) && n.disk == m.disk)
  }

  // What answering comes to is as before.
  ghost predicate SameAnswers(m: Mail, n: Mail, env: Env) {
    n.halted == m.halted && n.tried == m.tried && SealsLeft(n.contact, env.now) == SealsLeft(m.contact, env.now)
  }

  // An accepted text is answered if the session will still seal a receipt, and else ends the fetch.
  ghost predicate Answers(m: Mail, n: Mail, kind: Kind, env: Env) {
    if !kind.Text? then SameAnswers(m, n, env)
    else if SealsLeft(m.contact, env.now) == Some(0) then n.halted
    else && n.halted == m.halted && n.tried == m.tried + 1
         && SealsLeft(n.contact, env.now) == SealsAfter(SealsLeft(m.contact, env.now), m.tried in env.refused)
  }

  lemma InboundKeepsSeals(c: S.Contact, blob: Blob, now: int, k: KeyId)
    requires S.DecryptInbound(c, blob, now, k).Success?
    ensures SealsLeft(S.DecryptInbound(c, blob, now, k).value.0, now) == SealsLeft(c, now)
  {
  }

  lemma AcceptedSyncs(sys: System, r: Role, m: Mail, blob: Blob, env: Env)
    requires Synced(sys, r, m) && Presentable(sys, blob) && S.DecryptInbound(m.contact, blob, env.now, m.key).Success?
    ensures Matches(sys, r, m, Heard(sys, r, m, blob, env), Take(m, blob, env).0, true, env)
    ensures SameReception(Apply(sys, Receive(r, blob, env.now, m.key)), Heard(sys, r, m, blob, env), r)
  {
    var (c, inner) := S.DecryptInbound(m.contact, blob, env.now, m.key).value;
    var heard := Apply(sys, Receive(r, blob, env.now, m.key));
    ReceiveMovesOn(sys, r, blob, env.now, m.key);
    InboundKeepsSeals(m.contact, blob, env.now, m.key);
    if inner.kind.Text? {
      TextSyncs(sys, heard, r, m, c, blob.payload, env);
    } else {
      OtherSyncs(sys, heard, r, m, c, blob.payload, env);
    }
  }

  lemma TakeHears(sys: System, r: Role, m: Mail, blob: Blob, env: Env)
    requires Synced(sys, r, m) && Presentable(sys, blob)
    ensures Take(m, blob, env).1 == Accepted <==> Acceptable(sys, r, blob, env.now)
    ensures Matches(sys, r, m, Heard(sys, r, m, blob, env), Take(m, blob, env).0, Take(m, blob, env).1 == Accepted, env)
  {
    AcceptsExactlyNext(sys, r, blob, env.now, m.key);
    if S.DecryptInbound(m.contact, blob, env.now, m.key).Success? {
      AcceptedSyncs(sys, r, m, blob, env);
    } else {
      TrialSyncs(sys, r, m, blob, env);
    }
  }

  // ---------- room for the rest of the queue ----------

  // With the stored keys in memory, and with those on disk.
  ghost predicate BothRoomy(sys: System, r: Role, m: Mail, queue: seq<Blob>, end: nat) {
    Roomy(sys, r, m.contact.ratchet.skipped, queue, end) && Roomy(sys, r, m.disk.contact.ratchet.skipped, queue, end)
  }

  lemma TrialKeepsBoth(sys: System, r: Role, m: Mail, blob: Blob, env: Env, queue: seq<Blob>, end: nat)
    requires Synced(sys, r, m) && blob in queue && BothRoomy(sys, r, m, queue, end)
    requires S.DecryptInbound(m.contact, blob, env.now, m.key).Failure?
    ensures BothRoomy(Heard(sys, r, m, blob, env), r, Take(m, blob, env).0, queue, end)
  {
    RejectKeepsRoom(sys, r, blob, env.now, m.key, queue, end);
    TrialLeaves(sys, r, blob, env.now, m.key);
    SameChainRoomy(sys, Heard(sys, r, m, blob, env), r, m.disk.contact.ratchet.skipped, queue, end);
  }

  lemma AcceptKeepsBoth(sys: System, r: Role, m: Mail, blob: Blob, env: Env, queue: seq<Blob>, end: nat)
    requires Synced(sys, r, m) && Presentable(sys, blob) && blob in queue && BothRoomy(sys, r, m, queue, end)
    requires S.DecryptInbound(m.contact, blob, env.now, m.key).Success?
    ensures BothRoomy(Heard(sys, r, m, blob, env), r, Take(m, blob, env).0, queue, end)
  {
    var heard := Apply(sys, Receive(r, blob, env.now, m.key));
    ReceiveMovesOn(sys, r, blob, env.now, m.key);
    AcceptKeepsRoom(sys, r, env.now, m.key, queue, end);
    AcceptedSyncs(sys, r, m, blob, env);
    SameChainRoomy(heard, Heard(sys, r, m, blob, env), r, heard.Get(r).contact.ratchet.skipped, queue, end);
  }

  lemma TakeKeepsBoth(sys: System, r: Role, m: Mail, blob: Blob, env: Env, queue: seq<Blob>, end: nat)
    requires Synced(sys, r, m) && Presentable(sys, blob) && blob in queue && BothRoomy(sys, r, m, queue, end)
    ensures BothRoomy(Heard(sys, r, m, blob, env), r, Take(m, blob, env).0, queue, end)
  {
    if S.DecryptInbound(m.contact, blob, env.now, m.key).Success? {
      AcceptKeepsBoth(sys, r, m, blob, env, queue, end);
    } else {
      TrialKeepsBoth(sys, r, m, blob, env, queue, end);
    }
  }
}
