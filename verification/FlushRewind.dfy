/** Sequence numbers of receipts. A fetch that reads its contact after the flush of queued
    receipts spends each number once; one that reads it before can spend numbers twice. */
module FlushRewind {
  import opened Crypto
  import opened Message
  import opened Fetch
  import opened Log
  import opened TwoParty
  import Draining
  import Hearing
  import R = Ratchet
  import Runs
  import S = Session
  import Stalls

  // Retry the queued receipts, one after the other. The contact in memory is not read again.
  function Flush(m: Mail, ids: seq<MessageId>, env: Env): Mail
    decreases |ids|
  {
    if m.halted || ids == [] then m else Flush(SendDeliveryReceipt(m, ids[0], env), ids[1..], env)
  }

  // The saved counter is ahead of the numbers handed over since m, which are consecutive.
  ghost predicate Counted(m: Mail, n: Mail) {
    && m.handed <= n.handed
    && n.disk.contact.nextSendSeq == m.disk.contact.nextSendSeq + (|n.handed| - |m.handed|)
    && forall j: nat | |m.handed| <= j < |n.handed| ::
         n.handed[j].box.plaintext.seqNo == m.disk.contact.nextSendSeq + (j - |m.handed|)
  }

  lemma CountedThen(m: Mail, n: Mail, o: Mail)
    requires Counted(m, n) && Counted(n, o)
    ensures Counted(m, o)
  {
    forall j: nat | |m.handed| <= j < |o.handed| ensures
      o.handed[j].box.plaintext.seqNo == m.disk.contact.nextSendSeq + (j - |m.handed|)
    {
      assert j < |n.handed| ==> o.handed[j] == n.handed[j];
    }
  }

  lemma ReceiptIsCounted(m: Mail, id: MessageId, env: Env)
    ensures var n := SendDeliveryReceipt(m, id, env);
            Counted(m, n) && n.contact == m.contact && n.got == m.got
  {
  }

  lemma {:induction false} FlushIsCounted(m: Mail, ids: seq<MessageId>, env: Env)
    ensures var f := Flush(m, ids, env); Counted(m, f) && f.contact == m.contact && f.got == m.got
    decreases |ids|
  {
    if !m.halted && ids != [] {
      ReceiptIsCounted(m, ids[0], env);
      FlushIsCounted(SendDeliveryReceipt(m, ids[0], env), ids[1..], env);
      CountedThen(m, SendDeliveryReceipt(m, ids[0], env), Flush(m, ids, env));
    }
  }

  // ---------- when a flush hands nothing over ----------

  // The session is due for rekeying, or has no chain to send on.
  predicate CannotSeal(c: S.Contact, now: int) {
    S.NeedsRekey(c, now) || (c.ratchet.pendingPeer.None? && c.ratchet.sendChain.None?)
  }

  lemma SealFails(c: S.Contact, d: S.Draft, now: int, k: KeyId)
    ensures S.EncryptReceipt(c, d, now, k).Failure? <==> CannotSeal(c, now)
  {
  }

  // The next n receipts tried are refused by every relay.
  predicate AllRefused(tried: nat, n: nat, refused: set<nat>)
    decreases n
  {
    n == 0 || (tried in refused && AllRefused(tried + 1, n - 1, refused))
  }

  // What can be seen beforehand: none can be sealed, or all that are queued will be refused, if
  // there are any.
  predicate HandsNothing(m: Mail, ids: seq<MessageId>, env: Env) {
    CannotSeal(m.disk.contact, env.now) || AllRefused(m.tried, |ids|, env.refused)
  }

  lemma RefusedFirst(m: Mail, id: MessageId, env: Env)
    requires !m.halted
    ensures var n := SendDeliveryReceipt(m, id, env);
            && (n.handed == m.handed <==> CannotSeal(m.disk.contact, env.now) || m.tried in env.refused)
            && (n.halted <==> CannotSeal(m.disk.contact, env.now))
            && (!n.halted && m.tried in env.refused ==> n.disk.contact == m.disk.contact && n.tried == m.tried + 1)
  {
    SealFails(m.disk.contact, ReceiptDraft(id, env), env.now, m.key);
  }

  lemma {:induction false} FlushHandsNothing(m: Mail, ids: seq<MessageId>, env: Env)
    requires !m.halted
    ensures Flush(m, ids, env).handed == m.handed <==> HandsNothing(m, ids, env)
    decreases |ids|
  {
    if ids != [] {
      var n := SendDeliveryReceipt(m, ids[0], env);
      RefusedFirst(m, ids[0], env);
      ReceiptIsCounted(m, ids[0], env);
      FlushIsCounted(n, ids[1..], env);
      if !n.halted && m.tried in env.refused {
        FlushHandsNothing(n, ids[1..], env);
      }
    }
  }

  // ---------- what a drain makes of the counter in memory ----------

  // Numbered from the counter in memory once anything is accepted; untouched before.
  ghost predicate Numbered(m: Mail, n: Mail) {
    var s := m.contact.nextSendSeq;
    || (n.got == m.got && n.disk == m.disk && n.handed == m.handed && n.contact.nextSendSeq == s)
    || (&& |n.got| > |m.got| && m.handed <= n.handed
        && n.disk.contact.nextSendSeq == n.contact.nextSendSeq == s + (|n.handed| - |m.handed|)
        && forall j: nat | |m.handed| <= j < |n.handed| :: n.handed[j].box.plaintext.seqNo == s + (j - |m.handed|))
  }

  lemma NumberedThen(m: Mail, n: Mail, o: Mail)
    requires Numbered(m, n) && Numbered(n, o)
    ensures Numbered(m, o)
  {
    if n.got != m.got && o.got != n.got {
      forall j: nat | |m.handed| <= j < |o.handed| ensures
        o.handed[j].box.plaintext.seqNo == m.contact.nextSendSeq + (j - |m.handed|)
      {
        assert j < |n.handed| ==> o.handed[j] == n.handed[j];
      }
    }
  }

  lemma InboundKeepsCounter(c: S.Contact, blob: Blob, now: int, k: KeyId)
    requires S.DecryptInbound(c, blob, now, k).Success?
    ensures S.DecryptInbound(c, blob, now, k).value.0.nextSendSeq == c.nextSendSeq
  {
  }

  lemma SettleIsNumbered(m: Mail, c: S.Contact, inner: InnerMessage, p: Payload, env: Env)
    requires c.nextSendSeq == m.contact.nextSendSeq
    ensures Numbered(m, Settle(Got(m, inner), c, inner, p, env))
  {
    if inner.kind.Text? {
      ReceiptIsCounted(StoreText(Got(m, inner), c, inner, p, env), MessageId(p), env);
    }
  }

  lemma TakeIsNumbered(m: Mail, blob: Blob, env: Env)
    ensures Numbered(m, Take(m, blob, env).0)
  {
    if S.DecryptInbound(m.contact, blob, env.now, m.key).Success? {
      var (c, inner) := S.DecryptInbound(m.contact, blob, env.now, m.key).value;
      InboundKeepsCounter(m.contact, blob, env.now, m.key);
      SettleIsNumbered(m, c, inner, blob.payload, env);
    }
  }

  lemma {:induction false} PassIsNumbered(m: Mail, pending: seq<Blob>, env: Env)
    ensures Numbered(m, Pass(m, pending, env).mail)
    decreases |pending|
  {
    if !m.halted && pending != [] {
      var n := Take(m, pending[0], env).0;
      TakeIsNumbered(m, pending[0], env);
      PassIsNumbered(n, pending[1..], env);
      NumberedThen(m, n, Pass(m, pending, env).mail);
    }
  }

  lemma {:induction false} DrainIsNumbered(m: Mail, pending: seq<Blob>, env: Env)
    ensures Numbered(m, Drain(m, pending, env))
    decreases |pending|
  {
    if !m.halted && pending != [] {
      var s := Pass(m, pending, env);
      PassIsNumbered(m, pending, env);
      if s.progressed {
        DrainIsNumbered(s.mail, s.still, env);
        NumberedThen(m, s.mail, Drain(m, pending, env));
      }
    }
  }

  // A whole drain on a contact just read, over any queue, spends each number once and none in vain.
  lemma DrainIsCounted(m: Mail, queue: seq<Blob>, env: Env)
    requires m.contact == m.disk.contact
    ensures Counted(m, Drain(m, queue, env))
  {
    DrainIsNumbered(m, queue, env);
  }

  // ---------- the order the code takes ----------

  // The contact is read, the queued receipts are flushed, and then blobs are tried on the contact
  // read before.
  function FlushThenDrain(m: Mail, ids: seq<MessageId>, queue: seq<Blob>, env: Env): Mail {
    Drain(Flush(m, ids, env), queue, env)
  }

  lemma RewoundIff(m: Mail, f: Mail, n: Mail)
    requires m.contact == m.disk.contact && Counted(m, f) && f.contact == m.contact && f.got == m.got
    requires Numbered(f, n)
    ensures Counted(m, n) <==> n.got == m.got || f.handed == m.handed
    ensures n.got != m.got ==> f.handed <= n.handed
                               && n.disk.contact.nextSendSeq == m.disk.contact.nextSendSeq + (|n.handed| - |f.handed|)
  {
  }

  // The counter is ahead of the numbers handed over if and only if nothing was accepted or the
  // flush had nothing to hand over. Else it is set back by exactly the receipts flushed.
  lemma FlushRewinds(m: Mail, ids: seq<MessageId>, queue: seq<Blob>, env: Env)
    requires m.contact == m.disk.contact && !m.halted
    ensures var f, n := Flush(m, ids, env), FlushThenDrain(m, ids, queue, env);
            && (Counted(m, n) <==> n.got == m.got || HandsNothing(m, ids, env))
            && (n.got != m.got ==>
                  && f.handed <= n.handed
                  && n.disk.contact.nextSendSeq == m.disk.contact.nextSendSeq + (|n.handed| - |f.handed|))
  {
    var f := Flush(m, ids, env);
    FlushIsCounted(m, ids, env);
    FlushHandsNothing(m, ids, env);
    DrainIsNumbered(f, queue, env);
    RewoundIff(m, f, Drain(f, queue, env));
  }

  // ---------- when a drain accepts anything ----------

  lemma {:induction false} PassGets(m: Mail, pending: seq<Blob>, env: Env)
    ensures var s := Pass(m, pending, env);
            |s.mail.got| >= |m.got| && (if s.progressed then |s.mail.got| > |m.got| else s.mail.got == m.got)
    decreases |pending|
  {
    if !m.halted && pending != [] {
      TakeGets(m, pending[0], env);
      PassGets(Take(m, pending[0], env).0, pending[1..], env);
    }
  }

  lemma TakeGets(m: Mail, blob: Blob, env: Env)
    ensures var (n, outcome) := Take(m, blob, env);
            if outcome == Accepted then |n.got| == |m.got| + 1 else n.got == m.got && n.halted == m.halted
  {
    if S.DecryptInbound(m.contact, blob, env.now, m.key).Success? {
      var (c, inner) := S.DecryptInbound(m.contact, blob, env.now, m.key).value;
      SettleGets(Got(m, inner), c, inner, blob.payload, env);
    }
  }

  lemma SettleGets(m: Mail, c: S.Contact, inner: InnerMessage, p: Payload, env: Env)
    ensures Settle(m, c, inner, p, env).got == m.got
  {
  }

  lemma {:induction false} DrainGets(m: Mail, pending: seq<Blob>, env: Env)
    ensures |Drain(m, pending, env).got| >= |m.got|
    ensures Drain(m, pending, env).got == m.got <==> !Pass(m, pending, env).progressed
    decreases |pending|
  {
    if !m.halted && pending != [] {
      var s := Pass(m, pending, env);
      PassGets(m, pending, env);
      if s.progressed {
        DrainGets(s.mail, s.still, env);
      }
    }
  }

  // Until something is accepted a pass looks at the contact in memory alone.
  lemma {:induction false} SameProgress(a: Mail, b: Mail, pending: seq<Blob>, env: Env)
    requires a.contact == b.contact && a.key == b.key && !a.halted && !b.halted
    ensures Pass(a, pending, env).progressed == Pass(b, pending, env).progressed
    decreases |pending|
  {
    if pending != [] {
      var x, y := Take(a, pending[0], env), Take(b, pending[0], env);
      assert x.1 == y.1;
      if x.1 != Accepted {
        TakeGets(a, pending[0], env);
        TakeGets(b, pending[0], env);
        SameProgress(x.0, y.0, pending[1..], env);
      }
    }
  }

  // With room for the next message, and the contact read before, the drain accepts anything exactly
  // when that message can be taken.
  lemma AcceptsIff(sys: System, r: Role, m: Mail, queue: seq<Blob>, env: Env)
    requires Draining.Drainable(sys, r, m, queue, sys.Get(r).contact.lastRecvSeq + 1) && !m.halted
    ensures Drain(m, queue, env).got == m.got <==>
            !Draining.Takeable(sys.Get(Other(r)).log, sys.Get(r).contact.lastRecvSeq, queue, env.now)
  {
    var log, k, n := sys.Get(Other(r)).log, sys.Get(r).contact.lastRecvSeq, Drain(m, queue, env);
    var next := Draining.DrainCollects(sys, r, m, queue, queue, queue, env, k + 1);
    GatheredNone(log, k, m.got, next.Get(r).contact.lastRecvSeq, n.got, queue, env.now);
    if next.Get(r).contact.lastRecvSeq == k {
      NotHalted(sys, r, m, next, n, env);
    }
  }

  lemma GatheredNone(log: seq<Slot>, k: nat, got: seq<InnerMessage>, l: nat, more: seq<InnerMessage>,
                     queue: seq<Blob>, now: int)
    requires Draining.Gathered(log, k, got, l, more, queue, now)
    ensures more == got <==> l == k
    ensures l > k ==> Draining.Takeable(log, k, queue, now)
  {
    if l > k {
      assert Draining.Takeable(log, l - 1, queue, now);
      assert |Draining.Texts(log, k, l)| > 0;
    } else {
      assert got + Draining.Texts(log, k, l) == got;
    }
  }

  lemma NotHalted(sys: System, r: Role, m: Mail, next: System, n: Mail, env: Env)
    requires Draining.OnCourse(sys, r, m, next, n, env) && !m.halted
    requires next.Get(r).contact.lastRecvSeq == sys.Get(r).contact.lastRecvSeq
    ensures !n.halted
  {
    var k := sys.Get(r).contact.lastRecvSeq;
    assert Draining.Stop(next, r, n, k, env) == Draining.Stop(sys, r, m, k, env);
  }

  // ---------- when a flush ends the fetch ----------

  // Some receipt of the next n cannot be sealed: each that is not refused spends a number.
  predicate FlushEnds(c: S.Contact, tried: nat, n: nat, env: Env)
    decreases n
  {
    n > 0 && (CannotSeal(c, env.now)
              || FlushEnds(if tried in env.refused then c else c.(nextSendSeq := c.nextSendSeq + 1), tried + 1, n - 1,
                           env))
  }

  lemma OneFlushed(m: Mail, id: MessageId, env: Env)
    requires !m.halted
    ensures var n := SendDeliveryReceipt(m, id, env);
            && n.key >= m.key && (n.halted <==> CannotSeal(m.disk.contact, env.now))
            && (!n.halted ==>
                  && n.tried == m.tried + 1
                  && n.disk.contact == if m.tried in env.refused then m.disk.contact
                                       else m.disk.contact.(nextSendSeq := m.disk.contact.nextSendSeq + 1))
  {
    SealFails(m.disk.contact, ReceiptDraft(id, env), env.now, m.key);
  }

  lemma {:induction false} FlushEndsIff(m: Mail, ids: seq<MessageId>, env: Env)
    requires !m.halted
    ensures Flush(m, ids, env).halted <==> FlushEnds(m.disk.contact, m.tried, |ids|, env)
    ensures Flush(m, ids, env).key >= m.key
    decreases |ids|
  {
    if ids != [] {
      OneFlushed(m, ids[0], env);
      var n := SendDeliveryReceipt(m, ids[0], env);
      if !n.halted {
        FlushEndsIff(n, ids[1..], env);
      }
    }
  }

  // What the flush has done to the disk does not matter to whether anything is accepted.
  lemma FlushedAcceptsIff(sys: System, r: Role, m: Mail, f: Mail, queue: seq<Blob>, env: Env)
    requires Draining.Drainable(sys, r, m, queue, sys.Get(r).contact.lastRecvSeq + 1) && !m.halted && !f.halted
    requires f.contact == m.contact && f.key >= m.key
    ensures Drain(f, queue, env).got == f.got <==>
            !Draining.Takeable(sys.Get(Other(r)).log, sys.Get(r).contact.lastRecvSeq, queue, env.now)
  {
    var b := m.(key := f.key);
    assert Hearing.Synced(sys, r, b) && Hearing.BothRoomy(sys, r, b, queue, sys.Get(r).contact.lastRecvSeq + 1);
    AcceptsIff(sys, r, b, queue, env);
    SameProgress(f, b, queue, env);
    DrainGets(f, queue, env);
    DrainGets(b, queue, env);
  }

  // So, with room for the next message, all that decides it is known before the fetch: the counter
  // is ahead of the numbers handed over if and only if the flush has nothing to hand over, or cannot
  // seal a receipt and ends the fetch, or the next message is not there to be taken.
  lemma FlushRewindsUnless(sys: System, r: Role, m: Mail, ids: seq<MessageId>, queue: seq<Blob>, env: Env)
    requires Draining.Drainable(sys, r, m, queue, sys.Get(r).contact.lastRecvSeq + 1)
    requires m.contact == m.disk.contact && !m.halted
    ensures Counted(m, FlushThenDrain(m, ids, queue, env)) <==>
            || HandsNothing(m, ids, env) || FlushEnds(m.disk.contact, m.tried, |ids|, env)
            || !Draining.Takeable(sys.Get(Other(r)).log, sys.Get(r).contact.lastRecvSeq, queue, env.now)
  {
    var f := Flush(m, ids, env);
    FlushRewinds(m, ids, queue, env);
    FlushIsCounted(m, ids, env);
    FlushEndsIff(m, ids, env);
    if !f.halted {
      FlushedAcceptsIff(sys, r, m, f, queue, env);
    }
  }

  // ---------- numbers spent twice ----------

  lemma SealedNumber(c: S.Contact, d: S.Draft, now: int, k: KeyId)
    requires S.Encrypt(c, d, now, k).Success?
    ensures S.Encrypt(c, d, now, k).value.1.box.plaintext.seqNo == c.nextSendSeq
  {
  }

  // Then a number is spent twice: by the first receipt of the drain, or, if it sent none, by
  // whatever is sealed next from the saved contact. The first flushed receipt has it too.
  lemma RewoundNumberIsReused(m: Mail, ids: seq<MessageId>, queue: seq<Blob>, env: Env, d: S.Draft, now: int, k: KeyId)
    requires m.contact == m.disk.contact && !m.halted && FlushThenDrain(m, ids, queue, env).got != m.got
    requires !HandsNothing(m, ids, env)
    ensures var f, n := Flush(m, ids, env), FlushThenDrain(m, ids, queue, env);
            && |m.handed| < |f.handed| <= |n.handed|
            && (|n.handed| > |f.handed| ==>
                  n.handed[|f.handed|].box.plaintext.seqNo == n.handed[|m.handed|].box.plaintext.seqNo)
            && (|n.handed| == |f.handed| && S.Encrypt(n.disk.contact, d, now, k).Success? ==>
                  S.Encrypt(n.disk.contact, d, now, k).value.1.box.plaintext.seqNo ==
                    n.handed[|m.handed|].box.plaintext.seqNo)
  {
    var f, n := Flush(m, ids, env), FlushThenDrain(m, ids, queue, env);
    FlushIsCounted(m, ids, env);
    FlushHandsNothing(m, ids, env);
    DrainIsNumbered(f, queue, env);
    assert n.handed[|m.handed|] == f.handed[|m.handed|];
    if S.Encrypt(n.disk.contact, d, now, k).Success? {
      SealedNumber(n.disk.contact, d, now, k);
    }
  }

  // ---------- what the peer makes of a number spent twice ----------

  lemma StepKeepsPosition(sys: System, step: Step, r: Role)
    ensures Apply(sys, step).Get(r).contact.lastRecvSeq >= sys.Get(r).contact.lastRecvSeq
  {
    if step.Receive? && step.role == r {
      ReceiveKeepsPosition(sys, r, step.blob, step.now, step.newKey);
    } else {
      Stalls.OthersKeepPosition(sys, step, r);
    }
  }

  lemma ReceiveKeepsPosition(sys: System, r: Role, blob: Blob, now: int, k: KeyId)
    ensures Apply(sys, Receive(r, blob, now, k)).Get(r).contact.lastRecvSeq >= sys.Get(r).contact.lastRecvSeq
  {
    if S.DecryptInbound(sys.Get(r).contact, blob, now, k).Failure? {
      Stalls.RejectedStays(sys, r, blob, now, k);
    } else {
      InboundIsNext(sys.Get(r).contact, blob, now, k);
      AcceptingMovesPosition(sys, r, blob, now, k);
    }
  }

  lemma InboundIsNext(c: S.Contact, blob: Blob, now: int, k: KeyId)
    requires S.DecryptInbound(c, blob, now, k).Success?
    ensures blob.Framed? && blob.payload.box.plaintext.seqNo == c.lastRecvSeq + 1
  {
  }

  // Whatever happens, and whatever is presented, no side's position ever falls.
  lemma {:induction false} PositionNeverFalls(sys: System, steps: seq<Step>, r: Role)
    ensures Runs.After(sys, steps).Get(r).contact.lastRecvSeq >= sys.Get(r).contact.lastRecvSeq
    decreases |steps|
  {
    if steps != [] {
      StepKeepsPosition(sys, steps[0], r);
      PositionNeverFalls(Apply(sys, steps[0]), steps[1..], r);
    }
  }

  lemma BehindIsRefused(c: S.Contact, p: Payload, now: int, k: KeyId)
    requires p.box.plaintext.seqNo <= c.lastRecvSeq
    ensures S.DecryptInbound(c, Framed(p), now, k).Failure?
  {
    if R.Decrypt(c.ratchet, Framed(p), k).Success? {
      assert R.Decrypt(c.ratchet, Framed(p), k).value.1 == p.box.plaintext;
    }
  }

  lemma AcceptingMovesPosition(sys: System, r: Role, blob: Blob, now: int, k: KeyId)
    requires S.DecryptInbound(sys.Get(r).contact, blob, now, k).Success?
    ensures blob.Framed? && Apply(sys, Receive(r, blob, now, k)).Get(r).contact.lastRecvSeq ==
              blob.payload.box.plaintext.seqNo
  {
  }

  // Once a side has accepted a message, nothing sealed under its number or a lower one is ever
  // accepted, in any state the two are in and whatever steps follow.
  lemma SpentNumberIsRefused(sys: System, r: Role, first: Payload, at: int, k: KeyId, steps: seq<Step>,
                             second: Payload, now: int, newKey: KeyId)
    requires S.DecryptInbound(sys.Get(r).contact, Framed(first), at, k).Success?
    requires second.box.plaintext.seqNo <= first.box.plaintext.seqNo
    ensures var end := Runs.After(Apply(sys, Receive(r, Framed(first), at, k)), steps);
            S.DecryptInbound(end.Get(r).contact, Framed(second), now, newKey).Failure?
  {
    var next := Apply(sys, Receive(r, Framed(first), at, k));
    AcceptingMovesPosition(sys, r, Framed(first), at, k);
    PositionNeverFalls(next, steps, r);
    BehindIsRefused(Runs.After(next, steps).Get(r).contact, second, now, newKey);
  }

  // So when the peer has accepted the first flushed receipt, what is sealed next under its number,
  // a receipt of the drain or any message after it, is lost.
  lemma RewoundMessageIsLost(m: Mail, ids: seq<MessageId>, queue: seq<Blob>, env: Env, d: S.Draft, sealedAt: int,
                             k: KeyId, sys: System, r: Role, at: int, stepKey: KeyId, steps: seq<Step>, now: int,
                             newKey: KeyId)
    requires m.contact == m.disk.contact && !m.halted && FlushThenDrain(m, ids, queue, env).got != m.got
    requires |m.handed| < |Flush(m, ids, env).handed|
    requires var receipt := Flush(m, ids, env).handed[|m.handed|];
             S.DecryptInbound(sys.Get(r).contact, Framed(receipt), at, stepKey).Success?
    ensures var f, n := Flush(m, ids, env), FlushThenDrain(m, ids, queue, env);
            var end := Runs.After(Apply(sys, Receive(r, Framed(f.handed[|m.handed|]), at, stepKey)), steps);
            && (|n.handed| > |f.handed| ==>
                  S.DecryptInbound(end.Get(r).contact, Framed(n.handed[|f.handed|]), now, newKey).Failure?)
            && (|n.handed| == |f.handed| && S.Encrypt(n.disk.contact, d, sealedAt, k).Success? ==>
                  var next := S.Encrypt(n.disk.contact, d, sealedAt, k).value.1;
                  S.DecryptInbound(end.Get(r).contact, Framed(next), now, newKey).Failure?)
  {
    var f, n := Flush(m, ids, env), FlushThenDrain(m, ids, queue, env);
    var receipt := f.handed[|m.handed|];
    FlushHandsNothing(m, ids, env);
    RewoundNumberIsReused(m, ids, queue, env, d, sealedAt, k);
    FlushRewinds(m, ids, queue, env);
    assert n.handed[|m.handed|] == receipt;
    if |n.handed| > |f.handed| {
      SpentNumberIsRefused(sys, r, receipt, at, stepKey, steps, n.handed[|f.handed|], now, newKey);
    } else if S.Encrypt(n.disk.contact, d, sealedAt, k).Success? {
      var next := S.Encrypt(n.disk.contact, d, sealedAt, k).value.1;
      SpentNumberIsRefused(sys, r, receipt, at, stepKey, steps, next, now, newKey);
    }
  }
}
