/** The delivery receipts that a fetch writes: what each says, how long it is good for, and what the
    sender of the text does with it. */
module Receipts {
  import opened Crypto
  import opened Message
  import opened Log
  import opened TwoParty
  import opened Acceptance
  import opened LocalStore
  import opened Fetch
  import Gate
  import S = Session

  // ---------- what a fetch hands over ----------

  // Written now by this device, good for a day from now, and about a payload of the queue.
  ghost predicate Answers(p: Payload, queue: seq<Blob>, env: Env) {
    var m := p.box.plaintext;
    && m.createdAt == env.now && m.validUntil == env.now + 24 * 60 * 60 * 1000 && m.device == env.device
    && exists b :: b in queue && b.Framed? && m.kind == Receipt(MessageId(b.payload))
  }

  // All that was handed over since m.
  ghost predicate AllAnswer(m: Mail, n: Mail, queue: seq<Blob>, env: Env) {
    m.handed <= n.handed && forall j | |m.handed| <= j < |n.handed| :: Answers(n.handed[j], queue, env)
  }

  lemma AnswersThen(m: Mail, n: Mail, o: Mail, queue: seq<Blob>, env: Env)
    requires AllAnswer(m, n, queue, env) && AllAnswer(n, o, queue, env)
    ensures AllAnswer(m, o, queue, env)
  {
    forall j | |m.handed| <= j < |o.handed| ensures Answers(o.handed[j], queue, env) {
      if j < |n.handed| {
        assert o.handed[j] == n.handed[j];
      }
    }
  }

  lemma AnswersMore(m: Mail, n: Mail, queue: seq<Blob>, more: seq<Blob>, env: Env)
    requires AllAnswer(m, n, queue, env) && Among(queue, more)
    ensures AllAnswer(m, n, more, env)
  {
    forall j | |m.handed| <= j < |n.handed| ensures Answers(n.handed[j], more, env) {
      assert Answers(n.handed[j], queue, env);
    }
  }

  // Trying one receipt: handed over, with its number spent and its debt paid, or given back and
  // owed, or not sealed at all.
  lemma OneReceipt(m: Mail, id: MessageId, env: Env)
    ensures var n := SendDeliveryReceipt(m, id, env);
            && n.got == m.got && n.contact == m.contact && n.disk.inbound == m.disk.inbound
            && n.disk.outbound == m.disk.outbound
            && (n.halted ==> m.halted || n == m.(halted := true))
            && (n.handed == m.handed && !n.halted ==>
                  m.tried in env.refused && n.disk == m.disk.(receipts := m.disk.receipts + {id}))
            && (n.handed != m.handed ==>
                  && |n.handed| == |m.handed| + 1 && n.handed[..|m.handed|] == m.handed && m.tried !in env.refused
                  && n.disk.receipts == m.disk.receipts - {id}
                  && n.disk.contact == m.disk.contact.(nextSendSeq := m.disk.contact.nextSendSeq + 1)
                  && var r := n.handed[|m.handed|].box.plaintext;
                     r == InnerMessage(m.disk.contact.conversation, env.device, m.disk.contact.nextSendSeq, env.now,
                                       env.now + 24 * 60 * 60 * 1000, Receipt(id)))
  {
  }

  // An accepted text is stored and answered, an accepted receipt takes the row of its own text away
  // and touches nothing else, and the rest save the contact alone.
  lemma SettledExactly(m: Mail, blob: Blob, env: Env)
    requires S.DecryptInbound(m.contact, blob, env.now, m.key).Success?
    ensures var inner := S.DecryptInbound(m.contact, blob, env.now, m.key).value.1;
            var n := Take(m, blob, env).0;
            && blob.Framed? && Take(m, blob, env).1 == Accepted && n.got == m.got + [inner]
            && match inner.kind
               case Text(_) =>
                 && n.disk.outbound == m.disk.outbound && inner.seqNo in n.disk.inbound
                 && n.disk.inbound == (if inner.seqNo in m.disk.inbound then m.disk.inbound
                                       else m.disk.inbound[inner.seqNo := InboundRow(inner, inner.validUntil, env.now)])
                 && (MessageId(blob.payload) in n.disk.receipts || |n.handed| == |m.handed| + 1)
               case Receipt(id) =>
                 && id !in n.disk.outbound && n.disk.outbound == m.disk.outbound - {id}
                 && n.disk.inbound == m.disk.inbound && n.disk.receipts == m.disk.receipts && n.handed == m.handed
               case _ =>
                 && n.disk.outbound == m.disk.outbound && n.disk.inbound == m.disk.inbound
                 && n.disk.receipts == m.disk.receipts && n.handed == m.handed
  {
    var (c, inner) := S.DecryptInbound(m.contact, blob, env.now, m.key).value;
    if inner.kind.Text? {
      OneReceipt(StoreText(Got(m, inner), c, inner, blob.payload, env), MessageId(blob.payload), env);
    }
  }

  lemma TakeAnswers(m: Mail, blob: Blob, queue: seq<Blob>, env: Env)
    requires blob in queue
    ensures AllAnswer(m, Take(m, blob, env).0, queue, env)
  {
    if S.DecryptInbound(m.contact, blob, env.now, m.key).Success? {
      var (c, inner) := S.DecryptInbound(m.contact, blob, env.now, m.key).value;
      if inner.kind.Text? {
        OneReceipt(StoreText(Got(m, inner), c, inner, blob.payload, env), MessageId(blob.payload), env);
      } else {
        SettledExactly(m, blob, env);
      }
    }
  }

  lemma {:induction false} PassAnswers(m: Mail, pending: seq<Blob>, queue: seq<Blob>, env: Env)
    requires Among(pending, queue)
    ensures AllAnswer(m, Pass(m, pending, env).mail, queue, env)
    decreases |pending|
  {
    if !m.halted && pending != [] {
      var n := Take(m, pending[0], env).0;
      TakeAnswers(m, pending[0], queue, env);
      PassAnswers(n, pending[1..], queue, env);
      AnswersThen(m, n, Pass(m, pending, env).mail, queue, env);
    }
  }

  // Everything a drain hands over was written at the time of the fetch, is good for a day from then,
  // and answers a payload of the queue.
  lemma {:induction false} DrainAnswers(m: Mail, queue: seq<Blob>, env: Env)
    ensures AllAnswer(m, Drain(m, queue, env), queue, env)
    decreases |queue|
  {
    if !m.halted && queue != [] {
      var s := Pass(m, queue, env);
      PassAnswers(m, queue, queue, env);
      if s.progressed {
        StillAmong(m, queue, env);
        DrainAnswers(s.mail, s.still, env);
        AnswersMore(s.mail, Drain(m, queue, env), s.still, queue, env);
        AnswersThen(m, s.mail, Drain(m, queue, env), queue, env);
      }
    }
  }

  // ---------- what becomes of it ----------

  // The next message, within the limits: accepted as what it says up to its last valid millisecond.
  lemma NextInTime(sys: System, r: Role, now: int, k: KeyId)
    requires Inv(sys) && HasNext(sys, r) && NextBacklog(sys, r) <= 128 && NextHeld(sys, r) <= 256
    ensures var m := NextSlot(sys, r).payload.box.plaintext;
            var res := S.DecryptInbound(sys.Get(r).contact, Framed(NextSlot(sys, r).payload), now, k);
            && (res.Success? <==> now <= m.validUntil) && (res.Success? ==> res.value.1 == m)
  {
    NextIsStamped(sys, r);
    NextOpens(sys, r, k);
    Gate.GateIsExact(sys.Get(r).contact, Framed(NextSlot(sys, r).payload), now, k);
  }

  // A receipt that a drain handed over, once it is the next message its peer has to accept: the peer
  // accepts it at every time up to a day after the fetch, and at none later, and it takes the row of
  // the text it answers out of the peer's outbox, and no other.
  lemma ReceiptIsGoodForADay(sys: System, r: Role, m: Mail, queue: seq<Blob>, env: Env, j: nat, peer: Mail, at: Env)
    requires |m.handed| <= j < |Drain(m, queue, env).handed|
    requires Inv(sys) && HasNext(sys, r) && NextSlot(sys, r).payload == Drain(m, queue, env).handed[j]
    requires NextBacklog(sys, r) <= 128 && NextHeld(sys, r) <= 256 && peer.contact == sys.Get(r).contact
    ensures var p := Drain(m, queue, env).handed[j];
            var (n, outcome) := Take(peer, Framed(p), at);
            && (outcome == Accepted <==> at.now <= env.now + 24 * 60 * 60 * 1000)
            && (outcome == Accepted ==>
                  exists b :: b in queue && b.Framed? && n.got == peer.got + [p.box.plaintext]
                              && n.disk.outbound == peer.disk.outbound - {MessageId(b.payload)})
  {
    var p := Drain(m, queue, env).handed[j];
    DrainAnswers(m, queue, env);
    assert Answers(p, queue, env);
    NextInTime(sys, r, at.now, peer.key);
    if S.DecryptInbound(peer.contact, Framed(p), at.now, peer.key).Success? {
      SettledExactly(peer, Framed(p), at);
    }
  }
}
