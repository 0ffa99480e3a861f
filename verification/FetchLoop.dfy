/** The fetch loop as it runs: the session and the store are updated in place, pass by pass. */
module FetchLoop {
  import opened Crypto
  import opened Message
  import opened RatchetState
  import opened LocalStore
  import opened Fetch
  import O = SessionObject
  import S = Session

  // Seal a receipt and give the ratchet back: only the sequence number is spent.
  method SealReceipt(session: O.Session, id: MessageId, env: Env, key: KeyId) returns (sealed: Option<Payload>)
    modifies session.contact, session.contact.ratchet
    ensures match S.EncryptReceipt(old(session.contact.Value()), ReceiptDraft(id, env), env.now, key)
            case Failure(_) => sealed == None
            case Success(cp) => sealed == Some(cp.1) && session.contact.Value() == cp.0
  {
    var contact := session.contact;
    var snapshot := contact.ratchet.ToDict();
    LoadUndoesSave(contact.ratchet.Value(), contact.ratchet.skippedKeys);
    var receipt := session.Encrypt(ReceiptDraft(id, env), env.now, key);
    if receipt.Failure? {
      return None;
    }
    contact.ratchet := new RatchetState.FromDict(snapshot);
    sealed := Some(receipt.value);
  }

  // Load a contact record of its own from the store, seal, save and hand over; the sequence
  // number is taken back if every relay refuses.
  method SendDeliveryReceipt(store: Store, id: MessageId, env: Env, key: KeyId,
                             refused: bool) returns (handed: Option<seq<Payload>>)
    modifies store
    ensures match TryReceipt(old(store.Value()), id, env, key, refused)
            case None => store.Value() == old(store.Value()) && handed == None
            case Some(done) => store.Value() == done.0 && handed == Some(done.1)
  {
    var contact := new O.ContactRecord.FromStore(store.contact);
    var session := new O.Session(contact);
    var sendSeqBefore := contact.nextSendSeq;
    var receipt := SealReceipt(session, id, env, key);
    if receipt.None? {
      return None;
    }
    var _ := store.AtomicPersistContact(contact.Value(), false);
    if !refused {
      store.DeletePendingReceipt(id);
      return Some([receipt.value]);
    }
    contact.nextSendSeq := sendSeqBefore;
    var _ := store.AtomicPersistContact(contact.Value(), false);
    store.SavePendingReceipt(id);
    return Some([]);
  }

  // The send side of the record in memory, brought up to date after a nested receipt.
  method RefreshSendState(store: Store, contact: O.ContactRecord)
    modifies contact
    ensures fresh(contact.ratchet) && fresh(contact.ratchet.skippedKeys)
    ensures contact.Value() == old(contact.Value()).(nextSendSeq := store.contact.nextSendSeq,
                                                     ratchet := store.contact.ratchet)
  {
    var persisted := new O.ContactRecord.FromStore(store.contact);
    contact.nextSendSeq := persisted.nextSendSeq;
    contact.ratchet := persisted.ratchet;
  }

  // The tables after a message is saved, and what its answer handed over.
  function Saved(disk: Tables, c: S.Contact, inner: InnerMessage, p: Payload, env: Env, key: KeyId, refused: bool)
    : (Tables, Option<seq<Payload>>)
  {
    match inner.kind
    case Text(_) =>
      var stored := CommitReceiveText(disk, c, inner, MessageId(p), env.now);
      (match TryReceipt(stored, MessageId(p), env, key, refused)
       case None => (stored, None)
       case Some(done) => (done.0, Some(done.1)))
    case Receipt(id) => (PersistContact(MarkDelivered(disk, id), c), Some([]))
    case _ => (PersistContact(disk, c), Some([]))
  }

  // The counters of the loop, the receipts handed over and the messages so far.
  datatype Progress = Progress(key: KeyId, tried: nat, handed: seq<Payload>, got: seq<InnerMessage>, halted: bool)

  function MailOf(disk: Tables, contact: S.Contact, p: Progress): Mail {
    Mail(disk, contact, p.key, p.tried, p.handed, p.got, p.halted)
  }

  // After a message was accepted, with the outcome of its receipt; a text spends a second key on it.
  function Advance(p: Progress, inner: InnerMessage, receipt: Option<seq<Payload>>): Progress {
    var answers := if inner.kind.Text? && receipt.Some? then 1 else 0;
    Progress(p.key + 1 + answers, p.tried + answers, if receipt.Some? then p.handed + receipt.value else p.handed,
             p.got + [inner], receipt.None?)
  }

  lemma AnswerIs(m: Mail, id: MessageId, env: Env, refused: bool)
    requires refused == (m.tried in env.refused) && !m.halted
    ensures Fetch.SendDeliveryReceipt(m, id, env) ==
            match TryReceipt(m.disk, id, env, m.key, refused)
            case None => m.(halted := true)
            case Some(done) => m.(disk := done.0, handed := m.handed + done.1, key := m.key + 1, tried := m.tried + 1)
  {
  }

  lemma SettleIs(disk: Tables, before: S.Contact, p: Progress, c: S.Contact, inner: InnerMessage, payload: Payload,
                 env: Env, refused: bool)
    requires refused == (p.tried in env.refused) && !p.halted
    ensures var saved := Saved(disk, c, inner, payload, env, p.key + 1, refused);
            Settle(Got(MailOf(disk, before, p), inner), c, inner, payload, env) ==
            MailOf(saved.0, saved.0.contact, Advance(p, inner, saved.1))
  {
    var m := Got(MailOf(disk, before, p), inner);
    if inner.kind.Text? {
      AnswerIs(StoreText(m, c, inner, payload, env), MessageId(payload), env, refused);
    } else {
      assert p.handed + [] == p.handed;
    }
  }

  lemma TakeIsSettled(m: Mail, blob: Blob, env: Env, c: S.Contact, inner: InnerMessage)
    requires var res := S.DecryptInbound(m.contact, blob, env.now, m.key);
             res.Success? && res.value.0 == c && res.value.1 == inner
    ensures Take(m, blob, env) == (Settle(Got(m, inner), c, inner, blob.payload, env), Accepted)
  {
  }

  lemma TakeIsTurnedAway(m: Mail, blob: Blob, env: Env, error: S.Error)
    requires S.DecryptInbound(m.contact, blob, env.now, m.key) == Failure(error)
    ensures Take(m, blob, env) ==
            (m.(contact := S.AfterTrial(m.contact, blob), key := m.key + 1),
             if error == S.DuplicateSeq then Deferred else Dropped)
  {
  }

  // Save what was decrypted, and answer a text. None if the receipt could not be sealed.
  method SaveAccepted(store: Store, session: O.Session, inner: InnerMessage, p: Payload, env: Env, key: KeyId,
                      refused: bool)
    returns (handed: Option<seq<Payload>>)
    modifies store, session.contact
    ensures session.contact.ratchet == old(session.contact.ratchet) || fresh(session.contact.ratchet)
    ensures session.contact.ratchet.skippedKeys == old(session.contact.ratchet.skippedKeys)
            || fresh(session.contact.ratchet.skippedKeys)
    ensures var saved := Saved(old(store.Value()), old(session.contact.Value()), inner, p, env, key, refused);
            store.Value() == saved.0 && handed == saved.1
    ensures session.contact.Value() == store.contact
  {
    match inner.kind
    case Text(_) =>
      var _ := store.AtomicCommitReceiveText(session.contact.Value(), inner, MessageId(p), env.now, 0);
      handed := SendDeliveryReceipt(store, MessageId(p), env, key, refused);
      if handed.None? {
        return;
      }
      RefreshSendState(store, session.contact);
      var _ := store.AtomicPersistContact(session.contact.Value(), false);
    case Receipt(id) =>
      var _ := store.MarkOutboundDelivered(id);
      var _ := store.AtomicPersistContact(session.contact.Value(), false);
      handed := Some([]);
    case _ =>
      var _ := store.AtomicPersistContact(session.contact.Value(), false);
      handed := Some([]);
  }

  // The pass begun has kept these blobs and got this far, and the rest of it is still to come.
  predicate Continues(pass: Swept, still: seq<Blob>, progressed: bool, rest: Swept) {
    pass.mail == rest.mail && pass.still == still + rest.still && (pass.progressed <==> progressed || rest.progressed)
  }

  lemma PassStep(pass: Swept, still: seq<Blob>, progressed: bool, m: Mail, xs: seq<Blob>, env: Env, n: Mail,
                 outcome: Outcome)
    requires !m.halted && xs != [] && Continues(pass, still, progressed, Pass(m, xs, env))
    requires n == Take(m, xs[0], env).0 && outcome == Take(m, xs[0], env).1
    ensures Continues(pass, if outcome == Deferred then still + [xs[0]] else still,
                      progressed || outcome == Accepted, Pass(n, xs[1..], env))
  {
    var rest, whole := Pass(n, xs[1..], env), Pass(m, xs, env);
    assert whole.mail == rest.mail && (whole.progressed <==> outcome == Accepted || rest.progressed);
    if outcome == Deferred {
      assert whole.still == [xs[0]] + rest.still;
      assert still + ([xs[0]] + rest.still) == (still + [xs[0]]) + rest.still;
    } else {
      assert whole.still == rest.still;
    }
  }

  // What a whole drain comes to, from the pass it has begun.
  function Finished(pass: Swept, env: Env): Mail {
    if pass.progressed then Drain(pass.mail, pass.still, env) else pass.mail
  }

  lemma PassEnds(pass: Swept, still: seq<Blob>, progressed: bool, m: Mail, env: Env)
    requires Continues(pass, still, progressed, Pass(m, [], env))
    ensures pass == Swept(m, still, progressed)
  {
    assert still + [] == still;
  }

  lemma HaltedEnds(pass: Swept, still: seq<Blob>, n: Mail, xs: seq<Blob>, env: Env)
    requires n.halted && Continues(pass, still, true, Pass(n, xs, env))
    ensures Finished(pass, env) == n
  {
  }

  // Try one blob. A text that is accepted spends a second key on its receipt.
  method TakeBlob(store: Store, session: O.Session, blob: Blob, env: Env, p: Progress)
    returns (outcome: Outcome, next: Progress)
    requires !p.halted
    modifies store, session.contact, session.contact.ratchet, session.contact.ratchet.skippedKeys
    ensures session.contact.ratchet == old(session.contact.ratchet) || fresh(session.contact.ratchet)
    ensures session.contact.ratchet.skippedKeys == old(session.contact.ratchet.skippedKeys)
            || fresh(session.contact.ratchet.skippedKeys)
    ensures Take(MailOf(old(store.Value()), old(session.contact.Value()), p), blob, env) ==
            (MailOf(store.Value(), session.contact.Value(), next), outcome)
    ensures next.halted ==> outcome == Accepted
  {
    ghost var m := MailOf(store.Value(), session.contact.Value(), p);
    var plain := session.DecryptInbound(blob, env.now, p.key);
    if plain.Failure? {
      TakeIsTurnedAway(m, blob, env, plain.error);
      return if plain.error == S.DuplicateSeq then Deferred else Dropped, p.(key := p.key + 1);
    }
    ghost var c := session.contact.Value();
    TakeIsSettled(m, blob, env, c, plain.value);
    SettleIs(m.disk, m.contact, p, c, plain.value, blob.payload, env, p.tried in env.refused);
    var receipt := SaveAccepted(store, session, plain.value, blob.payload, env, p.key + 1, p.tried in env.refused);
    outcome, next := Accepted, Advance(p, plain.value, receipt);
  }

  // One pass: try each pending blob once, and keep those that came out of turn.
  method RunPass(store: Store, session: O.Session, pending: seq<Blob>, env: Env, start: Progress)
    returns (still: seq<Blob>, progressed: bool, p: Progress)
    requires !start.halted
    modifies store, session.contact, session.contact.ratchet, session.contact.ratchet.skippedKeys
    ensures session.contact.ratchet == old(session.contact.ratchet) || fresh(session.contact.ratchet)
    ensures session.contact.ratchet.skippedKeys == old(session.contact.ratchet.skippedKeys)
            || fresh(session.contact.ratchet.skippedKeys)
    ensures !p.halted ==> Pass(MailOf(old(store.Value()), old(session.contact.Value()), start), pending, env) ==
                          Swept(MailOf(store.Value(), session.contact.Value(), p), still, progressed)
    ensures p.halted ==> Finished(Pass(MailOf(old(store.Value()), old(session.contact.Value()), start), pending, env),
                                  env) == MailOf(store.Value(), session.contact.Value(), p)
  {
    still, progressed, p := [], false, start;
    ghost var m := MailOf(store.Value(), session.contact.Value(), p);
    ghost var pass := Pass(m, pending, env);
    for i := 0 to |pending|
      invariant session.contact.ratchet == old(session.contact.ratchet) || fresh(session.contact.ratchet)
      invariant session.contact.ratchet.skippedKeys == old(session.contact.ratchet.skippedKeys)
                || fresh(session.contact.ratchet.skippedKeys)
      invariant m == MailOf(store.Value(), session.contact.Value(), p) && !p.halted
      invariant Continues(pass, still, progressed, Pass(m, pending[i..], env))
    {
      assert pending[i..][0] == pending[i] && pending[i..][1..] == pending[i + 1..];
      var outcome, next := TakeBlob(store, session, pending[i], env, p);
      PassStep(pass, still, progressed, m, pending[i..], env, MailOf(store.Value(), session.contact.Value(), next),
               outcome);
      p, m := next, MailOf(store.Value(), session.contact.Value(), next);
      progressed := progressed || outcome == Accepted;
      still := if outcome == Deferred then still + [pending[i]] else still;
      if p.halted {
        HaltedEnds(pass, still, m, pending[i + 1..], env);
        return;
      }
    }
    assert pending[|pending|..] == [];
    PassEnds(pass, still, progressed, m, env);
  }

  // Pass after pass over the queue of one tag, until one makes no progress. The record in memory
  // need not be the one on disk.
  method DrainTag(store: Store, session: O.Session, queue: seq<Blob>, env: Env, firstKey: KeyId) returns (p: Progress)
    modifies store, session.contact, session.contact.ratchet, session.contact.ratchet.skippedKeys
    ensures Drain(Mail(old(store.Value()), old(session.contact.Value()), firstKey, 0, [], [], false), queue, env) ==
            MailOf(store.Value(), session.contact.Value(), p)
  {
    p := Progress(firstKey, 0, [], [], false);
    ghost var m := MailOf(store.Value(), session.contact.Value(), p);
    ghost var whole := Drain(m, queue, env);
    var pending := queue;
    while pending != []
      invariant session.contact.ratchet == old(session.contact.ratchet) || fresh(session.contact.ratchet)
      invariant session.contact.ratchet.skippedKeys == old(session.contact.ratchet.skippedKeys)
                || fresh(session.contact.ratchet.skippedKeys)
      invariant m == MailOf(store.Value(), session.contact.Value(), p) && !p.halted
      invariant Drain(m, pending, env) == whole
      decreases |pending|
    {
      assert whole == Finished(Pass(m, pending, env), env);
      var still, progressed;
      still, progressed, p := RunPass(store, session, pending, env, p);
      if p.halted || !progressed {
        return;
      }
      m := MailOf(store.Value(), session.contact.Value(), p);
      pending := still;
    }
  }
}
