/** Draining one mailbox tag (yakr_cli/fetch_cmds.py): passes over the queue until one makes
    no progress, each accepted message saved, each text answered, before the next is tried. */
module Fetch {
  import opened Crypto
  import opened Message
  import opened LocalStore
  import S = Session

  // The clock and device name of one fetch, and which of the receipts it sends are refused
  // by every relay, counted from zero.
  datatype Env = Env(now: int, device: string, refused: set<nat>)

  // The saved tables and the contact in memory, which is the one blobs are tried on; the next key
  // to generate, the receipts tried and those handed over, and the messages accepted. A receipt
  // the session refuses to seal ends the fetch.
  datatype Mail = Mail(disk: Tables, contact: S.Contact, key: KeyId, tried: nat, handed: seq<Payload>,
                       got: seq<InnerMessage>, halted: bool)

  // A fetch begins by reading the contact.
  function Reread(m: Mail): Mail {
    m.(contact := m.disk.contact)
  }

  function ReceiptDraft(id: MessageId, env: Env): S.Draft {
    S.Draft(env.device, Receipt(id), env.now, env.now + MESSAGE_TTL_MS)
  }

  // Spend a sequence number, save, hand over; take it back and queue the receipt if refused.
  // None if the session will not seal it; else the tables and what was handed over.
  function TryReceipt(disk: Tables, id: MessageId, env: Env, key: KeyId, refused: bool): Option<(Tables,
                      seq<Payload>)> {
    match S.EncryptReceipt(disk.contact, ReceiptDraft(id, env), env.now, key)
    case Failure(_) => None
    case Success(cp) =>
      Some(if refused then (SaveReceipt(disk, id), []) else (DeleteReceipt(PersistContact(disk, cp.0), id), [cp.1]))
  }

  function SendDeliveryReceipt(m: Mail, id: MessageId, env: Env): Mail {
    match TryReceipt(m.disk, id, env, m.key, m.tried in env.refused)
    case None => m.(halted := true)
    case Some(done) => m.(disk := done.0, handed := m.handed + done.1, key := m.key + 1, tried := m.tried + 1)
  }

  // How many more receipts the session will seal; none means any number of them.
  function SealsLeft(c: S.Contact, now: int): Option<nat> {
    if !c.hybrid then None
    else if S.NeedsRekey(c, now) then Some(0)
    else Some(S.PQ_REKEY_MAX_MESSAGES - c.nextSendSeq)
  }

  // A receipt that is refused gives its number back.
  function SealsAfter(left: Option<nat>, refused: bool): Option<nat> {
    if left.None? || refused || left.value == 0 then left else Some(left.value - 1)
  }

  function StoreText(m: Mail, c: S.Contact, inner: InnerMessage, p: Payload, env: Env): Mail {
    m.(disk := CommitReceiveText(m.disk, c, inner, MessageId(p), env.now))
  }

  // Save what was decrypted; after a text, answer it and take the send half of the contact from
  // disk. What is then in memory is what is on disk.
  function Settle(m: Mail, c: S.Contact, inner: InnerMessage, p: Payload, env: Env): Mail {
    match inner.kind
    case Text(_) => Reread(SendDeliveryReceipt(StoreText(m, c, inner, p, env), MessageId(p), env))
    case Receipt(id) => m.(disk := PersistContact(MarkDelivered(m.disk, id), c), contact := c)
    case _ => m.(disk := PersistContact(m.disk, c), contact := c)
  }

  datatype Outcome = Accepted | Deferred | Dropped

  function Got(m: Mail, inner: InnerMessage): Mail {
    m.(key := m.key + 1, got := m.got + [inner])
  }

  // A message out of sequence is kept for the next pass; any other failure discards the blob.
  function Take(m: Mail, blob: Blob, env: Env): (Mail, Outcome) {
    match S.DecryptInbound(m.contact, blob, env.now, m.key)
    case Failure(e) =>
      (m.(contact := S.AfterTrial(m.contact, blob), key := m.key + 1),
       if e == S.DuplicateSeq then Deferred else Dropped)
    case Success(cm) => (Settle(Got(m, cm.1), cm.0, cm.1, blob.payload, env), Accepted)
  }

  // What is left of a pass: the state, the blobs kept for the next one, and whether any was accepted.
  datatype Swept = Swept(mail: Mail, still: seq<Blob>, progressed: bool)

  function Pass(m: Mail, pending: seq<Blob>, env: Env): (r: Swept)
    decreases |pending|
    ensures |r.still| <= |pending| && (r.progressed ==> |r.still| < |pending|)
  {
    if m.halted || pending == [] then Swept(m, [], false) else
    var (n, outcome) := Take(m, pending[0], env);
    var rest := Pass(n, pending[1..], env);
    rest.(still := if outcome == Deferred then [pending[0]] + rest.still else rest.still,
          progressed := outcome == Accepted || rest.progressed)
  }

  function Drain(m: Mail, pending: seq<Blob>, env: Env): Mail
    decreases |pending|
  {
    if m.halted || pending == [] then m else
    var s := Pass(m, pending, env);
    if s.progressed then Drain(s.mail, s.still, env) else s.mail
  }

  ghost predicate Among(pending: seq<Blob>, queue: seq<Blob>) {
    forall b <- pending :: b in queue
  }

  // A pass invents no blobs.
  lemma {:induction false} StillAmong(m: Mail, pending: seq<Blob>, env: Env)
    ensures Among(Pass(m, pending, env).still, pending)
    decreases |pending|
  {
    if !m.halted && pending != [] {
      StillAmong(Take(m, pending[0], env).0, pending[1..], env);
    }
  }
}
