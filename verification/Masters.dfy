/** What a pairing depends on: exactly when each side completes it, what each records, and that two
    master secrets are equal only if everything that went into them is. */
module Masters {
  import opened Crypto
  import opened Message
  import opened Pairing
  import R = Ratchet
  import S = Session

  // ---------- when each side completes ----------

  // The inviter: for its own invite secret, with a ratchet key, and with a ciphertext exactly if the
  // invite is hybrid and carries a key, which the inviter then needs itself.
  lemma InviterCompletesIff(inviter: Identity, i: Invite, q: Request, ie: KeyId, ir: KeyId, now: int)
    ensures var res, hybrid := InviterComplete(inviter, i, q, ie, ir, now), i.hybridCapable && i.kem.Some?;
            && (res.Success? <==>
                && q.inviteSecret == i.inviteSecret && q.ratchet.Some?
                && (if hybrid then q.kem.Some? && inviter.kem.Some? else q.kem.None?))
            && (res.Failure? ==>
                  res.error == if q.inviteSecret != i.inviteSecret then InviteSecretMismatch
                               else if q.ratchet.None? then MissingJoinerRatchetKey
                               else if !hybrid then UnexpectedKem
                               else if q.kem.None? then HybridNeedsKem else InviterMissingKemKey)
  {
  }

  // The joiner: for an answer with the transcript of its own request, of an invite with its secret.
  lemma JoinerCompletesIff(joiner: Identity, i: Invite, q: Request, s: Secrets, resp: Response, later: int)
    ensures var res, hybrid := JoinerComplete(joiner, i, q, s, resp, later), i.hybridCapable && i.kem.Some?;
            res.Success? <==>
            && q.inviteSecret == i.inviteSecret && q.ratchet.Some? && resp.ratchet.Some?
            && (if hybrid then q.kem.Some? && s.pq.Some? else q.kem.None?)
            && resp.transcript == Sha256(Hashed(i, q, resp.ephemeral, resp.ratchet))
  {
  }

  // What both implementations hash, in their order: a key that is not there as nothing, and a
  // ciphertext last, only if the invite is hybrid.
  function Hashed(i: Invite, q: Request, ephemeral: KeyId, ratchet: Option<KeyId>): seq<Atom> {
    [Name(i.protocol), Random(i.inviteSecret),
     Public(i.signing), Public(i.agreement), Public(q.signing), Public(q.agreement),
     Public(q.ephemeral), Public(ephemeral), IfThere(q.ratchet), IfThere(ratchet)]
    + if i.hybridCapable && i.kem.Some? && q.kem.Some? then [Kem(q.kem.value)] else []
  }

  function IfThere(key: Option<KeyId>): Atom {
    if key.Some? then Public(key.value) else Empty
  }

  // ---------- what each side records ----------

  // Of the peer its keys and its name as it gave it, and a contact that has neither sent nor received.
  ghost predicate Records(x: PairedContact, name: string, signing: KeyId, agreement: KeyId, hybrid: bool, now: int) {
    && x.name == name && x.signing == signing && x.agreement == agreement
    && x.contactId == Sha256([Public(signing), Public(agreement)])
    && x.contact.hybrid == hybrid && x.contact.sessionStartedAt == now
    && x.contact.nextSendSeq == 1 && x.contact.lastRecvSeq == 0
  }

  // In an honest pairing each records the other's own keys; its session starts when it completes.
  lemma EachRecordsTheOther(inviter: Identity, joiner: Identity, i: Invite, name: string, je: KeyId, jr: KeyId,
                            coins: nat, ie: KeyId, ir: KeyId, now: int, later: int)
    requires IssuedBy(i, inviter)
    ensures var (q, s) := BuildRequest(joiner, i, name, je, jr, coins);
            var hybrid := i.hybridCapable && i.kem.Some?;
            var a := InviterComplete(inviter, i, q, ie, ir, now);
            && a.Success? && a.value.0 == Response(ie, Some(ir), a.value.1.transcript)
            && Records(a.value.1, name, joiner.signing, joiner.agreement, hybrid, now)
            && var b := JoinerComplete(joiner, i, q, s, a.value.0, later);
               && b.Success? && Records(b.value, inviter.name, inviter.signing, inviter.agreement, hybrid, later)
               && q.joinerName == name && q.ephemeral == je && q.ratchet == Some(jr) && (q.kem.Some? <==> hybrid)
  {
  }

  // ---------- what the master secrets depend on ----------

  // The decapsulated secret, in hybrid mode only.
  function Decapsulated(inviter: Identity, i: Invite, q: Request): Option<KemSecret> {
    if i.hybridCapable && i.kem.Some? && inviter.kem.Some? && q.kem.Some?
    then Some(KemSecret(inviter.kem.value, q.kem.value)) else None
  }

  function Carried(i: Invite, s: Secrets): Option<KemSecret> {
    if i.hybridCapable && i.kem.Some? then s.pq else None
  }

  // An inviter and a joiner, whatever invites and requests they complete: their masters are equal if
  // and only if the agreements of their identity keys and of their ephemeral keys are, the
  // transcripts, and the secret from the key encapsulation, or that there is none.
  lemma EqualMastersIff(inviter: Identity, i: Invite, q: Request, ie: KeyId, ir: KeyId, now: int,
                        joiner: Identity, i2: Invite, q2: Request, s: Secrets, resp: Response, later: int)
    requires InviterComplete(inviter, i, q, ie, ir, now).Success?
    requires JoinerComplete(joiner, i2, q2, s, resp, later).Success?
    ensures var x := InviterComplete(inviter, i, q, ie, ir, now).value.1;
            var y := JoinerComplete(joiner, i2, q2, s, resp, later).value;
            x.master == y.master <==>
            && DH(inviter.agreement, q.agreement) == DH(joiner.agreement, i2.agreement)
            && DH(ie, q.ephemeral) == DH(s.ephemeral, resp.ephemeral) && x.transcript == y.transcript
            && Decapsulated(inviter, i, q) == Carried(i2, s)
  {
  }

  // The same for two completions of inviters.
  lemma EqualInviterMastersIff(a: Identity, i: Invite, q: Request, ie: KeyId, ir: KeyId, now: int,
                               b: Identity, i2: Invite, q2: Request, ie2: KeyId, ir2: KeyId, later: int)
    requires InviterComplete(a, i, q, ie, ir, now).Success? && InviterComplete(b, i2, q2, ie2, ir2, later).Success?
    ensures var x := InviterComplete(a, i, q, ie, ir, now).value.1;
            var y := InviterComplete(b, i2, q2, ie2, ir2, later).value.1;
            x.master == y.master <==>
            && DH(a.agreement, q.agreement) == DH(b.agreement, q2.agreement)
            && DH(ie, q.ephemeral) == DH(ie2, q2.ephemeral) && x.transcript == y.transcript
            && Decapsulated(a, i, q) == Decapsulated(b, i2, q2)
  {
  }

  // So a hybrid master is never a classical one.
  lemma HybridIsNotClassical(inviter: Identity, i: Invite, q: Request, ie: KeyId, ir: KeyId, now: int,
                             joiner: Identity, i2: Invite, q2: Request, s: Secrets, resp: Response, later: int)
    requires InviterComplete(inviter, i, q, ie, ir, now).Success?
    requires JoinerComplete(joiner, i2, q2, s, resp, later).Success?
    requires var x := InviterComplete(inviter, i, q, ie, ir, now).value.1;
             var y := JoinerComplete(joiner, i2, q2, s, resp, later).value;
             x.contact.hybrid != y.contact.hybrid
    ensures InviterComplete(inviter, i, q, ie, ir, now).value.1.master !=
            JoinerComplete(joiner, i2, q2, s, resp, later).value.master
  {
    EqualMastersIff(inviter, i, q, ie, ir, now, joiner, i2, q2, s, resp, later);
  }

  // On one hybrid invite, request and transcript, a joiner that holds another secret than the
  // ciphertext carries completes like the inviter, and the two share no master: what either of them
  // seals first the other does not open.
  lemma SecretDecides(inviter: Identity, joiner: Identity, i: Invite, name: string, je: KeyId, jr: KeyId, coins: nat,
                      ie: KeyId, ir: KeyId, now: int, later: int, other: KemSecret)
    requires IssuedBy(i, inviter) && i.hybridCapable && i.kem.Some?
    ensures var (q, s) := BuildRequest(joiner, i, name, je, jr, coins);
            var a := InviterComplete(inviter, i, q, ie, ir, now);
            && s.pq.Some? && a.Success?
            && var b := JoinerComplete(joiner, i, q, s.(pq := Some(other)), a.value.0, later);
               && b.Success? && a.value.1.transcript == b.value.transcript
               && (a.value.1.master == b.value.master <==> other == s.pq.value)
               && (other != s.pq.value ==>
                     FirstIsShut(a.value.1.contact, b.value.contact) && FirstIsShut(b.value.contact, a.value.1.contact))
  {
    var (q, s) := BuildRequest(joiner, i, name, je, jr, coins);
    var (resp, x) := InviterComplete(inviter, i, q, ie, ir, now).value;
    var y := JoinerComplete(joiner, i, q, s.(pq := Some(other)), resp, later).value;
    EqualMastersIff(inviter, i, q, ie, ir, now, joiner, i, q, s.(pq := Some(other)), resp, later);
    if x.master != y.master {
      OtherMasterIsShut(x.contact, y.contact, x.master, y.master, true, ir, jr);
    }
  }

  ghost predicate FirstIsShut(from: S.Contact, to: S.Contact) {
    forall d, now, k, later, l | S.Encrypt(from, d, now, k).Success? ::
      S.DecryptInbound(to, Framed(S.Encrypt(from, d, now, k).value.1), later, l).Failure?
  }

  // The two ratchets as pairing leaves them.
  ghost predicate AsPaired(x: S.Contact, y: S.Contact, mine: Master, theirs: Master, hybrid: bool, ir: KeyId,
                           jr: KeyId)
  {
    && x.ratchet == R.FromMaster(mine, true, hybrid, ir).(pendingPeer := Some(jr))
    && y.ratchet == R.PairingRecvInit(R.FromMaster(theirs, false, hybrid, jr), ir)
  }

  lemma OtherMasterIsShut(x: S.Contact, y: S.Contact, mine: Master, theirs: Master, hybrid: bool, ir: KeyId, jr: KeyId)
    requires AsPaired(x, y, mine, theirs, hybrid, ir, jr) && mine != theirs
    ensures FirstIsShut(x, y) && FirstIsShut(y, x)
  {
    forall d, now, k, later, l | S.Encrypt(x, d, now, k).Success?
      ensures S.DecryptInbound(y, Framed(S.Encrypt(x, d, now, k).value.1), later, l).Failure?
    {
      InviterIsShut(x, y, mine, theirs, hybrid, ir, jr, d, now, k, later, l);
    }
  }

  lemma InviterIsShut(x: S.Contact, y: S.Contact, mine: Master, theirs: Master, hybrid: bool, ir: KeyId, jr: KeyId,
                      d: S.Draft, now: int, k: KeyId, later: int, l: KeyId)
    requires AsPaired(x, y, mine, theirs, hybrid, ir, jr) && mine != theirs && S.Encrypt(x, d, now, k).Success?
    ensures S.DecryptInbound(y, Framed(S.Encrypt(x, d, now, k).value.1), later, l).Failure?
  {
    var p := S.Encrypt(x, d, now, k).value.1;
    assert p.header.dh == k && p.header.n == 0;
    assert p.box.key.start == ChainKdf(RootKdf(RootOf(mine), DH(ir, jr)), DH(k, jr));
    var a := R.Align(y.ratchet, k, l);
    assert a.recvN == 0 && a.recvChain.value.start != p.box.key.start;
  }
}
