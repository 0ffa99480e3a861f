/** Invite pairing (yakr_core/pairing.py): both sides derive one master secret from one
    transcript, and their ratchets start in the relation every later step keeps. */
module Pairing {
  import opened Crypto
  import opened KeySchedule
  import opened Message
  import opened TwoParty
  import opened Runs
  import R = Ratchet
  import S = Session

  datatype Identity = Identity(name: string, signing: KeyId, agreement: KeyId, kem: Option<KeyId>)

  datatype Invite = Invite(
    protocol: string,
    inviterName: string,
    signing: KeyId,
    agreement: KeyId,
    inviteSecret: nat,
    hybridCapable: bool,
    kem: Option<KeyId>)

  // A key or ciphertext the wire format leaves out is None.
  datatype Request = Request(
    inviteSecret: nat,
    joinerName: string,
    signing: KeyId,
    agreement: KeyId,
    ephemeral: KeyId,
    ratchet: Option<KeyId>,
    kem: Option<KemCiphertext>)

  datatype Secrets = Secrets(ephemeral: KeyId, ratchet: KeyId, pq: Option<KemSecret>)

  datatype Response = Response(ephemeral: KeyId, ratchet: Option<KeyId>, transcript: Digest)

  datatype Error =
    | InviteSecretMismatch
    | MissingJoinerRatchetKey
    | HybridNeedsKem
    | UnexpectedKem
    | InviterMissingKemKey
    | TranscriptMismatch
    | MissingInviterRatchetKey
    | MissingPqSecret

  // What pairing records about the peer.
  datatype PairedContact = PairedContact(
    name: string,
    signing: KeyId,
    agreement: KeyId,
    master: Master,
    contactId: Digest,
    transcript: Digest,
    contact: S.Contact)

  // ---------- names ----------

  predicate Precedes(a: string, b: string) {
    |a| == 0 || (|b| > 0 && (a[0] < b[0] || (a[0] == b[0] && Precedes(a[1..], b[1..]))))
  }

  lemma {:induction false} PrecedesIsTotalOrder(a: string, b: string)
    ensures Precedes(a, b) || Precedes(b, a)
    ensures Precedes(a, b) && Precedes(b, a) ==> a == b
  {
    if a != [] && b != [] && a[0] == b[0] {
      PrecedesIsTotalOrder(a[1..], b[1..]);
      assert a == [a[0]] + a[1..] && b == [b[0]] + b[1..];
    }
  }

  function ConversationId(a: string, b: string): string {
    if Precedes(a, b) then "pairwise_" + a + "_" + b else "pairwise_" + b + "_" + a
  }

  lemma ConversationIdCommutes(a: string, b: string)
    ensures ConversationId(a, b) == ConversationId(b, a)
  {
    PrecedesIsTotalOrder(a, b);
  }

  // The separator of a join, seen from either end.
  lemma SeparatorAt(i: string, a: string, b: string)
    requires i + "_" + a == b + "_" + i
    ensures |a| == |b| && (|i| < |b| ==> b[|i|] == '_' && a[|a| - 1 - |i|] == '_')
  {
    var whole := i + "_" + a;
    assert |whole| == |i| + 1 + |a|;
    if |i| < |b| {
      assert whole[|i|] == '_' && (b + "_" + i)[|i|] == b[|i|];
      assert (b + "_" + i)[|b|] == '_' && whole[|b|] == a[|a| - 1 - |i|];
    }
  }

  // Two joins of one name, on different sides, with two others that lack the separator.
  lemma {:induction false} JoinsApart(i: string, a: string, b: string)
    requires i + "_" + a == b + "_" + i && ('_' !in a || '_' !in b)
    ensures a == b
    decreases |i|
  {
    var whole := i + "_" + a;
    SeparatorAt(i, a, b);
    if |i| == |b| {
      assert whole[..|i|] == i && whole[..|b|] == b && whole[|i| + 1..] == a && whole[|b| + 1..] == i;
    } else if |i| > |b| {
      var rest := i[|b| + 1..];
      assert whole[..|b|] == b && whole[|b|] == '_' && whole[..|i|] == i;
      assert i == b + "_" + rest;
      assert whole[|b| + 1..] == rest + "_" + a && whole[|b| + 1..] == i;
      JoinsApart(rest, a, b);
    }
  }

  // Two different names that, on different sides of a third, join to the same conversation.
  predicate Collide(i: string, a: string, b: string) {
    && a != b && '_' in a && '_' in b
    && if Precedes(i, a) then !Precedes(i, b) && i + "_" + a == b + "_" + i
       else Precedes(i, b) && i + "_" + b == a + "_" + i
  }

  function Pair(i: string, a: string): string {
    if Precedes(i, a) then i + "_" + a else a + "_" + i
  }

  lemma IdIsPair(i: string, a: string)
    ensures ConversationId(i, a) == "pairwise_" + Pair(i, a)
  {
    assert "pairwise_" + (i + "_" + a) == "pairwise_" + i + "_" + a;
    assert "pairwise_" + (a + "_" + i) == "pairwise_" + a + "_" + i;
  }

  lemma TailsAgree(head: string, a: string, b: string)
    requires head + a == head + b
    ensures a == b
  {
    assert (head + a)[|head|..] == a && (head + b)[|head|..] == b;
  }

  lemma HeadsAgree(a: string, b: string, tail: string)
    requires a + "_" + tail == b + "_" + tail
    ensures a == b
  {
    assert (a + "_" + tail)[..|a|] == a && (b + "_" + tail)[..|b|] == b;
  }

  lemma SamePair(i: string, a: string, b: string)
    requires Pair(i, a) == Pair(i, b)
    ensures a == b || Collide(i, a, b)
  {
    if Precedes(i, a) && Precedes(i, b) {
      TailsAgree(i + "_", a, b);
    } else if !Precedes(i, a) && !Precedes(i, b) {
      HeadsAgree(a, b, i);
    } else if '_' !in a || '_' !in b {
      if Precedes(i, a) { JoinsApart(i, a, b); } else { JoinsApart(i, b, a); }
    }
  }

  // When two names give one conversation with a third.
  lemma SameConversation(i: string, a: string, b: string)
    ensures ConversationId(i, a) == ConversationId(i, b) <==> a == b || Collide(i, a, b)
  {
    IdIsPair(i, a);
    IdIsPair(i, b);
    if ConversationId(i, a) == ConversationId(i, b) {
      TailsAgree("pairwise_", Pair(i, a), Pair(i, b));
      SamePair(i, a, b);
    }
  }

  // There are such names.
  lemma UnderscoresCollide()
    ensures Collide("p_q_p", "p_q", "q_p")
  {
    var i, a, b := "p_q_p", "p_q", "q_p";
    assert !Precedes(i[3..], a[3..]);
    assert i[1..][1..][1..] == i[3..] && a[1..][1..][1..] == a[3..];
    assert !Precedes(i[1..][1..], a[1..][1..]);
    assert !Precedes(i[1..], a[1..]);
    assert !Precedes(i, a) && Precedes(i, b);
    assert i + "_" + b == "p_q_p_q_p" == a + "_" + i;
    assert a[1] == '_' && b[1] == '_';
  }

  // ---------- the handshake ----------

  predicate SupportsHybrid(i: Invite) {
    i.hybridCapable && i.kem.Some?
  }

  function BuildRequest(joiner: Identity, invite: Invite, name: string, ephemeral: KeyId, ratchet: KeyId,
                        coins: nat): (Request, Secrets)
  {
    var ct := if SupportsHybrid(invite) then Some(Encapsulated(invite.kem.value, coins)) else None;
    var pq := if ct.Some? then Some(KemSecret(invite.kem.value, ct.value)) else None;
    (Request(invite.inviteSecret, name, joiner.signing, joiner.agreement, ephemeral, Some(ratchet), ct),
     Secrets(ephemeral, ratchet, pq))
  }

  // Refuses a hybrid invite answered without a KEM ciphertext, and the reverse.
  function Validate(i: Invite, q: Request): Option<Error> {
    if q.inviteSecret != i.inviteSecret then Some(InviteSecretMismatch)
    else if q.ratchet.None? then Some(MissingJoinerRatchetKey)
    else if SupportsHybrid(i) then (if q.kem.None? then Some(HybridNeedsKem) else None)
    else if q.kem.Some? then Some(UnexpectedKem)
    else None
  }

  function KeyAtom(k: Option<KeyId>): Atom {
    match k case None => Empty case Some(v) => Public(v)
  }

  function Transcript(i: Invite, q: Request, ephemeral: KeyId, ratchet: Option<KeyId>): Result<Digest, Error> {
    match Validate(i, q)
    case Some(e) => Failure(e)
    case None =>
      Success(Sha256(
        [Name(i.protocol), Random(i.inviteSecret), Public(i.signing), Public(i.agreement),
         Public(q.signing), Public(q.agreement), Public(q.ephemeral), Public(ephemeral),
         KeyAtom(q.ratchet), KeyAtom(ratchet)]
        + (if SupportsHybrid(i) then [Kem(q.kem.value)] else [])))
  }

  function DeriveMaster(identity: Shared, ephemeral: Shared, pq: Option<KemSecret>, transcript: Digest): Master {
    match pq
    case Some(s) => HybridMaster(identity, ephemeral, s, transcript)
    case None => PairMaster(identity, ephemeral, transcript)
  }

  function ContactId(signing: KeyId, agreement: KeyId): Digest {
    Sha256([Public(signing), Public(agreement)])
  }

  function InviterComplete(inviter: Identity, i: Invite, q: Request, ephemeral: KeyId, ratchet: KeyId, now: int)
    : Result<(Response, PairedContact), Error>
  {
    match Transcript(i, q, ephemeral, Some(ratchet))
    case Failure(e) => Failure(e)
    case Success(t) =>
      var hybrid := SupportsHybrid(i);
      if hybrid && inviter.kem.None? then Failure(InviterMissingKemKey) else
      var pq := if hybrid then Some(KemDecapsulate(inviter.kem.value, q.kem.value)) else None;
      var master := DeriveMaster(DH(inviter.agreement, q.agreement), DH(ephemeral, q.ephemeral), pq, t);
      var r := R.FromMaster(master, true, hybrid, ratchet).(pendingPeer := q.ratchet);
      Success((Response(ephemeral, Some(ratchet), t),
               PairedContact(q.joinerName, q.signing, q.agreement, master, ContactId(q.signing, q.agreement), t,
                             S.Contact(ConversationId(inviter.name, q.joinerName), hybrid, now, 1, 0, r))))
  }

  function JoinerComplete(joiner: Identity, i: Invite, q: Request, s: Secrets, resp: Response,
                          now: int): Result<PairedContact, Error> {
    match Transcript(i, q, resp.ephemeral, resp.ratchet)
    case Failure(e) => Failure(e)
    case Success(t) =>
      if resp.transcript != t then Failure(TranscriptMismatch)
      else if resp.ratchet.None? then Failure(MissingInviterRatchetKey) else
      var hybrid := SupportsHybrid(i);
      if hybrid && s.pq.None? then Failure(MissingPqSecret) else
      var pq := if hybrid then s.pq else None;
      var master := DeriveMaster(DH(joiner.agreement, i.agreement), DH(s.ephemeral, resp.ephemeral), pq, t);
      var r := R.PairingRecvInit(R.FromMaster(master, false, hybrid, s.ratchet), resp.ratchet.value);
      Success(PairedContact(i.inviterName, i.signing, i.agreement, master, ContactId(i.signing, i.agreement), t,
                            S.Contact(ConversationId(i.inviterName, joiner.name), hybrid, now, 1, 0, r)))
  }

  // The invite carries the inviter's own keys.
  predicate IssuedBy(i: Invite, inviter: Identity) {
    && i.inviterName == inviter.name && i.signing == inviter.signing && i.agreement == inviter.agreement
    && (i.hybridCapable ==> i.kem == inviter.kem)
  }

  // The two records as a two-party state.
  function Joined(inviter: PairedContact, joiner: PairedContact, inviterKey: KeyId, joinerKey: KeyId): System {
    System(
      Side(inviter.contact, 0, [], []),
      Side(joiner.contact, 1, [], []),
      Schedule(RootOf(inviter.master), [inviterKey, joinerKey]),
      if inviterKey < joinerKey then joinerKey + 1 else inviterKey + 1)
  }

  // From any invite, classical or hybrid, and a request built for it, the inviter completes,
  // the joiner accepts the answer, and the two hold one master secret, transcript and mode.
  // The name asked for is in no transcript: the two records name one conversation, and stand
  // in the initial relation, exactly when it is the joiner's own, or collides with it across the
  // separator of the conversation id. Names without the separator never do.
  lemma PairingEstablishes(inviter: Identity, joiner: Identity, i: Invite, name: string,
                           je: KeyId, jr: KeyId, coins: nat, ie: KeyId, ir: KeyId, now: int, later: int)
    requires IssuedBy(i, inviter) && ir != jr
    ensures var (q, s) := BuildRequest(joiner, i, name, je, jr, coins);
            var a := InviterComplete(inviter, i, q, ie, ir, now);
            && a.Success?
            && var b := JoinerComplete(joiner, i, q, s, a.value.0, later);
               && b.Success? && Agree(a.value.1, b.value, SupportsHybrid(i))
               && (Inv(Joined(a.value.1, b.value, ir, jr)) <==>
                   name == joiner.name || Collide(inviter.name, name, joiner.name))
               && ('_' !in name || '_' !in joiner.name ==>
                     (Inv(Joined(a.value.1, b.value, ir, jr)) <==> name == joiner.name))
               && (name == joiner.name ==>
                   Paired(Joined(a.value.1, b.value, ir, jr), a.value.1.master, SupportsHybrid(i), ir, jr,
                          a.value.1.contact.conversation))
  {
    var (q, s) := BuildRequest(joiner, i, name, je, jr, coins);
    var (resp, x) := InviterComplete(inviter, i, q, ie, ir, now).value;
    var y := JoinerComplete(joiner, i, q, s, resp, later).value;
    SameConversation(inviter.name, name, joiner.name);
    if ConversationId(inviter.name, name) == ConversationId(inviter.name, joiner.name) {
      PairedInv(Joined(x, y, ir, jr), x.master, SupportsHybrid(i), ir, jr, x.contact.conversation);
    }
  }

  predicate Agree(x: PairedContact, y: PairedContact, hybrid: bool) {
    x.master == y.master && x.transcript == y.transcript && x.contact.hybrid == y.contact.hybrid == hybrid
  }

  // Records of different conversations never hear each other: nothing sealed for one opens for
  // the other.
  lemma SplitNeverTalks(c: S.Contact, blob: Blob, now: int, newKey: KeyId)
    requires blob.Framed? && blob.payload.box.plaintext.conversation != c.conversation
    ensures S.DecryptInbound(c, blob, now, newKey).Failure?
  {
  }

  // Whatever happened to the request and the answer on the way: if the joiner accepts an
  // answer bearing the transcript of an inviter that completed the same invite, the two agree
  // on every key, on the mode and on the master secret.
  lemma AcceptedAnswerAgrees(inviter: Identity, joiner: Identity, i: Invite, je: KeyId, jr: KeyId, coins: nat,
                             name: string,
                             received: Request, ie: KeyId, ir: KeyId, answer: Response, now: int, later: int)
    requires IssuedBy(i, inviter)
    requires InviterComplete(inviter, i, received, ie, ir, now).Success?
    requires answer.transcript == InviterComplete(inviter, i, received, ie, ir, now).value.0.transcript
    requires var (q, s) := BuildRequest(joiner, i, name, je, jr, coins);
             JoinerComplete(joiner, i, q, s, answer, later).Success?
    ensures var (q, s) := BuildRequest(joiner, i, name, je, jr, coins);
            var x := InviterComplete(inviter, i, received, ie, ir, now).value.1;
            var y := JoinerComplete(joiner, i, q, s, answer, later).value;
            && received == q.(joinerName := received.joinerName)
            && answer.ephemeral == ie && answer.ratchet == Some(ir)
            && x.master == y.master && x.contact.hybrid == y.contact.hybrid
            && x.contact.ratchet.pendingPeer == Some(jr) && y.contact.ratchet.peerKey == Some(ir)
  {
    var (q, s) := BuildRequest(joiner, i, name, je, jr, coins);
    var mine := Transcript(i, q, answer.ephemeral, answer.ratchet).value.parts;
    var theirs := Transcript(i, received, ie, Some(ir)).value.parts;
    assert mine == theirs;
    assert mine[4] == theirs[4] && mine[5] == theirs[5] && mine[6] == theirs[6] && mine[7] == theirs[7];
    assert mine[8] == theirs[8] && mine[9] == theirs[9];
    if SupportsHybrid(i) {
      assert mine[10] == theirs[10];
    }
  }

  // And there are such names: a joiner who asks to be called something else completes
  // pairing, yet the two records name different conversations.
  lemma OtherNameSplitsConversation()
    ensures exists inviter: Identity, joiner: Identity, i: Invite, name: string ::
              IssuedBy(i, inviter) && SplitBy(inviter, joiner, i, name)
  {
    var inviter, joiner := Identity("amy", 1, 2, None), Identity("bob", 3, 4, None);
    var i := Invite("yakr-v0.4", "amy", 1, 2, 9, false, None);
    var (q, s) := BuildRequest(joiner, i, "dan", 5, 6, 0);
    assert Precedes("amy", "dan") && Precedes("amy", "bob");
    assert ConversationId("amy", "dan")[13] == 'd' && ConversationId("amy", "bob")[13] == 'b';
    assert SplitBy(inviter, joiner, i, "dan");
  }

  predicate SplitBy(inviter: Identity, joiner: Identity, i: Invite, name: string) {
    var (q, s) := BuildRequest(joiner, i, name, 5, 6, 0);
    var a := InviterComplete(inviter, i, q, 7, 8, 0);
    && a.Success?
    && var b := JoinerComplete(joiner, i, q, s, a.value.0, 0);
       && b.Success? && a.value.1.master == b.value.master
       && a.value.1.contact.conversation != b.value.contact.conversation
  }
}
