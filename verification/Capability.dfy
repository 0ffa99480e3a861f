/** Relay capability grants (yakr_relay/capability_store.py, yakr_core/capability_grant.py and
    _check_capability): registration, overlap after revocation, and the nonce window. */
module Capability {
  import opened Bytes
  import opened Crypto

  const TIMESTAMP_SKEW_MS: int := 5 * 60 * 1000
  const NONCE_TTL_MS: int := 10 * 60 * 1000
  const NONCE_BYTES: nat := 16

  // A signature verifies only for the signer and the content it was made with.
  datatype Signature<T> = Signed(signer: KeyId, content: T) | Garbage(id: nat)

  predicate Verifies<T(==)>(s: Signature<T>, key: KeyId, content: T) {
    s == Signed(key, content)
  }

  datatype Terms = Terms(
    id: nat, generation: nat, relayName: string, pin: nat, permissions: seq<string>, expiresAt: int, auth: KeyId)

  datatype Grant = Grant(terms: Terms, signature: Signature<Terms>)

  datatype Signing = Signing(verb: string, path: string, body: string, timestamp: int, nonce: ByteString)

  // The nonce travels as text; the signature covers the bytes it stands for.
  datatype Request = Request(grant: Grant, signing: Signing, nonceText: string, signature: Signature<Signing>)

  datatype Relay = Relay(name: string, pin: nat, issuer: KeyId)

  datatype Record = Record(grant: Grant, registeredAt: int, revokedAt: Option<int>, overlapUntil: Option<int>)

  datatype Registry = Registry(active: map<nat, Record>, seen: map<string, int>)

  datatype Error =
    | NoIssuanceKey
    | HeadersRequired
    | GrantExpired
    | NameMismatch
    | PinMismatch
    | BadGrantSignature
    | GenerationRollback
    | NotRegistered
    | MissingPermission
    | TimestampOutOfRange
    | BadNonceLength
    | BadRequestSignature
    | NonceReplay

  // ---------- checks that change nothing ----------

  function VerifyGrant(g: Grant, relay: Relay, now: int): Option<Error> {
    if g.terms.expiresAt <= now then Some(GrantExpired)
    else if g.terms.relayName != relay.name then Some(NameMismatch)
    else if g.terms.pin != relay.pin then Some(PinMismatch)
    else if !Verifies(g.signature, relay.issuer, g.terms) then Some(BadGrantSignature)
    else None
  }

  function Abs(x: int): nat { if x < 0 then -x else x }

  predicate WithinSkew(timestamp: int, now: int) { Abs(timestamp - now) <= TIMESTAMP_SKEW_MS }

  function VerifyRequest(q: Request, now: int): Option<Error> {
    if !WithinSkew(q.signing.timestamp, now) then Some(TimestampOutOfRange)
    else if |q.signing.nonce| != NONCE_BYTES then Some(BadNonceLength)
    else if !Verifies(q.signature, q.grant.terms.auth, q.signing) then Some(BadRequestSignature)
    else None
  }

  // Tickets and grants name two permissions differently.
  function NormalizePermission(p: string): string {
    if p == "store" then "post" else p
  }

  predicate Allows(g: Grant, permission: string) {
    NormalizePermission(permission) in g.terms.permissions || permission in g.terms.permissions
  }

  predicate IsRegistered(s: Registry, g: Grant, now: int) {
    && g.terms.id in s.active
    && var record := s.active[g.terms.id];
    && record.grant.terms.generation == g.terms.generation
    && (record.overlapUntil.Some? ==> now < record.overlapUntil.value)
  }

  // ---------- changes ----------

  function AddGrant(s: Registry, g: Grant, relay: Relay, now: int): Result<Registry, Error> {
    match VerifyGrant(g, relay, now)
    case Some(e) => Failure(e)
    case None =>
      if g.terms.id in s.active && g.terms.generation < s.active[g.terms.id].grant.terms.generation
      then Failure(GenerationRollback)
      else Success(s.(active := s.active[g.terms.id := Record(g, now, None, None)]))
  }

  function Revoke(s: Registry, id: nat, now: int, window: nat): Registry {
    if id !in s.active then s
    else s.(active := s.active[id := s.active[id].(revokedAt := Some(now), overlapUntil := Some(now + window))])
  }

  function PruneFor(seen: map<string, int>, now: int, ttl: int): map<string, int> {
    map n | n in seen && now - seen[n] <= ttl :: seen[n]
  }

  function Prune(seen: map<string, int>, now: int): map<string, int> {
    PruneFor(seen, now, NONCE_TTL_MS)
  }

  // Old nonces are dropped even when this one is refused.
  function UseNonce(s: Registry, nonce: string, now: int): (Registry, Option<Error>) {
    var kept := Prune(s.seen, now);
    if nonce in kept then (s.(seen := kept), Some(NonceReplay))
    else (s.(seen := kept[nonce := now]), None)
  }

  function Check(s: Registry, q: Request, permission: string, relay: Relay, now: int): (Registry, Option<Error>) {
    match VerifyGrant(q.grant, relay, now)
    case Some(e) => (s, Some(e))
    case None =>
      if !IsRegistered(s, q.grant, now) then (s, Some(NotRegistered))
      else if !Allows(q.grant, permission) then (s, Some(MissingPermission))
      else
        match VerifyRequest(q, now)
        case Some(e) => (s, Some(e))
        case None => UseNonce(s, q.nonceText, now)
  }

  // Before any of that: a relay that does not ask for capabilities lets everything through, one
  // without an issuance key nothing, and the headers must all be there.
  function Admit(s: Registry, required: bool, keyed: bool, headers: Option<Request>, permission: string, relay: Relay,
                 now: int): (Registry, Option<Error>)
  {
    if !required then (s, None)
    else if !keyed then (s, Some(NoIssuanceKey))
    else if headers.None? then (s, Some(HeadersRequired))
    else Check(s, headers.value, permission, relay, now)
  }

  // ---------- the store object ----------

  class CapabilityGrantStore {
    var active: map<nat, Record>
    var seenNonces: map<string, int>

    ghost function Value(): Registry
      reads this
    {
      Registry(active, seenNonces)
    }

    constructor ()
      ensures Value() == Registry(map[], map[])
    {
      active, seenNonces := map[], map[];
    }

    method Register(g: Grant, relay: Relay, now: int) returns (error: Option<Error>)
      modifies this
      ensures match AddGrant(old(Value()), g, relay, now)
              case Success(s) => Value() == s && error == None
              case Failure(e) => Value() == old(Value()) && error == Some(e)
    {
      var refused := VerifyGrant(g, relay, now);
      if refused.Some? {
        return refused;
      }
      if g.terms.id in active && g.terms.generation < active[g.terms.id].grant.terms.generation {
        return Some(GenerationRollback);
      }
      active := active[g.terms.id := Record(g, now, None, None)];
      error := None;
    }

    method RevokeWithOverlap(id: nat, now: int, window: nat)
      modifies this
      ensures Value() == Revoke(old(Value()), id, now, window)
    {
      if id !in active {
        return;
      }
      active := active[id := active[id].(revokedAt := Some(now), overlapUntil := Some(now + window))];
    }

    method PruneNonces(now: int)
      modifies `seenNonces
      ensures seenNonces == Prune(old(seenNonces), now)
    {
      seenNonces := map n | n in seenNonces && now - seenNonces[n] <= NONCE_TTL_MS :: seenNonces[n];
    }

    method ConsumeNonce(nonce: string, now: int) returns (error: Option<Error>)
      modifies this
      ensures (Value(), error) == UseNonce(old(Value()), nonce, now)
    {
      PruneNonces(now);
      if nonce in seenNonces {
        return Some(NonceReplay);
      }
      seenNonces := seenNonces[nonce := now];
      error := None;
    }

    method CheckCapability(required: bool, keyed: bool, headers: Option<Request>, permission: string, relay: Relay,
                           now: int) returns (error: Option<Error>)
      modifies this
      ensures (Value(), error) == Admit(old(Value()), required, keyed, headers, permission, relay, now)
    {
      if !required {
        return None;
      }
      if !keyed {
        return Some(NoIssuanceKey);
      }
      if headers.None? {
        return Some(HeadersRequired);
      }
      var q := headers.value;
      error := VerifyGrant(q.grant, relay, now);
      if error.Some? {
        return;
      }
      if !IsRegistered(Registry(active, seenNonces), q.grant, now) {
        return Some(NotRegistered);
      }
      if !Allows(q.grant, permission) {
        return Some(MissingPermission);
      }
      error := VerifyRequest(q, now);
      if error.Some? {
        return;
      }
      error := ConsumeNonce(q.nonceText, now);
    }
  }

  // ---------- runs ----------

  datatype Op =
    | Registering(grant: Grant, now: int)
    | Revoking(id: nat, now: int, window: nat)
    | Checking(request: Request, permission: string, now: int)

  function Step(s: Registry, op: Op, relay: Relay): Registry {
    match op
    case Registering(g, now) => (match AddGrant(s, g, relay, now) case Success(t) => t case Failure(_) => s)
    case Revoking(id, now, window) => Revoke(s, id, now, window)
    case Checking(q, p, now) => Check(s, q, p, relay, now).0
  }

  function After(s: Registry, ops: seq<Op>, relay: Relay): Registry
    decreases |ops|
  {
    if ops == [] then s else After(Step(s, ops[0], relay), ops[1..], relay)
  }

  // No operation reads a clock before `from` or after `upto`.
  ghost predicate Between(ops: seq<Op>, from: int, upto: int) {
    forall i | 0 <= i < |ops| :: from <= ops[i].now <= upto
  }

  // ---------- who is admitted ----------

  // Signed by this relay's issuer over just these terms, which name this relay and its pin and have
  // not run out.
  predicate Issued(g: Grant, relay: Relay, now: int) {
    && g.signature == Signed(relay.issuer, g.terms) && now < g.terms.expiresAt
    && g.terms.relayName == relay.name && g.terms.pin == relay.pin
  }

  // The id is on record at the same generation, and its overlap, if it has one, has not ended.
  predicate OnRecord(s: Registry, g: Grant, now: int) {
    && g.terms.id in s.active && s.active[g.terms.id].grant.terms.generation == g.terms.generation
    && (s.active[g.terms.id].overlapUntil == None || now < s.active[g.terms.id].overlapUntil.value)
  }

  // Storing is called posting in a grant.
  predicate Grants(g: Grant, permission: string) {
    permission in g.terms.permissions || (permission == "store" && "post" in g.terms.permissions)
  }

  // Within five minutes either way, signed by the key of the grant, and with a nonce of 16 bytes that
  // was not used in the last ten minutes.
  predicate Timely(q: Request, now: int) {
    && now - 300_000 <= q.signing.timestamp <= now + 300_000
    && |q.signing.nonce| == 16 && q.signature == Signed(q.grant.terms.auth, q.signing)
  }

  predicate UsedLately(s: Registry, nonce: string, now: int) {
    nonce in s.seen && s.seen[nonce] >= now - 600_000
  }

  // A request is admitted if and only if nothing is asked for, or the key and the headers are there
  // and all of that holds; and it then uses up its nonce, and nothing else changes but that nonces
  // older than ten minutes are dropped.
  lemma AdmitIsExact(s: Registry, required: bool, keyed: bool, headers: Option<Request>, permission: string,
                     relay: Relay, now: int)
    ensures var (t, error) := Admit(s, required, keyed, headers, permission, relay, now);
            && (error == None <==>
                !required || (&& keyed && headers.Some?
                              && var q := headers.value;
                                 && Issued(q.grant, relay, now) && OnRecord(s, q.grant, now)
                                 && Grants(q.grant, permission) && Timely(q, now) && !UsedLately(s, q.nonceText, now)))
            && t.active == s.active
            && (!required ==> t == s)
            && (required && error == None ==> Remembers(t, headers.value.nonceText, now))
            && (forall n :: (error != None || !required || n != headers.value.nonceText) && n in t.seen ==>
                              n in s.seen && t.seen[n] == s.seen[n])
            && (forall n :: UsedLately(s, n, now) ==> n in t.seen)
  {
  }

  // The first thing that is wrong is reported.
  lemma RefusalIsExact(s: Registry, q: Request, permission: string, relay: Relay, now: int)
    requires Check(s, q, permission, relay, now).1.Some?
    ensures Check(s, q, permission, relay, now).1.value ==
            if q.grant.terms.expiresAt <= now then GrantExpired
            else if q.grant.terms.relayName != relay.name then NameMismatch
            else if q.grant.terms.pin != relay.pin then PinMismatch
            else if !Issued(q.grant, relay, now) then BadGrantSignature
            else if !OnRecord(s, q.grant, now) then NotRegistered
            else if !Grants(q.grant, permission) then MissingPermission
            else if q.signing.timestamp < now - 300_000 || q.signing.timestamp > now + 300_000 then TimestampOutOfRange
            else if |q.signing.nonce| != 16 then BadNonceLength
            else if !Timely(q, now) then BadRequestSignature
            else NonceReplay
  {
  }

  // A grant is taken if and only if it was issued here and is of no lower generation than the one on
  // record for its id; it is then on record at every time, and every other id is as before.
  lemma RegisterIsExact(s: Registry, g: Grant, relay: Relay, now: int, later: int)
    ensures var res := AddGrant(s, g, relay, now);
            && (res.Success? <==>
                Issued(g, relay, now)
                && (g.terms.id in s.active ==> g.terms.generation >= s.active[g.terms.id].grant.terms.generation))
            && (res.Success? ==>
                  && OnRecord(res.value, g, later) && res.value.seen == s.seen
                  && res.value.active.Keys == s.active.Keys + {g.terms.id}
                  && (forall id <- s.active :: id != g.terms.id ==> res.value.active[id] == s.active[id])
                  && res.value.active[g.terms.id] == Record(g, now, None, None))
  {
  }

  // A revocation ends the overlap of a known id after its window, and touches no other.
  lemma RevokeIsExact(s: Registry, id: nat, now: int, window: nat, other: nat)
    ensures var t := Revoke(s, id, now, window);
            && t.seen == s.seen && t.active.Keys == s.active.Keys
            && (other in s.active ==>
                  t.active[other] ==
                  if other != id then s.active[other]
                  else Record(s.active[id].grant, s.active[id].registeredAt, Some(now), Some(now + window)))
  {
    if id !in s.active {
      assert Revoke(s, id, now, window) == s;
    }
  }

  // ---------- the nonce window ----------

  predicate Remembers(s: Registry, nonce: string, at: int) {
    nonce in s.seen && s.seen[nonce] == at
  }

  // A nonce used at `at` is remembered for as long as its age stays within the window,
  // whatever else is asked for in between.
  lemma {:induction false} RunRemembers(s: Registry, ops: seq<Op>, relay: Relay, nonce: string, at: int)
    requires Remembers(s, nonce, at) && Between(ops, at, at + NONCE_TTL_MS)
    ensures Remembers(After(s, ops, relay), nonce, at)
    decreases |ops|
  {
    if ops != [] {
      assert at <= ops[0].now <= at + NONCE_TTL_MS;
      RunRemembers(Step(s, ops[0], relay), ops[1..], relay, nonce, at);
    }
  }

  // Once a request is accepted, no request with the same nonce and timestamp is accepted
  // again, at any later time and after any other operations.
  lemma NoReplay(s: Registry, q: Request, p: string, relay: Relay, first: int, ops: seq<Op>, again: Request,
                 p2: string, second: int)
    requires Check(s, q, p, relay, first).1 == None
    requires Between(ops, first, second)
    requires again.nonceText == q.nonceText && again.signing.timestamp == q.signing.timestamp && first <= second
    ensures Check(After(Check(s, q, p, relay, first).0, ops, relay), again, p2, relay, second).1.Some?
  {
    var t := Check(s, q, p, relay, first).0;
    assert Remembers(t, q.nonceText, first);
    if VerifyRequest(again, second) == None {
      assert second <= first + 2 * TIMESTAMP_SKEW_MS;
      RunRemembers(t, ops, relay, q.nonceText, first);
    }
  }

  // The signature covers the bytes of the nonce, the registry remembers its text. The same signed
  // request, its nonce written as any text, is accepted a second time if and only if the grant
  // still is, the timestamp is still within the skew, and that text is another one, not
  // remembered itself.
  lemma SecondUseIsExact(s: Registry, q: Request, p: string, relay: Relay, first: int, ops: seq<Op>, text: string,
                         second: int)
    requires Check(s, q, p, relay, first).1 == None
    requires Between(ops, first, second) && first <= second
    ensures var t, again := After(Check(s, q, p, relay, first).0, ops, relay), q.(nonceText := text);
            Check(t, again, p, relay, second).1 == None <==>
            && VerifyGrant(q.grant, relay, second) == None && IsRegistered(t, q.grant, second)
            && WithinSkew(q.signing.timestamp, second)
            && text != q.nonceText && text !in Prune(t.seen, second)
  {
    if text == q.nonceText {
      NoReplay(s, q, p, relay, first, ops, q.(nonceText := text), p, second);
    }
  }

  // A refused request uses up no nonce and leaves every grant as it was.
  lemma RefusedSpendsNothing(s: Registry, q: Request, p: string, relay: Relay, now: int, nonce: string)
    requires Check(s, q, p, relay, now).1.Some?
    ensures Check(s, q, p, relay, now).0.active == s.active
    ensures var t := Check(s, q, p, relay, now).0;
            nonce in t.seen ==> nonce in s.seen && t.seen[nonce] == s.seen[nonce]
  {
  }

  // The window is as short as it can be: for any retention, every second use within the skew
  // of one timestamp finds the first one remembered if and only if it is twice the skew.
  lemma WindowIsTight(ttl: int)
    requires ttl >= 0
    ensures ttl >= 2 * TIMESTAMP_SKEW_MS <==>
            forall stamp: int, first: int, second: int ::
              WithinSkew(stamp, first) && WithinSkew(stamp, second) && first <= second ==> Kept(first, second, ttl)
  {
    if ttl < 2 * TIMESTAMP_SKEW_MS {
      assert !Kept(0, 2 * TIMESTAMP_SKEW_MS, ttl);
      assert WithinSkew(TIMESTAMP_SKEW_MS, 0) && WithinSkew(TIMESTAMP_SKEW_MS, 2 * TIMESTAMP_SKEW_MS);
    }
  }

  predicate Kept(first: int, second: int, ttl: int) {
    "n" in PruneFor(map["n" := first], second, ttl)
  }

  // ---------- generations and overlap ----------

  // Ids are never forgotten and their generation never falls.
  lemma {:induction false} GenerationsNeverFall(s: Registry, ops: seq<Op>, relay: Relay, id: nat)
    requires id in s.active
    ensures id in After(s, ops, relay).active
    ensures After(s, ops, relay).active[id].grant.terms.generation >= s.active[id].grant.terms.generation
    decreases |ops|
  {
    if ops != [] {
      GenerationsNeverFall(Step(s, ops[0], relay), ops[1..], relay, id);
    }
  }

  ghost predicate Leaves(ops: seq<Op>, id: nat) {
    forall i | 0 <= i < |ops| ::
      !(ops[i].Registering? && ops[i].grant.terms.id == id) && !(ops[i].Revoking? && ops[i].id == id)
  }

  lemma {:induction false} RecordStays(s: Registry, ops: seq<Op>, relay: Relay, id: nat)
    requires id in s.active && Leaves(ops, id)
    ensures id in After(s, ops, relay).active && After(s, ops, relay).active[id] == s.active[id]
    decreases |ops|
  {
    if ops != [] {
      RecordStays(Step(s, ops[0], relay), ops[1..], relay, id);
    }
  }

  // A grant revoked at t with window w is recognised up to, and not from, t + w, until its id is
  // registered or revoked again.
  lemma OverlapIsExact(s: Registry, g: Grant, t: int, w: nat, ops: seq<Op>, relay: Relay, now: int)
    requires IsRegistered(s, g, t) && Leaves(ops, g.terms.id)
    ensures IsRegistered(After(Revoke(s, g.terms.id, t, w), ops, relay), g, now) <==> now < t + w
  {
    RecordStays(Revoke(s, g.terms.id, t, w), ops, relay, g.terms.id);
  }

  // Registering it again, at the same or a later generation, lifts the revocation.
  lemma RegistrationLifts(s: Registry, g: Grant, relay: Relay, now: int, later: int)
    requires AddGrant(s, g, relay, now).Success?
    ensures IsRegistered(AddGrant(s, g, relay, now).value, g, later)
  {
  }
}
