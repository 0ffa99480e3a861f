/** The relay's pairing mailbox (yakr_relay/pairing_store.py): one request, one response, and
    then the session is used up until it is swept. */
module Rendezvous {
  import opened Bytes
  import opened Crypto

  const SECRET_BYTES: nat := 32

  // The tag is a digest of the invite secret: different secrets, different tags.
  datatype Tag = TagOf(secret: ByteString)

  datatype Session = Session(
    secret: ByteString, registeredAt: int, request: Option<ByteString>, response: Option<ByteString>, consumed: bool)

  type Sessions = map<Tag, Session>

  datatype Error = BadSecretLength | AlreadyConsumed | UnknownSession

  function Registered(s: Sessions, secret: ByteString, now: int): Result<Sessions, Error> {
    var tag := TagOf(secret);
    if |secret| != SECRET_BYTES then Failure(BadSecretLength)
    else if tag in s && s[tag].consumed then Failure(AlreadyConsumed)
    else Success(s[tag := Session(secret, now, None, None, false)])
  }

  function Requested(s: Sessions, secret: ByteString, request: ByteString, now: int): Result<Sessions, Error> {
    var tag := TagOf(secret);
    if |secret| != SECRET_BYTES then Failure(BadSecretLength)
    else if tag !in s then Success(s[tag := Session(secret, now, Some(request), None, false)])
    else if s[tag].consumed then Failure(AlreadyConsumed)
    else Success(s[tag := s[tag].(request := Some(request))])
  }

  function Responded(s: Sessions, secret: ByteString, response: ByteString): Result<Sessions, Error> {
    var tag := TagOf(secret);
    if |secret| != SECRET_BYTES then Failure(BadSecretLength)
    else if tag !in s then Failure(UnknownSession)
    else if s[tag].consumed then Failure(AlreadyConsumed)
    else Success(s[tag := s[tag].(response := Some(response), consumed := true)])
  }

  function PendingRequest(s: Sessions, tag: Tag): Option<ByteString> {
    if tag !in s || s[tag].consumed then None else s[tag].request
  }

  function ResponseFor(s: Sessions, tag: Tag): Option<ByteString> {
    if tag !in s || !s[tag].consumed then None else s[tag].response
  }

  function Swept(s: Sessions, ttl: nat, now: int): Sessions {
    map tag | tag in s && s[tag].registeredAt >= now - ttl :: s[tag]
  }

  // ---------- the table object ----------

  class PairingStore {
    const ttlMs: nat
    var sessions: Sessions

    constructor (ttlMs: nat)
      ensures this.ttlMs == ttlMs && sessions == map[]
    {
      this.ttlMs, this.sessions := ttlMs, map[];
    }

    method Register(secret: ByteString, now: int) returns (res: Result<Tag, Error>)
      modifies this
      ensures match Registered(old(sessions), secret, now)
              case Success(s) => sessions == s && res == Success(TagOf(secret))
              case Failure(e) => sessions == old(sessions) && res == Failure(e)
    {
      if |secret| != SECRET_BYTES {
        return Failure(BadSecretLength);
      }
      var tag := TagOf(secret);
      if tag in sessions && sessions[tag].consumed {
        return Failure(AlreadyConsumed);
      }
      sessions := sessions[tag := Session(secret, now, None, None, false)];
      res := Success(tag);
    }

    method StoreRequest(secret: ByteString, request: ByteString, now: int) returns (res: Result<Tag, Error>)
      modifies this
      ensures match Requested(old(sessions), secret, request, now)
              case Success(s) => sessions == s && res == Success(TagOf(secret))
              case Failure(e) => sessions == old(sessions) && res == Failure(e)
    {
      if |secret| != SECRET_BYTES {
        return Failure(BadSecretLength);
      }
      var tag := TagOf(secret);
      if tag !in sessions {
        sessions := sessions[tag := Session(secret, now, Some(request), None, false)];
      } else if sessions[tag].consumed {
        return Failure(AlreadyConsumed);
      } else {
        sessions := sessions[tag := sessions[tag].(request := Some(request))];
      }
      res := Success(tag);
    }

    method StoreResponse(secret: ByteString, response: ByteString) returns (res: Result<Tag, Error>)
      modifies this
      ensures match Responded(old(sessions), secret, response)
              case Success(s) => sessions == s && res == Success(TagOf(secret))
              case Failure(e) => sessions == old(sessions) && res == Failure(e)
    {
      if |secret| != SECRET_BYTES {
        return Failure(BadSecretLength);
      }
      var tag := TagOf(secret);
      if tag !in sessions {
        return Failure(UnknownSession);
      }
      if sessions[tag].consumed {
        return Failure(AlreadyConsumed);
      }
      sessions := sessions[tag := sessions[tag].(response := Some(response), consumed := true)];
      res := Success(tag);
    }

    method SweepExpired(now: int) returns (removed: nat)
      modifies this
      ensures sessions == Swept(old(sessions), ttlMs, now) && removed == |old(sessions)| - |sessions|
    {
      var kept := map tag | tag in sessions && sessions[tag].registeredAt >= now - ttlMs :: sessions[tag];
      KeptIsFewer(sessions, kept);
      removed := |sessions| - |kept|;
      sessions := kept;
    }
  }

  lemma KeptIsFewer(s: Sessions, kept: Sessions)
    requires kept.Keys <= s.Keys
    ensures |kept| <= |s|
  {
    assert |s.Keys - kept.Keys| + |kept.Keys| == |s.Keys| by {
      assert s.Keys - kept.Keys + kept.Keys == s.Keys;
    }
  }

  // ---------- runs ----------

  datatype Op =
    | Registering(secret: ByteString, now: int)
    | Requesting(secret: ByteString, request: ByteString, now: int)
    | Responding(secret: ByteString, response: ByteString)
    | Sweeping(now: int)

  function Attempt(s: Sessions, op: Op, ttl: nat): Result<Sessions, Error> {
    match op
    case Registering(secret, now) => Registered(s, secret, now)
    case Requesting(secret, request, now) => Requested(s, secret, request, now)
    case Responding(secret, response) => Responded(s, secret, response)
    case Sweeping(now) => Success(Swept(s, ttl, now))
  }

  function Step(s: Sessions, op: Op, ttl: nat): Sessions {
    match Attempt(s, op, ttl) case Success(t) => t case Failure(_) => s
  }

  function After(s: Sessions, ops: seq<Op>, ttl: nat): Sessions
    decreases |ops|
  {
    if ops == [] then s else After(Step(s, ops[0], ttl), ops[1..], ttl)
  }

  // No sweep of the run is late enough to remove a session registered then.
  ghost predicate NotSweptIn(ops: seq<Op>, registeredAt: int, ttl: nat) {
    forall i | 0 <= i < |ops| && ops[i].Sweeping? :: ops[i].now <= registeredAt + ttl
  }

  ghost predicate UsedUp(s: Sessions, secret: ByteString, response: ByteString, registeredAt: int) {
    var tag := TagOf(secret);
    tag in s && s[tag].consumed && s[tag].response == Some(response) && s[tag].registeredAt == registeredAt
  }

  lemma {:induction false} StaysUsedUp(s: Sessions, ops: seq<Op>, ttl: nat, secret: ByteString, response: ByteString,
                                       registeredAt: int)
    requires UsedUp(s, secret, response, registeredAt) && NotSweptIn(ops, registeredAt, ttl)
    ensures UsedUp(After(s, ops, ttl), secret, response, registeredAt)
    decreases |ops|
  {
    if ops != [] {
      StepStaysUsedUp(s, ops[0], ttl, secret, response, registeredAt);
      StaysUsedUp(Step(s, ops[0], ttl), ops[1..], ttl, secret, response, registeredAt);
    }
  }

  lemma StepStaysUsedUp(s: Sessions, op: Op, ttl: nat, secret: ByteString, response: ByteString, registeredAt: int)
    requires UsedUp(s, secret, response, registeredAt) && (op.Sweeping? ==> op.now <= registeredAt + ttl)
    ensures UsedUp(Step(s, op, ttl), secret, response, registeredAt)
  {
  }

  ghost predicate About(op: Op, secret: ByteString) { !op.Sweeping? && op.secret == secret }

  // From a successful response until the session is swept: the tag returns exactly that
  // response and shows no request, and every further attempt on that secret fails.
  lemma SingleUse(s: Sessions, secret: ByteString, response: ByteString, ops: seq<Op>, ttl: nat, next: Op)
    requires Responded(s, secret, response).Success? && NotSweptIn(ops, s[TagOf(secret)].registeredAt, ttl)
    ensures var end := After(Responded(s, secret, response).value, ops, ttl);
            && ResponseFor(end, TagOf(secret)) == Some(response) && PendingRequest(end, TagOf(secret)) == None
            && (About(next, secret) ==> Attempt(end, next, ttl).Failure?)
  {
    StaysUsedUp(Responded(s, secret, response).value, ops, ttl, secret, response, s[TagOf(secret)].registeredAt);
  }

  // And a later sweep frees the tag: the same secret can be used for another session.
  lemma SweepFrees(s: Sessions, secret: ByteString, ttl: nat, now: int)
    requires TagOf(secret) in s
    ensures TagOf(secret) in Swept(s, ttl, now) <==> now <= s[TagOf(secret)].registeredAt + ttl
    ensures now > s[TagOf(secret)].registeredAt + ttl && |secret| == SECRET_BYTES ==>
              Registered(Swept(s, ttl, now), secret, now).Success?
  {
  }

  // Sessions of other secrets are never touched but by the sweep.
  lemma {:induction false} OthersUntouched(s: Sessions, ops: seq<Op>, ttl: nat, secret: ByteString)
    requires forall i | 0 <= i < |ops| :: !About(ops[i], secret) && !ops[i].Sweeping?
    ensures TagOf(secret) in After(s, ops, ttl) <==> TagOf(secret) in s
    ensures TagOf(secret) in s ==> After(s, ops, ttl)[TagOf(secret)] == s[TagOf(secret)]
    decreases |ops|
  {
    if ops != [] {
      assert !About(ops[0], secret) && !ops[0].Sweeping?;
      forall i | 0 <= i < |ops[1..]| ensures !About(ops[1..][i], secret) && !ops[1..][i].Sweeping? {
        assert ops[1..][i] == ops[i + 1];
      }
      OthersUntouched(Step(s, ops[0], ttl), ops[1..], ttl, secret);
    }
  }

  // ---------- what each attempt comes to ----------

  // A secret of 32 bytes that is not used up can be registered, asked for and, once there is a session,
  // answered; the session is then what was given.
  lemma AttemptsAreExact(s: Sessions, secret: ByteString, bytes: ByteString, now: int)
    ensures var tag := TagOf(secret);
            var open := |secret| == 32 && (tag in s ==> !s[tag].consumed);
            && (Registered(s, secret, now).Success? <==> open)
            && (Requested(s, secret, bytes, now).Success? <==> open)
            && (Responded(s, secret, bytes).Success? <==> open && tag in s)
            && (open ==>
                  && Registered(s, secret, now).value == s[tag := Session(secret, now, None, None, false)]
                  && PendingRequest(Registered(s, secret, now).value, tag) == None
                  && PendingRequest(Requested(s, secret, bytes, now).value, tag) == Some(bytes)
                  && ResponseFor(Requested(s, secret, bytes, now).value, tag) == None)
            && (open && tag in s ==> ResponseFor(Responded(s, secret, bytes).value, tag) == Some(bytes))
  {
  }

  lemma RefusalsAreExact(s: Sessions, secret: ByteString, bytes: ByteString, now: int)
    ensures var tag := TagOf(secret);
            var reason := if |secret| != 32 then BadSecretLength
                          else if tag !in s then UnknownSession else AlreadyConsumed;
            && (Registered(s, secret, now).Failure? ==> Registered(s, secret, now).error == reason)
            && (Requested(s, secret, bytes, now).Failure? ==> Requested(s, secret, bytes, now).error == reason)
            && (Responded(s, secret, bytes).Failure? ==> Responded(s, secret, bytes).error == reason)
  {
  }

  ghost predicate Shown(s: Sessions, secret: ByteString, request: ByteString, registeredAt: int) {
    var tag := TagOf(secret);
    tag in s && !s[tag].consumed && s[tag].request == Some(request) && s[tag].registeredAt == registeredAt
  }

  lemma {:induction false} StaysShown(s: Sessions, ops: seq<Op>, ttl: nat, secret: ByteString, request: ByteString,
                                      registeredAt: int)
    requires Shown(s, secret, request, registeredAt) && NotSweptIn(ops, registeredAt, ttl)
    requires forall i | 0 <= i < |ops| :: !About(ops[i], secret)
    ensures Shown(After(s, ops, ttl), secret, request, registeredAt)
    decreases |ops|
  {
    if ops != [] {
      assert !About(ops[0], secret);
      forall i | 0 <= i < |ops[1..]| ensures !About(ops[1..][i], secret) {
        assert ops[1..][i] == ops[i + 1];
      }
      StepStaysShown(s, ops[0], ttl, secret, request, registeredAt);
      StaysShown(Step(s, ops[0], ttl), ops[1..], ttl, secret, request, registeredAt);
    }
  }

  lemma StepStaysShown(s: Sessions, op: Op, ttl: nat, secret: ByteString, request: ByteString, registeredAt: int)
    requires Shown(s, secret, request, registeredAt) && !About(op, secret)
    requires op.Sweeping? ==> op.now <= registeredAt + ttl
    ensures Shown(Step(s, op, ttl), secret, request, registeredAt)
  {
  }

  // A request that was taken is what the inviter finds, and there is no response yet, until something
  // else is done with its secret or its session is swept.
  lemma RequestIsFound(s: Sessions, secret: ByteString, request: ByteString, now: int, ops: seq<Op>, ttl: nat)
    requires Requested(s, secret, request, now).Success?
    requires forall i | 0 <= i < |ops| :: !About(ops[i], secret)
    requires var tag := TagOf(secret); NotSweptIn(ops, if tag in s then s[tag].registeredAt else now, ttl)
    ensures var end := After(Requested(s, secret, request, now).value, ops, ttl);
            PendingRequest(end, TagOf(secret)) == Some(request) && ResponseFor(end, TagOf(secret)) == None
  {
    var tag := TagOf(secret);
    StaysShown(Requested(s, secret, request, now).value, ops, ttl, secret, request,
               if tag in s then s[tag].registeredAt else now);
  }

  // The sweep takes exactly the sessions whose time has passed.
  lemma SweepIsExact(s: Sessions, ttl: nat, now: int, tag: Tag)
    ensures tag in Swept(s, ttl, now) <==> tag in s && now <= s[tag].registeredAt + ttl
    ensures tag in Swept(s, ttl, now) ==> Swept(s, ttl, now)[tag] == s[tag]
  {
  }
}
