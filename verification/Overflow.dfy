/** That the room in the table of stored keys is needed: where there is not enough, a queue that
    the network can present makes the fetch throw a message away before its turn. */
module Overflow {
  import opened Crypto
  import opened Message
  import opened Log
  import opened SkippedKeys
  import opened TwoParty
  import opened Opening
  import opened Acceptance
  import opened Preservation
  import opened Reach
  import opened Fetch
  import opened Hearing
  import opened Draining
  import R = Ratchet
  import S = Session

  // ---------- a fetch that stops short ----------

  // A blob that is thrown away might as well not have been in the queue.
  lemma DroppedIsSkipped(m: Mail, blob: Blob, rest: seq<Blob>, env: Env)
    requires !m.halted && Take(m, blob, env).1 == Dropped
    ensures Drain(m, [blob] + rest, env) == Drain(Take(m, blob, env).0, rest, env)
    ensures Pass(m, [blob] + rest, env) == Pass(Take(m, blob, env).0, rest, env)
  {
    var n := Take(m, blob, env).0;
    assert ([blob] + rest)[1..] == rest;
    assert Pass(m, [blob] + rest, env) == Pass(n, rest, env);
    assert !n.halted;
  }

  // The drain ends at position i or before, and would if one more pass were made.
  predicate StopsAt(m: Mail, queue: seq<Blob>, env: Env, i: nat) {
    var s := Pass(m, queue, env);
    Drain(m, queue, env).disk.contact.lastRecvSeq <= i && Drain(s.mail, s.still, env).disk.contact.lastRecvSeq <= i
  }

  lemma DroppedInFront(m: Mail, blob: Blob, rest: seq<Blob>, env: Env, i: nat)
    requires !m.halted && Take(m, blob, env).1 == Dropped && StopsAt(Take(m, blob, env).0, rest, env, i)
    ensures StopsAt(m, [blob] + rest, env, i)
  {
    DroppedIsSkipped(m, blob, rest, env);
  }

  lemma AcceptedInFront(m: Mail, blob: Blob, rest: seq<Blob>, env: Env, i: nat)
    requires !m.halted && Take(m, blob, env).1 == Accepted && StopsAt(Take(m, blob, env).0, rest, env, i)
    ensures StopsAt(m, [blob] + rest, env, i)
  {
    var n := Take(m, blob, env).0;
    assert ([blob] + rest)[1..] == rest;
    assert Pass(m, [blob] + rest, env) == Pass(n, rest, env).(progressed := true);
  }

  // What was gathered from positions k to l, with i not to be had.
  lemma GatheredBefore(log: seq<Slot>, k: nat, got: seq<InnerMessage>, l: nat, more: seq<InnerMessage>,
                       queue: seq<Blob>, now: int, i: nat)
    requires Gathered(log, k, got, l, more, queue, now) && k <= i && !Takeable(log, i, queue, now)
    ensures l <= i
  {
  }

  // A queue without the message at position i.
  lemma StopsWithout(sys: System, r: Role, m: Mail, i: nat, queue: seq<Blob>, env: Env)
    requires Synced(sys, r, m) && Presentables(sys, queue) && sys.Get(r).contact.lastRecvSeq <= i
    requires !Takeable(sys.Get(Other(r)).log, i, queue, env.now)
    ensures StopsAt(m, queue, env, i)
  {
    var log, s := sys.Get(Other(r)).log, Pass(m, queue, env);
    NoRoomAsked(sys, r, m, queue);
    var next := DrainCollects(sys, r, m, queue, queue, queue, env, 0);
    GatheredBefore(log, sys.Get(r).contact.lastRecvSeq, m.got, next.Get(r).contact.lastRecvSeq,
                   Drain(m, queue, env).got, queue, env.now, i);
    var mid := PassDrains(sys, r, m, queue, queue, queue, env, 0);
    GatheredBefore(log, sys.Get(r).contact.lastRecvSeq, m.got, mid.Get(r).contact.lastRecvSeq, s.mail.got, queue,
                   env.now, i);
    StillAmong(m, queue, env);
    var end := DrainCollects(mid, r, s.mail, s.still, queue, queue, env, 0);
    GatheredBefore(log, mid.Get(r).contact.lastRecvSeq, s.mail.got, end.Get(r).contact.lastRecvSeq,
                   Drain(s.mail, s.still, env).got, queue, env.now, i);
    SavedPosition(next, r, Drain(m, queue, env));
    SavedPosition(end, r, Drain(s.mail, s.still, env));
  }

  // ---------- a forgery ----------

  function Forgery(key: KeyId, n: nat): Payload {
    var h := Header(key, 0, n);
    Payload(h, Box(Foreign(0), h, InnerMessage("", "", 0, 0, 0, Text(""))))
  }

  // It never opens.
  lemma ForgeryFails(c: S.Contact, base: ChainStart, key: KeyId, n: nat, now: int, k: KeyId)
    requires OnChain(c.ratchet, base) && InUse(c.ratchet, key) && n >= c.ratchet.recvN
    ensures S.DecryptInbound(c, Framed(Forgery(key, n)), now, k) == Failure(S.DecryptFailed)
  {
    var a := R.Align(c.ratchet, key, k);
    assert OnChain(a, base) && a.recvN == c.ratchet.recvN;
    SelectAhead(a, base, key, n);
  }

  // It takes the table as far as it says: where there was no room, there is then none for a
  // message at its place.
  lemma ForgeryFills(q: R.State, base: ChainStart, key: KeyId, n: nat)
    requires OnChain(q, base) && InUse(q, key) && n >= q.recvN && !Room(q.skipped.Keys, key, q.recvN, n)
    ensures var t := R.Leftover(q, Framed(Forgery(key, n))); !WithinGap(n - q.recvN, |t| + (n - q.recvN))
  {
    var t := R.Leftover(q, Framed(Forgery(key, n)));
    LeftoverInUse(q, base, Framed(Forgery(key, n)));
    if WithinGap(n - q.recvN, |q.skipped| + (n - q.recvN)) {
      if Adds(q.skipped, t, key, q.recvN, n) {
        AddsIds(q.skipped, t, key, q.recvN, n);
        assert |t| == |t.Keys|;
      }
    }
  }

  // ---------- the message at the top ----------

  // Slot i is one of the epoch being received, and there is no room for a queue that reaches it.
  ghost predicate NoRoom(sys: System, r: Role, i: nat) {
    && Later(sys, r, i) && Here(sys, r, i)
    && var q, h := sys.Get(r).contact.ratchet, SlotAt(sys, r, i).payload.header;
       !Room(q.skipped.Keys, h.dh, q.recvN, h.n)
  }

  lemma ForgeryAtTop(sys: System, r: Role, i: nat, now: int, k: KeyId)
    requires Inv(sys) && NoRoom(sys, r, i)
    ensures var q, h := sys.Get(r).contact.ratchet, SlotAt(sys, r, i).payload.header;
            var forged := Framed(Forgery(h.dh, h.n));
            && S.DecryptInbound(sys.Get(r).contact, forged, now, k) == Failure(S.DecryptFailed)
            && h.n >= q.recvN && !WithinGap(h.n - q.recvN, |R.Leftover(q, forged)| + (h.n - q.recvN))
  {
    var h, base := SlotAt(sys, r, i).payload.header, sys.schedule.Chain(RecvEpoch(sys.Get(r)));
    SeeSlot(sys, r, i);
    SeeSide(sys, r);
    IsHere(sys, r, i);
    ForgeryFails(sys.Get(r).contact, base, h.dh, h.n, now, k);
    ForgeryFills(sys.Get(r).contact.ratchet, base, h.dh, h.n);
  }

  lemma ForgeryIsDropped(sys: System, r: Role, m: Mail, i: nat, env: Env)
    requires Synced(sys, r, m) && NoRoom(sys, r, i)
    ensures var h := SlotAt(sys, r, i).payload.header;
            var forged := Framed(Forgery(h.dh, h.n));
            && Take(m, forged, env).1 == Dropped
            && var next, n := Heard(sys, r, m, forged, env), Take(m, forged, env).0;
               && Synced(next, r, n) && Stays(sys, next, r) && n.got == m.got && n.halted == m.halted
               && Later(next, r, i) && !InReach(next, r, i)
  {
    var h := SlotAt(sys, r, i).payload.header;
    var forged := Framed(Forgery(h.dh, h.n));
    ForgeryAtTop(sys, r, i, env.now, m.key);
    assert Presentable(sys, forged);
    TakeHears(sys, r, m, forged, env);
    StillHere(sys, r, m.contact, forged, env.now, m.key, i);
    assert Heard(sys, r, m, forged, env) == Apply(sys, Receive(r, forged, env.now, m.key));
  }

  lemma StillHere(sys: System, r: Role, c: S.Contact, blob: Blob, now: int, k: KeyId, i: nat)
    requires c == sys.Get(r).contact && S.DecryptInbound(c, blob, now, k).Failure?
    requires Later(sys, r, i) && Here(sys, r, i) && SlotAt(sys, r, i).payload.header.n >= c.ratchet.recvN
    requires var n, t := SlotAt(sys, r, i).payload.header.n - c.ratchet.recvN, R.Leftover(c.ratchet, blob);
             !WithinGap(n, |t| + n)
    ensures var next := Apply(sys, Receive(r, blob, now, k)); Later(next, r, i) && !InReach(next, r, i)
  {
    TrialLeaves(sys, r, blob, now, k);
    TrialIsReload(sys, r, blob, now, k);
  }

  lemma TopIsDropped(sys: System, r: Role, m: Mail, i: nat, env: Env)
    requires Synced(sys, r, m) && Later(sys, r, i) && !InReach(sys, r, i)
    requires env.now <= SlotAt(sys, r, i).payload.box.plaintext.validUntil
    ensures var blob := Framed(SlotAt(sys, r, i).payload);
            && Take(m, blob, env).1 == Dropped
            && var next, n := Heard(sys, r, m, blob, env), Take(m, blob, env).0;
               Synced(next, r, n) && Stays(sys, next, r) && n.got == m.got && n.halted == m.halted
  {
    var blob := Framed(SlotAt(sys, r, i).payload);
    TakeOutcome(sys, r, m, i, env);
    assert SealedIn(sys.Get(Other(r)).log, blob.payload.box);
    TakeHears(sys, r, m, blob, env);
  }

  // The forgery, the message and then anything else but the message: it is not collected.
  lemma MessageIsLost(sys: System, r: Role, m: Mail, i: nat, rest: seq<Blob>, env: Env)
    requires Synced(sys, r, m) && NoRoom(sys, r, i) && !m.halted && Presentables(sys, rest)
    requires env.now <= SlotAt(sys, r, i).payload.box.plaintext.validUntil
    requires Framed(SlotAt(sys, r, i).payload) !in rest
    ensures var p := SlotAt(sys, r, i).payload;
            StopsAt(m, [Framed(Forgery(p.header.dh, p.header.n))] + ([Framed(p)] + rest), env, i)
  {
    var p := SlotAt(sys, r, i).payload;
    var forged := Framed(Forgery(p.header.dh, p.header.n));
    ForgeryIsDropped(sys, r, m, i, env);
    var a, n := Heard(sys, r, m, forged, env), Take(m, forged, env).0;
    PresentablesStay(sys, a, r, rest);
    OutOfReachIsLost(a, r, n, i, rest, env);
    DroppedInFront(m, forged, [Framed(p)] + rest, env, i);
  }

  // A message out of reach, tried first.
  lemma OutOfReachIsLost(sys: System, r: Role, m: Mail, i: nat, rest: seq<Blob>, env: Env)
    requires Synced(sys, r, m) && Later(sys, r, i) && !InReach(sys, r, i) && !m.halted && Presentables(sys, rest)
    requires env.now <= SlotAt(sys, r, i).payload.box.plaintext.validUntil
    requires Framed(SlotAt(sys, r, i).payload) !in rest
    ensures StopsAt(m, [Framed(SlotAt(sys, r, i).payload)] + rest, env, i)
  {
    var top := Framed(SlotAt(sys, r, i).payload);
    TopIsDropped(sys, r, m, i, env);
    var b, o := Heard(sys, r, m, top, env), Take(m, top, env).0;
    PresentablesStay(sys, b, r, rest);
    StopsWithout(b, r, o, i, rest, env);
    DroppedInFront(m, top, rest, env, i);
  }

  lemma {:induction false} StopsBefore(log: seq<Slot>, k: nat, i: nat, queue: seq<Blob>, now: int)
    requires k <= i && !Takeable(log, i, queue, now)
    ensures RunEnd(log, k, queue, now) <= i
    decreases i - k
  {
    if k < i {
      StopsBefore(log, k + 1, i, queue, now);
    }
  }

  // ---------- exactly the queues that fit ----------

  // Every blob of the queue shows this header key and at most this number.
  ghost predicate UpTo(queue: seq<Blob>, key: KeyId, n: nat) {
    forall b | b in queue && b.Framed? :: b.payload.header.dh == key && b.payload.header.n <= n
  }

  // Under this header key, at most this number; under others, anything.
  ghost predicate KeyUpTo(queue: seq<Blob>, key: KeyId, n: nat) {
    forall b | b in queue && b.Framed? && b.payload.header.dh == key :: b.payload.header.n <= n
  }

  // The fetch gets as far as the queue's messages and the session's rekeying let it.
  ghost predicate CollectsRun(sys: System, r: Role, m: Mail, queue: seq<Blob>, env: Env) {
    Drain(m, queue, env).disk.contact.lastRecvSeq == ReadEnd(sys, r, m, queue, env).0
  }

  ghost predicate There(log: seq<Slot>, j: nat, now: int)
    requires j < |log|
  {
    log[j].Sent? && now <= log[j].payload.box.plaintext.validUntil
  }

  // The first position from k on whose message is missing or expired.
  ghost function Whole(log: seq<Slot>, k: nat, now: int): nat
    decreases |log| - k
  {
    if k < |log| && There(log, k, now) then Whole(log, k + 1, now) else k
  }

  // As far as any fetch can get: up to the first message that is missing or expired, or to where
  // rekeying ends it.
  ghost function Horizon(sys: System, r: Role, m: Mail, env: Env): nat {
    Stop(sys, r, m, Whole(sys.Get(Other(r)).log, sys.Get(r).contact.lastRecvSeq, env.now), env).0
  }

  lemma {:induction false} WholeIs(log: seq<Slot>, k: nat, now: int)
    ensures var end := Whole(log, k, now);
            && k <= end && (k <= |log| ==> end <= |log|)
            && (forall j: nat | k <= j < end :: j < |log| && There(log, j, now))
    decreases |log| - k
  {
    if k < |log| && There(log, k, now) {
      WholeIs(log, k + 1, now);
    }
  }

  lemma {:induction false} RunWithinWhole(log: seq<Slot>, k: nat, queue: seq<Blob>, now: int)
    ensures RunEnd(log, k, queue, now) <= Whole(log, k, now)
    decreases |log| - k
  {
    if Takeable(log, k, queue, now) {
      RunWithinWhole(log, k + 1, queue, now);
    } else {
      WholeIs(log, k, now);
    }
  }

  lemma ReadWithin(sys: System, r: Role, m: Mail, queue: seq<Blob>, env: Env)
    ensures ReadEnd(sys, r, m, queue, env).0 <= Horizon(sys, r, m, env)
  {
    var log, k := sys.Get(Other(r)).log, sys.Get(r).contact.lastRecvSeq;
    RunWithinWhole(log, k, queue, env.now);
    RekeyStopGrows(log, k, RunEnd(log, k, queue, env.now), Whole(log, k, env.now), SealsLeft(m.contact, env.now),
                   m.tried, env.refused);
  }

  lemma HorizonIs(sys: System, r: Role, m: Mail, env: Env)
    requires Inv(sys)
    ensures var log, k, end := sys.Get(Other(r)).log, sys.Get(r).contact.lastRecvSeq, Horizon(sys, r, m, env);
            k <= end <= |log| && forall j: nat | k <= j < end :: There(log, j, env.now)
  {
    var log, k := sys.Get(Other(r)).log, sys.Get(r).contact.lastRecvSeq;
    PositionInLog(sys, r);
    WholeIs(log, k, env.now);
    RekeyStopBounds(log, k, Whole(log, k, env.now), SealsLeft(m.contact, env.now), m.tried, env.refused);
  }

  // Before it nothing ends a fetch.
  lemma StopsPast(sys: System, r: Role, m: Mail, e: nat, env: Env)
    requires sys.Get(r).contact.lastRecvSeq <= e <= Horizon(sys, r, m, env)
    ensures Stop(sys, r, m, e, env).0 == e && (e < Horizon(sys, r, m, env) ==> !Stop(sys, r, m, e, env).1)
  {
    var log, k := sys.Get(Other(r)).log, sys.Get(r).contact.lastRecvSeq;
    if !m.halted {
      RekeyStopUpTo(log, k, e, Whole(log, k, env.now), SealsLeft(m.contact, env.now), m.tried, env.refused);
    }
  }

  // A queue whose messages reach past slot i, before the horizon, is to be read past it.
  lemma ReadsPast(sys: System, r: Role, m: Mail, i: nat, queue: seq<Blob>, env: Env)
    requires sys.Get(r).contact.lastRecvSeq <= i < Horizon(sys, r, m, env)
    requires RunEnd(sys.Get(Other(r)).log, sys.Get(r).contact.lastRecvSeq, queue, env.now) > i
    ensures ReadEnd(sys, r, m, queue, env).0 > i
  {
    var log, k := sys.Get(Other(r)).log, sys.Get(r).contact.lastRecvSeq;
    StopsPast(sys, r, m, i + 1, env);
    RekeyStopGrows(log, k, i + 1, RunEnd(log, k, queue, env.now), SealsLeft(m.contact, env.now), m.tried, env.refused);
  }

  // The messages from the next one on up to slot i are all there and unexpired.
  ghost predicate Unbroken(sys: System, r: Role, i: nat, now: int) {
    var log := sys.Get(Other(r)).log;
    forall j: nat | sys.Get(r).contact.lastRecvSeq <= j <= i < |log| ::
      log[j].Sent? && now <= log[j].payload.box.plaintext.validUntil
  }

  function Blobs(log: seq<Slot>, k: nat, i: nat): seq<Blob>
    decreases i
  {
    if i <= k || i > |log| || log[i - 1].Hole? then [] else Blobs(log, k, i - 1) + [Framed(log[i - 1].payload)]
  }

  lemma {:induction false} BlobsAre(log: seq<Slot>, k: nat, i: nat, b: Blob)
    requires k <= i <= |log| && forall j: nat | k <= j < i :: log[j].Sent?
    ensures b in Blobs(log, k, i) <==> exists j: nat :: k <= j < i && b == Framed(log[j].payload)
    decreases i
  {
    if k < i {
      BlobsAre(log, k, i - 1, b);
    }
  }

  lemma PlacesRise(first: nat, log: seq<Slot>, j: nat, i: nat)
    requires InOrder(first, log) && j < i < |log| && log[j].Sent? && log[i].Sent? && log[j].at.At? && log[i].at.At?
    ensures log[j].at.epoch <= log[i].at.epoch
    ensures log[j].at.epoch == log[i].at.epoch ==> log[j].at.n <= log[i].at.n
  {
    assert FitsAt(first, log, j) && FitsAt(first, log, i);
    CursorStep(first, log, j);
    CursorAdvances(first, log, j + 1, i);
  }

  lemma EarlierView(sys: System, r: Role, j: nat, i: nat)
    requires Later(sys, r, j) && Later(sys, r, i) && SlotView(sys, r, j) && SlotView(sys, r, i) && Here(sys, r, i)
    requires SlotAt(sys, r, j).at.At? ==>
               && SlotAt(sys, r, j).at.epoch <= SlotAt(sys, r, i).at.epoch
               && (SlotAt(sys, r, j).at.epoch == SlotAt(sys, r, i).at.epoch ==>
                     SlotAt(sys, r, j).at.n <= SlotAt(sys, r, i).at.n)
    ensures var h, g := SlotAt(sys, r, j).payload.header, SlotAt(sys, r, i).payload.header; h.dh == g.dh && h.n <= g.n
  {
  }

  // An earlier message of the run has the same header key and a number no higher.
  lemma EarlierIsHere(sys: System, r: Role, j: nat, i: nat)
    requires Inv(sys) && Later(sys, r, j) && Later(sys, r, i) && j < i && Here(sys, r, i)
    ensures var h, g := SlotAt(sys, r, j).payload.header, SlotAt(sys, r, i).payload.header; h.dh == g.dh && h.n <= g.n
    ensures SlotAt(sys, r, j).payload != SlotAt(sys, r, i).payload
  {
    SlotIsStamped(sys, r, j);
    SlotIsStamped(sys, r, i);
    SeeSlot(sys, r, j);
    SeeSlot(sys, r, i);
    SeeSide(sys, Other(r));
    if SlotAt(sys, r, j).at.At? {
      PlacesRise(First(Other(r)), sys.Get(Other(r)).log, j, i);
    }
    EarlierView(sys, r, j, i);
  }

  ghost function Earlier(sys: System, r: Role, i: nat): seq<Blob> {
    Blobs(sys.Get(Other(r)).log, sys.Get(r).contact.lastRecvSeq, i)
  }

  lemma EarlierShows(sys: System, r: Role, i: nat, now: int)
    requires Inv(sys) && Later(sys, r, i) && Unbroken(sys, r, i, now)
    ensures Framed(SlotAt(sys, r, i).payload) !in Earlier(sys, r, i) && Presentables(sys, Earlier(sys, r, i))
    ensures forall b | b in Earlier(sys, r, i) ::
              exists j: nat :: j < i && Later(sys, r, j) && b == Framed(SlotAt(sys, r, j).payload)
  {
    var log, k := sys.Get(Other(r)).log, sys.Get(r).contact.lastRecvSeq;
    forall b | b in Earlier(sys, r, i)
      ensures b != Framed(SlotAt(sys, r, i).payload) && Presentable(sys, b)
      ensures exists j: nat :: j < i && Later(sys, r, j) && b == Framed(SlotAt(sys, r, j).payload)
    {
      BlobsAre(log, k, i, b);
      var j: nat :| k <= j < i && b == Framed(log[j].payload);
      assert Later(sys, r, j);
      SlotIsStamped(sys, r, j);
      SlotIsStamped(sys, r, i);
      assert SealedIn(log, b.payload.box);
    }
  }

  lemma EarlierUpTo(sys: System, r: Role, i: nat, now: int)
    requires Inv(sys) && Later(sys, r, i) && Here(sys, r, i) && Unbroken(sys, r, i, now)
    ensures var h := SlotAt(sys, r, i).payload.header; UpTo(Earlier(sys, r, i), h.dh, h.n)
  {
    var h := SlotAt(sys, r, i).payload.header;
    EarlierShows(sys, r, i, now);
    forall b | b in Earlier(sys, r, i) && b.Framed? ensures b.payload.header.dh == h.dh && b.payload.header.n <= h.n {
      var j: nat :| j < i && Later(sys, r, j) && b == Framed(SlotAt(sys, r, j).payload);
      EarlierIsHere(sys, r, j, i);
    }
  }

  // The queue that loses the message, and the run it breaks.
  ghost function Losing(sys: System, r: Role, i: nat): seq<Blob>
    requires Later(sys, r, i)
  {
    var p := SlotAt(sys, r, i).payload;
    [Framed(Forgery(p.header.dh, p.header.n))] + ([Framed(p)] + Earlier(sys, r, i))
  }

  lemma RunReaches(sys: System, r: Role, i: nat, now: int)
    requires Later(sys, r, i) && Unbroken(sys, r, i, now)
    ensures RunEnd(sys.Get(Other(r)).log, sys.Get(r).contact.lastRecvSeq, Losing(sys, r, i), now) > i
  {
    var log, k, queue := sys.Get(Other(r)).log, sys.Get(r).contact.lastRecvSeq, Losing(sys, r, i);
    forall j: nat | k <= j < i + 1 ensures Takeable(log, j, queue, now) {
      if j < i {
        BlobsAre(log, k, i, Framed(log[j].payload));
      }
    }
    RunEndIs(log, k, i + 1, queue, now);
  }

  lemma LosingIsPresentable(sys: System, r: Role, i: nat, now: int)
    requires Inv(sys) && Later(sys, r, i) && Here(sys, r, i) && Unbroken(sys, r, i, now)
    ensures var h := SlotAt(sys, r, i).payload.header;
            Presentables(sys, Losing(sys, r, i)) && UpTo(Losing(sys, r, i), h.dh, h.n)
  {
    var p := SlotAt(sys, r, i).payload;
    EarlierShows(sys, r, i, now);
    EarlierUpTo(sys, r, i, now);
    assert SealedIn(sys.Get(Other(r)).log, p.box);
    assert Presentable(sys, Framed(p)) && Presentable(sys, Framed(Forgery(p.header.dh, p.header.n)));
  }

  lemma NoRoomLoses(sys: System, r: Role, m: Mail, i: nat, env: Env)
    requires Synced(sys, r, m) && NoRoom(sys, r, i) && i < Horizon(sys, r, m, env)
    ensures !CollectsRun(sys, r, m, Losing(sys, r, i), env)
  {
    UnbrokenTo(sys, r, m, i, env);
    EarlierShows(sys, r, i, env.now);
    MessageIsLost(sys, r, m, i, Earlier(sys, r, i), env);
    RunReaches(sys, r, i, env.now);
    ReadsPast(sys, r, m, i, Losing(sys, r, i), env);
  }

  lemma UnbrokenTo(sys: System, r: Role, m: Mail, i: nat, env: Env)
    requires Inv(sys) && sys.Get(r).contact.lastRecvSeq <= i < Horizon(sys, r, m, env)
    ensures Unbroken(sys, r, i, env.now) && Later(sys, r, i) && There(sys.Get(Other(r)).log, i, env.now) && !m.halted
  {
    var log := sys.Get(Other(r)).log;
    HorizonIs(sys, r, m, env);
    forall j: nat | sys.Get(r).contact.lastRecvSeq <= j <= i
      ensures log[j].Sent? && env.now <= log[j].payload.box.plaintext.validUntil
    {
      assert There(log, j, env.now);
    }
  }

  lemma RoomForBelow(t: set<R.SkipId>, key: KeyId, recvN: nat, top: nat, n: nat, high: nat)
    requires Room(t, key, recvN, high) && top <= high && n <= high
    ensures RoomFor(t, key, recvN, top, n)
  {
    assert Ids(key, recvN, top) <= Ids(key, recvN, high);
    SmallerSet(t + Ids(key, recvN, top), t + Ids(key, recvN, high));
  }

  // A queue under one header key that fits.
  lemma FitIsRoomy(sys: System, r: Role, i: nat, queue: seq<Blob>, end: nat)
    requires Inv(sys) && Later(sys, r, i) && Here(sys, r, i)
    requires var q, h := sys.Get(r).contact.ratchet, SlotAt(sys, r, i).payload.header;
             UpTo(queue, h.dh, h.n) && Room(q.skipped.Keys, h.dh, q.recvN, h.n)
    ensures Roomy(sys, r, sys.Get(r).contact.ratchet.skipped, queue, end)
  {
    var q, h := sys.Get(r).contact.ratchet, SlotAt(sys, r, i).payload.header;
    SeeSlot(sys, r, i);
    SeeSide(sys, r);
    OneKeyIsHere(sys, r, i, queue, end);
    TopIsReached(queue, h.dh, h.n);
    forall j: nat | HereIn(sys, r, queue, end, j)
      ensures RoomFor(q.skipped.Keys, h.dh, q.recvN, Top(queue, h.dh), SlotAt(sys, r, j).payload.header.n)
    {
      RoomForBelow(q.skipped.Keys, h.dh, q.recvN, Top(queue, h.dh), SlotAt(sys, r, j).payload.header.n, h.n);
    }
  }

  lemma OneKeyIsHere(sys: System, r: Role, i: nat, queue: seq<Blob>, end: nat)
    requires Inv(sys) && Later(sys, r, i) && Here(sys, r, i)
    requires var h := SlotAt(sys, r, i).payload.header; UpTo(queue, h.dh, h.n)
    ensures !OtherKeys(queue, SlotAt(sys, r, i).payload.header.dh)
    ensures forall j: nat :: !AheadIn(sys, r, queue, end, j)
  {
    SeeSlot(sys, r, i);
    if j: nat :| AheadIn(sys, r, queue, end, j) {
      SeeSlot(sys, r, j);
      IsAhead(sys, r, j);
    }
  }

  // Room for more messages is room for fewer.
  lemma RoomyBelow(sys: System, r: Role, table: map<R.SkipId, MessageKey>, queue: seq<Blob>, e: nat, end: nat)
    requires Roomy(sys, r, table, queue, end) && e <= end
    ensures Roomy(sys, r, table, queue, e)
  {
    var q, f, keys := sys.Get(r).contact.ratchet, RecvEpoch(sys.Get(r)), sys.schedule.keys;
    forall i: nat | HereIn(sys, r, queue, e, i)
      ensures RoomAt(q.peerKey, q.recvN, table.Keys, keys[f], queue, SlotAt(sys, r, i).payload.header.n)
    {
      assert HereIn(sys, r, queue, end, i);
    }
    if f + 2 < |keys| {
      RoomAheadBelow(sys, r, queue, keys[f + 2], e, end);
    }
  }

  lemma RoomAheadBelow(sys: System, r: Role, queue: seq<Blob>, key: KeyId, e: nat, end: nat)
    requires RoomAhead(sys, r, queue, key, end) && e <= end
    ensures RoomAhead(sys, r, queue, key, e)
  {
    forall i: nat | AheadIn(sys, r, queue, e, i)
      ensures RoomPast(sys, r, queue, key, e, SlotAt(sys, r, i).payload.header.n)
    {
      assert AheadIn(sys, r, queue, end, i);
      RoomPastBelow(sys, r, queue, key, e, end, SlotAt(sys, r, i).payload.header.n);
    }
  }

  lemma RoomPastBelow(sys: System, r: Role, queue: seq<Blob>, key: KeyId, e: nat, end: nat, n: nat)
    requires RoomPast(sys, r, queue, key, end, n) && e <= end
    ensures RoomPast(sys, r, queue, key, e, n)
  {
    forall t: nat | AheadText(sys, r, queue, e, t)
      ensures RoomAfter(SlotAt(sys, r, t).payload.header.n, key, queue, n)
    {
      assert AheadText(sys, r, queue, end, t);
    }
  }

  lemma RoomCollects(sys: System, r: Role, m: Mail, queue: seq<Blob>, env: Env)
    requires Synced(sys, r, m) && m.contact == m.disk.contact && Presentables(sys, queue)
    requires Roomy(sys, r, sys.Get(r).contact.ratchet.skipped, queue, Horizon(sys, r, m, env))
    ensures CollectsRun(sys, r, m, queue, env)
  {
    var end := ReadEnd(sys, r, m, queue, env).0;
    ReadWithin(sys, r, m, queue, env);
    RoomyBelow(sys, r, sys.Get(r).contact.ratchet.skipped, queue, end, Horizon(sys, r, m, env));
    var next := FetchEnds(sys, r, m, queue, env);
  }

  // Take a message of the epoch being received that a fetch can get to. Every queue that the
  // network can present, under its header key and up to its number, is collected as far as it goes,
  // in whatever order, if and only if there is room for that number in the table.
  lemma RoomIsExact(sys: System, r: Role, m: Mail, i: nat, env: Env)
    requires Synced(sys, r, m) && m.contact == m.disk.contact
    requires Later(sys, r, i) && Here(sys, r, i) && i < Horizon(sys, r, m, env)
    ensures var q, h := sys.Get(r).contact.ratchet, SlotAt(sys, r, i).payload.header;
            (forall queue | Presentables(sys, queue) && UpTo(queue, h.dh, h.n) :: CollectsRun(sys, r, m, queue, env))
            <==> Room(q.skipped.Keys, h.dh, q.recvN, h.n)
  {
    var q, h := sys.Get(r).contact.ratchet, SlotAt(sys, r, i).payload.header;
    if Room(q.skipped.Keys, h.dh, q.recvN, h.n) {
      forall queue | Presentables(sys, queue) && UpTo(queue, h.dh, h.n) ensures CollectsRun(sys, r, m, queue, env) {
        FitIsRoomy(sys, r, i, queue, Horizon(sys, r, m, env));
        RoomCollects(sys, r, m, queue, env);
      }
    } else {
      UnbrokenTo(sys, r, m, i, env);
      LosingIsPresentable(sys, r, i, env.now);
      NoRoomLoses(sys, r, m, i, env);
    }
  }
}
