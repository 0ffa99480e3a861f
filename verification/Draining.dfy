/** What a fetch collects: for any order of a mailbox's blobs, with anything the network can
    add, a beginning of the unbroken run of messages that follows the last one accepted; and if the
    queue leaves room in the table of stored keys, all of it up to the first text whose receipt a
    session due for rekeying will not seal. */
module Draining {
  import opened Crypto
  import opened Message
  import opened Log
  import opened TwoParty
  import opened Acceptance
  import opened Reach
  import opened SkippedKeys
  import opened Fetch
  import opened Hearing
  import R = Ratchet

  // ---------- a queue of blobs ----------

  ghost predicate Presentables(sys: System, queue: seq<Blob>) {
    forall b <- queue :: Presentable(sys, b)
  }

  ghost predicate Takeable(log: seq<Slot>, i: nat, queue: seq<Blob>, now: int) {
    i < |log| && log[i].Sent? && Framed(log[i].payload) in queue
    && now <= log[i].payload.box.plaintext.validUntil
  }

  // ---------- what passes add up to ----------

  // Positions k..l-1 were takeable, and their messages were added, in order.
  ghost predicate Gathered(log: seq<Slot>, k: nat, got: seq<InnerMessage>, l: nat, more: seq<InnerMessage>,
                           queue: seq<Blob>, now: int)
  {
    && k <= l && (forall j: nat | k <= j < l :: Takeable(log, j, queue, now))
    && more == got + Texts(log, k, l)
  }

  // The other side untouched; this one's log at most longer.
  ghost predicate Onward(a: System, b: System, r: Role) {
    b.Get(Other(r)) == a.Get(Other(r)) && a.Get(r).log <= b.Get(r).log
  }

  ghost predicate Collected(sys: System, r: Role, m: Mail, next: System, n: Mail, queue: seq<Blob>, env: Env) {
    && Synced(next, r, n) && Onward(sys, next, r) && OnCourse(sys, r, m, next, n, env)
    && Gathered(sys.Get(Other(r)).log, sys.Get(r).contact.lastRecvSeq, m.got, next.Get(r).contact.lastRecvSeq, n.got,
                queue, env.now)
  }

  // ---------- where rekeying ends a fetch ----------

  // Where the reading of messages k..end-1, in order, comes to an end: there, or right after the
  // first text whose receipt the session will not seal, and whether that ends the fetch.
  function RekeyStop(log: seq<Slot>, k: nat, end: nat, left: Option<nat>, tried: nat, refused: set<nat>): (nat, bool)
    decreases end - k
  {
    if k >= end || k >= |log| || log[k].Hole? then (k, false)
    else if !log[k].payload.box.plaintext.kind.Text? then RekeyStop(log, k + 1, end, left, tried, refused)
    else if left == Some(0) then (k + 1, true)
    else RekeyStop(log, k + 1, end, SealsAfter(left, tried in refused), tried + 1, refused)
  }

  ghost function Stop(sys: System, r: Role, m: Mail, end: nat, env: Env): (nat, bool) {
    var k := sys.Get(r).contact.lastRecvSeq;
    if m.halted then (k, true)
    else RekeyStop(sys.Get(Other(r)).log, k, end, SealsLeft(m.contact, env.now), m.tried, env.refused)
  }

  // What is still to come ends where it would have ended from the beginning.
  ghost predicate OnCourse(sys: System, r: Role, m: Mail, next: System, n: Mail, env: Env) {
    forall end: nat | end >= next.Get(r).contact.lastRecvSeq :: Stop(next, r, n, end, env) == Stop(sys, r, m, end, env)
  }

  lemma OnCourseThen(a: System, b: System, c: System, r: Role, m: Mail, n: Mail, o: Mail, env: Env)
    requires OnCourse(a, r, m, b, n, env) && OnCourse(b, r, n, c, o, env)
    requires c.Get(r).contact.lastRecvSeq >= b.Get(r).contact.lastRecvSeq
    ensures OnCourse(a, r, m, c, o, env)
  {
    forall end: nat | end >= c.Get(r).contact.lastRecvSeq ensures Stop(c, r, o, end, env) == Stop(a, r, m, end, env) {
      assert Stop(b, r, n, end, env) == Stop(a, r, m, end, env);
    }
  }

  // One more message read.
  lemma OneOnCourse(sys: System, r: Role, m: Mail, next: System, n: Mail, env: Env)
    requires !m.halted && HasNext(sys, r) && Answers(m, n, NextSlot(sys, r).payload.box.plaintext.kind, env)
    requires next.Get(Other(r)) == sys.Get(Other(r))
    requires next.Get(r).contact.lastRecvSeq == sys.Get(r).contact.lastRecvSeq + 1
    ensures OnCourse(sys, r, m, next, n, env)
  {
  }

  lemma {:induction false} RekeyStopBounds(log: seq<Slot>, k: nat, end: nat, left: Option<nat>, tried: nat,
                                           refused: set<nat>)
    ensures var s := RekeyStop(log, k, end, left, tried, refused);
            && k <= s.0 && (k <= end ==> s.0 <= end) && (s.1 ==> k < s.0)
    decreases end - k
  {
    if k < end && k < |log| && log[k].Sent? {
      if !log[k].payload.box.plaintext.kind.Text? {
        RekeyStopBounds(log, k + 1, end, left, tried, refused);
      } else if left != Some(0) {
        RekeyStopBounds(log, k + 1, end, SealsAfter(left, tried in refused), tried + 1, refused);
      }
    }
  }

  // Up to any earlier place the reading gets, and if there is more to come it is not ended there.
  lemma {:induction false} RekeyStopUpTo(log: seq<Slot>, k: nat, e: nat, end: nat, left: Option<nat>, tried: nat,
                                         refused: set<nat>)
    requires k <= e <= RekeyStop(log, k, end, left, tried, refused).0
    ensures RekeyStop(log, k, e, left, tried, refused).0 == e
    ensures e < RekeyStop(log, k, end, left, tried, refused).0 ==> !RekeyStop(log, k, e, left, tried, refused).1
    ensures e == RekeyStop(log, k, end, left, tried, refused).0 ==>
              RekeyStop(log, k, e, left, tried, refused) == RekeyStop(log, k, end, left, tried, refused)
    decreases end - k
  {
    if k < e {
      if !log[k].payload.box.plaintext.kind.Text? {
        RekeyStopUpTo(log, k + 1, e, end, left, tried, refused);
      } else if left != Some(0) {
        RekeyStopUpTo(log, k + 1, e, end, SealsAfter(left, tried in refused), tried + 1, refused);
      }
    } else {
      RekeyStopBounds(log, k, end, left, tried, refused);
    }
  }

  // A longer run does not end earlier.
  lemma {:induction false} RekeyStopGrows(log: seq<Slot>, k: nat, e: nat, end: nat, left: Option<nat>, tried: nat,
                                          refused: set<nat>)
    requires e <= end
    ensures RekeyStop(log, k, e, left, tried, refused).0 <= RekeyStop(log, k, end, left, tried, refused).0
    decreases end - k
  {
    if k < e && k < |log| && log[k].Sent? {
      if !log[k].payload.box.plaintext.kind.Text? {
        RekeyStopGrows(log, k + 1, e, end, left, tried, refused);
      } else if left != Some(0) {
        RekeyStopGrows(log, k + 1, e, end, SealsAfter(left, tried in refused), tried + 1, refused);
      }
    } else {
      RekeyStopBounds(log, k, end, left, tried, refused);
    }
  }

  // A session that has enough receipts left for every message reads them all; a classical one always.
  lemma {:induction false} EnoughSeals(log: seq<Slot>, k: nat, end: nat, left: Option<nat>, tried: nat,
                                       refused: set<nat>)
    requires k <= end <= |log| && (forall j: nat | k <= j < end :: log[j].Sent?)
    requires left.None? || left.value >= end - k
    ensures RekeyStop(log, k, end, left, tried, refused) == (end, false)
    decreases end - k
  {
    if k < end {
      if log[k].payload.box.plaintext.kind.Text? {
        EnoughSeals(log, k + 1, end, SealsAfter(left, tried in refused), tried + 1, refused);
      } else {
        EnoughSeals(log, k + 1, end, left, tried, refused);
      }
    }
  }

  // ---------- gathering ----------

  // The messages of slots from..upto-1.
  function Texts(log: seq<Slot>, from: nat, upto: nat): seq<InnerMessage>
    decreases upto
  {
    if upto <= from || upto > |log| || log[upto - 1].Hole? then []
    else Texts(log, from, upto - 1) + [log[upto - 1].payload.box.plaintext]
  }

  lemma {:induction false} TextsJoin(log: seq<Slot>, a: nat, b: nat, c: nat)
    requires a <= b <= c <= |log| && forall j: nat | b <= j < c :: log[j].Sent?
    ensures Texts(log, a, b) + Texts(log, b, c) == Texts(log, a, c)
    decreases c
  {
    if b < c {
      TextsJoin(log, a, b, c - 1);
    }
  }

  lemma GatheredThen(log: seq<Slot>, k: nat, a: seq<InnerMessage>, l: nat, b: seq<InnerMessage>, p: nat,
                     c: seq<InnerMessage>,
                     queue: seq<Blob>, now: int)
    requires Gathered(log, k, a, l, b, queue, now) && Gathered(log, l, b, p, c, queue, now) && k <= |log|
    ensures Gathered(log, k, a, p, c, queue, now)
  {
    assert l > k ==> Takeable(log, l - 1, queue, now);
    assert p > l ==> Takeable(log, p - 1, queue, now);
    forall j: nat | l <= j < p ensures log[j].Sent? {
      assert Takeable(log, j, queue, now);
    }
    TextsJoin(log, k, l, p);
  }

  lemma GatherOne(log: seq<Slot>, k: nat, got: seq<InnerMessage>, queue: seq<Blob>, now: int)
    requires Takeable(log, k, queue, now)
    ensures Gathered(log, k, got, k + 1, got + [log[k].payload.box.plaintext], queue, now)
  {
    assert Texts(log, k, k) == [];
    assert Texts(log, k, k + 1) == [] + [log[k].payload.box.plaintext];
  }

  lemma MatchCollects(sys: System, r: Role, m: Mail, next: System, n: Mail, accepted: bool, queue: seq<Blob>, env: Env)
    requires Matches(sys, r, m, next, n, accepted, env) && !m.halted
    requires accepted ==> Takeable(sys.Get(Other(r)).log, sys.Get(r).contact.lastRecvSeq, queue, env.now)
    ensures Collected(sys, r, m, next, n, queue, env)
  {
    var log, k := sys.Get(Other(r)).log, sys.Get(r).contact.lastRecvSeq;
    assert m.got + Texts(log, k, k) == m.got;
    if accepted {
      GatherOne(log, k, m.got, queue, env.now);
      OneOnCourse(sys, r, m, next, n, env);
    }
  }

  lemma TakeCollects(sys: System, r: Role, m: Mail, blob: Blob, env: Env, queue: seq<Blob>)
    requires Synced(sys, r, m) && !m.halted && Presentable(sys, blob) && blob in queue
    ensures Collected(sys, r, m, Heard(sys, r, m, blob, env), Take(m, blob, env).0, queue, env)
  {
    TakeHears(sys, r, m, blob, env);
    var accepted := Take(m, blob, env).1 == Accepted;
    MatchCollects(sys, r, m, Heard(sys, r, m, blob, env), Take(m, blob, env).0, accepted, queue, env);
  }

  // ---------- one pass ----------

  // The messages of the queue, before that position of the log, whose turn may still come are in
  // pending.
  ghost predicate Holds(sys: System, r: Role, queue: seq<Blob>, pending: seq<Blob>, now: int, end: nat) {
    var log := sys.Get(Other(r)).log;
    forall i: nat | sys.Get(r).contact.lastRecvSeq <= i < end && Takeable(log, i, queue, now) ::
      Framed(log[i].payload) in pending
  }

  // A message still to come is accepted if it is next, deferred if it is later, and thrown
  // away if it is out of reach when tried, with the keys stored by then.
  lemma TakeOutcome(sys: System, r: Role, m: Mail, i: nat, env: Env)
    requires Synced(sys, r, m) && Later(sys, r, i)
             && env.now <= SlotAt(sys, r, i).payload.box.plaintext.validUntil
    ensures Take(m, Framed(SlotAt(sys, r, i).payload), env).1 ==
            if !InReach(sys, r, i) then Dropped else if i == sys.Get(r).contact.lastRecvSeq then Accepted else Deferred
  {
    if i == sys.Get(r).contact.lastRecvSeq {
      SeeNext(sys, r);
      SlotOpens(sys, r, i, m.key);
      NextIsAccepted(sys, r, env.now, m.key);
    } else {
      LaterIsDeferred(sys, r, i, env.now, m.key);
    }
  }

  // What is known between passes, and between the blobs of one: there is room for the messages
  // before that position of the log, and goes on being. At 0 none is asked for.
  ghost predicate Drainable(sys: System, r: Role, m: Mail, all: seq<Blob>, end: nat) {
    Synced(sys, r, m) && Presentables(sys, all) && BothRoomy(sys, r, m, all, end)
  }

  lemma NoRoomAsked(sys: System, r: Role, m: Mail, all: seq<Blob>)
    requires Synced(sys, r, m) && Presentables(sys, all)
    ensures Drainable(sys, r, m, all, 0)
  {
    SeeSide(sys, r);
  }

  lemma PresentablesStay(a: System, b: System, r: Role, queue: seq<Blob>)
    requires Onward(a, b, r) && Presentables(a, queue)
    ensures Presentables(b, queue)
  {
    forall blob | blob in queue ensures Presentable(b, blob) {
      assert Presentable(a, blob);
      if blob.Framed? && SealedIn(a.Get(r).log, blob.payload.box) {
        var i :| 0 <= i < |a.Get(r).log| && a.Get(r).log[i].Sent? && a.Get(r).log[i].payload.box == blob.payload.box;
        assert b.Get(r).log[i] == a.Get(r).log[i];
        assert SealedIn(b.Get(r).log, blob.payload.box);
      }
    }
  }

  lemma TakeDrains(sys: System, r: Role, m: Mail, blob: Blob, queue: seq<Blob>, all: seq<Blob>, env: Env, end: nat)
    requires Drainable(sys, r, m, all, end) && !m.halted && blob in queue && Among(queue, all)
    ensures var next, n := Heard(sys, r, m, blob, env), Take(m, blob, env).0;
            Drainable(next, r, n, all, end) && Collected(sys, r, m, next, n, queue, env)
    ensures Take(m, blob, env).1 != Accepted ==> Stays(sys, Heard(sys, r, m, blob, env), r)
  {
    TakeHears(sys, r, m, blob, env);
    TakeCollects(sys, r, m, blob, env, queue);
    PresentablesStay(sys, Heard(sys, r, m, blob, env), r, all);
    TakeKeepsBoth(sys, r, m, blob, env, all, end);
  }

  // A takeable message that is tried is accepted if it is next, and else deferred.
  lemma TakeableIsTaken(sys: System, r: Role, m: Mail, all: seq<Blob>, env: Env, end: nat, i: nat)
    requires Drainable(sys, r, m, all, end) && sys.Get(r).contact.lastRecvSeq <= i < end
    requires Takeable(sys.Get(Other(r)).log, i, all, env.now)
    ensures Take(m, Framed(sys.Get(Other(r)).log[i].payload), env).1 ==
            if i == sys.Get(r).contact.lastRecvSeq then Accepted else Deferred
  {
    assert Later(sys, r, i) && Framed(SlotAt(sys, r, i).payload) in all;
    RoomReaches(sys, r, i, all, end);
    TakeOutcome(sys, r, m, i, env);
  }

  lemma CollectedThen(a: System, b: System, c: System, r: Role, m: Mail, n: Mail, o: Mail, queue: seq<Blob>, env: Env)
    requires Collected(a, r, m, b, n, queue, env) && Collected(b, r, n, c, o, queue, env)
    requires a.Get(r).contact.lastRecvSeq <= |a.Get(Other(r)).log|
    ensures Collected(a, r, m, c, o, queue, env)
  {
    OnCourseThen(a, b, c, r, m, n, o, env);
    GatheredThen(a.Get(Other(r)).log, a.Get(r).contact.lastRecvSeq, m.got, b.Get(r).contact.lastRecvSeq, n.got,
                 c.Get(r).contact.lastRecvSeq, o.got, queue, env.now);
  }

  lemma PositionInLog(sys: System, r: Role)
    requires Inv(sys)
    ensures sys.Get(r).contact.lastRecvSeq <= |sys.Get(Other(r)).log|
  {
    SeeSide(sys, r);
  }

  // A takeable message still to come after a blob was tried is that blob only if it was deferred.
  lemma FirstIsKept(sys: System, r: Role, m: Mail, blob: Blob, all: seq<Blob>, env: Env, end: nat, i: nat)
    requires Drainable(sys, r, m, all, end) && blob in all
    requires end > i >= Heard(sys, r, m, blob, env).Get(r).contact.lastRecvSeq
    requires Takeable(sys.Get(Other(r)).log, i, all, env.now) && blob == Framed(sys.Get(Other(r)).log[i].payload)
    ensures Take(m, blob, env).1 == Deferred
  {
    TakeHears(sys, r, m, blob, env);
    TakeableIsTaken(sys, r, m, all, env, end, i);
  }

  // The next message is not to be had before that position of the log.
  ghost predicate NoneBefore(sys: System, r: Role, queue: seq<Blob>, now: int, end: nat) {
    var k := sys.Get(r).contact.lastRecvSeq;
    k < end ==> !Takeable(sys.Get(Other(r)).log, k, queue, now)
  }

  // What one pass does to the history, and that with room it loses nothing whose turn may still
  // come.
  ghost predicate PassOk(sys: System, r: Role, m: Mail, pending: seq<Blob>, queue: seq<Blob>, all: seq<Blob>, env: Env,
                         end: nat, next: System)
  {
    var s := Pass(m, pending, env);
    && Drainable(next, r, s.mail, all, end) && Collected(sys, r, m, next, s.mail, queue, env)
    && (!s.progressed ==> Stays(sys, next, r))
    && (!s.mail.halted ==> Holds(next, r, pending, s.still, env.now, end))
    && (!s.mail.halted && !s.progressed ==> NoneBefore(sys, r, pending, env.now, end))
  }

  lemma PassKeeps(sys: System, r: Role, m: Mail, pending: seq<Blob>, queue: seq<Blob>, all: seq<Blob>, env: Env,
                  end: nat, next: System)
    requires Drainable(sys, r, m, all, end) && Among(pending, queue) && Among(queue, all) && pending != []
             && !m.halted
    requires PassOk(Heard(sys, r, m, pending[0], env), r, Take(m, pending[0], env).0, pending[1..], queue, all, env,
                    end, next)
    ensures var s := Pass(m, pending, env);
            Drainable(next, r, s.mail, all, end) && Collected(sys, r, m, next, s.mail, queue, env)
    ensures !Pass(m, pending, env).progressed ==> Stays(sys, next, r)
  {
    TakeDrains(sys, r, m, pending[0], queue, all, env, end);
    PositionInLog(sys, r);
    CollectedThen(sys, Heard(sys, r, m, pending[0], env), next, r, m, Take(m, pending[0], env).0,
                  Pass(m, pending, env).mail, queue, env);
  }

  lemma PassHolds(sys: System, r: Role, m: Mail, pending: seq<Blob>, queue: seq<Blob>, all: seq<Blob>, env: Env,
                  end: nat, next: System)
    requires Drainable(sys, r, m, all, end) && Among(pending, queue) && Among(queue, all) && pending != [] && !m.halted
    requires PassOk(Heard(sys, r, m, pending[0], env), r, Take(m, pending[0], env).0, pending[1..], queue, all, env,
                    end, next)
    requires !Pass(m, pending, env).mail.halted
    ensures Holds(next, r, pending, Pass(m, pending, env).still, env.now, end)
  {
    var log := next.Get(Other(r)).log;
    TakeDrains(sys, r, m, pending[0], queue, all, env, end);
    var heard := Heard(sys, r, m, pending[0], env);
    assert log == sys.Get(Other(r)).log && next.Get(r).contact.lastRecvSeq >= heard.Get(r).contact.lastRecvSeq;
    forall i: nat | next.Get(r).contact.lastRecvSeq <= i < end && Takeable(log, i, pending, env.now)
      ensures Framed(log[i].payload) in Pass(m, pending, env).still
    {
      if Framed(log[i].payload) in pending[1..] {
        assert Takeable(log, i, pending[1..], env.now);
      } else {
        assert Takeable(log, i, all, env.now);
        FirstIsKept(sys, r, m, pending[0], all, env, end, i);
      }
    }
  }

  lemma PassStuck(sys: System, r: Role, m: Mail, pending: seq<Blob>, queue: seq<Blob>, all: seq<Blob>, env: Env,
                  end: nat, next: System)
    requires Drainable(sys, r, m, all, end) && Among(pending, queue) && Among(queue, all) && pending != [] && !m.halted
    requires PassOk(Heard(sys, r, m, pending[0], env), r, Take(m, pending[0], env).0, pending[1..], queue, all, env,
                    end, next)
    requires !Pass(m, pending, env).progressed && !Pass(m, pending, env).mail.halted
    ensures NoneBefore(sys, r, pending, env.now, end)
  {
    var log, k := sys.Get(Other(r)).log, sys.Get(r).contact.lastRecvSeq;
    TakeDrains(sys, r, m, pending[0], queue, all, env, end);
    if k < end && Takeable(log, k, pending, env.now) && Framed(log[k].payload) !in pending[1..] {
      assert Takeable(log, k, all, env.now);
      TakeableIsTaken(sys, r, m, all, env, end, k);
    }
  }

  lemma {:induction false} PassDrains(sys: System, r: Role, m: Mail, pending: seq<Blob>, queue: seq<Blob>,
                                      all: seq<Blob>, env: Env, end: nat) returns (next: System)
    requires Drainable(sys, r, m, all, end) && Among(pending, queue) && Among(queue, all)
    ensures PassOk(sys, r, m, pending, queue, all, env, end, next)
    decreases |pending|
  {
    next := sys;
    if m.halted || pending == [] {
      NothingTried(sys, r, m, queue, env);
    } else {
      TakeDrains(sys, r, m, pending[0], queue, all, env, end);
      next := PassDrains(Heard(sys, r, m, pending[0], env), r, Take(m, pending[0], env).0, pending[1..], queue, all,
                         env, end);
      PassKeeps(sys, r, m, pending, queue, all, env, end, next);
      if !Pass(m, pending, env).mail.halted {
        PassHolds(sys, r, m, pending, queue, all, env, end, next);
        if !Pass(m, pending, env).progressed {
          PassStuck(sys, r, m, pending, queue, all, env, end, next);
        }
      }
    }
  }

  lemma NothingTried(sys: System, r: Role, m: Mail, queue: seq<Blob>, env: Env)
    requires Synced(sys, r, m)
    ensures Collected(sys, r, m, sys, m, queue, env)
  {
    assert m.got + [] == m.got;
  }

  // ---------- the whole drain ----------

  lemma HoldsThen(a: System, b: System, r: Role, queue: seq<Blob>, pending: seq<Blob>, still: seq<Blob>, now: int,
                  end: nat)
    requires Holds(a, r, queue, pending, now, end) && Holds(b, r, pending, still, now, end)
    requires b.Get(Other(r)) == a.Get(Other(r)) && b.Get(r).contact.lastRecvSeq >= a.Get(r).contact.lastRecvSeq
    ensures Holds(b, r, queue, still, now, end)
  {
    var log := b.Get(Other(r)).log;
    forall i: nat | b.Get(r).contact.lastRecvSeq <= i < end && Takeable(log, i, queue, now)
      ensures Framed(log[i].payload) in still
    {
      assert Takeable(log, i, pending, now);
    }
  }

  // What a drain leaves: with room, nothing of the queue can be taken any more.
  ghost predicate Drained(sys: System, r: Role, m: Mail, next: System, n: Mail, queue: seq<Blob>, env: Env, end: nat) {
    Collected(sys, r, m, next, n, queue, env) && (!n.halted ==> NoneBefore(next, r, queue, env.now, end))
  }

  lemma NothingHeld(sys: System, r: Role, queue: seq<Blob>, pending: seq<Blob>, now: int, end: nat)
    requires Holds(sys, r, queue, pending, now, end) && NoneBefore(sys, r, pending, now, end)
    ensures NoneBefore(sys, r, queue, now, end)
  {
  }

  lemma DrainedThen(a: System, b: System, c: System, r: Role, m: Mail, n: Mail, o: Mail, queue: seq<Blob>, env: Env,
                    end: nat)
    requires Collected(a, r, m, b, n, queue, env) && Drained(b, r, n, c, o, queue, env, end)
    requires a.Get(r).contact.lastRecvSeq <= |a.Get(Other(r)).log|
    ensures Drained(a, r, m, c, o, queue, env, end)
  {
    CollectedThen(a, b, c, r, m, n, o, queue, env);
  }

  lemma DrainEnds(sys: System, r: Role, m: Mail, pending: seq<Blob>, queue: seq<Blob>, env: Env, end: nat)
    requires Synced(sys, r, m) && (m.halted || pending == [])
    requires !m.halted ==> Holds(sys, r, queue, pending, env.now, end)
    ensures Drained(sys, r, m, sys, m, queue, env, end)
  {
    NothingTried(sys, r, m, queue, env);
  }

  // The pass that changes nothing is the last one.
  lemma DrainStops(sys: System, mid: System, r: Role, m: Mail, pending: seq<Blob>, queue: seq<Blob>, all: seq<Blob>,
                   env: Env, end: nat)
    requires PassOk(sys, r, m, pending, queue, all, env, end, mid) && !Pass(m, pending, env).progressed
    requires !m.halted ==> Holds(sys, r, queue, pending, env.now, end)
    requires Pass(m, pending, env).mail.halted || !m.halted
    ensures Drained(sys, r, m, mid, Pass(m, pending, env).mail, queue, env, end)
  {
    if !Pass(m, pending, env).mail.halted {
      NothingHeld(sys, r, queue, pending, env.now, end);
    }
  }

  // Blobs of one queue are tried while those of others (all) keep their room.
  lemma {:induction false} DrainCollects(sys: System, r: Role, m: Mail, pending: seq<Blob>, queue: seq<Blob>,
                                         all: seq<Blob>, env: Env, end: nat)
    returns (next: System)
    requires Drainable(sys, r, m, all, end) && Among(pending, queue) && Among(queue, all)
    requires !m.halted ==> Holds(sys, r, queue, pending, env.now, end)
    ensures Drainable(next, r, Drain(m, pending, env), all, end)
            && Drained(sys, r, m, next, Drain(m, pending, env), queue, env, end)
    decreases |pending|
  {
    if m.halted || pending == [] {
      next := sys;
      DrainEnds(sys, r, m, pending, queue, env, end);
    } else {
      var s := Pass(m, pending, env);
      next := PassDrains(sys, r, m, pending, queue, all, env, end);
      if s.progressed {
        var mid := next;
        StillAmong(m, pending, env);
        if !s.mail.halted {
          HoldsThen(sys, mid, r, queue, pending, s.still, env.now, end);
        }
        next := DrainCollects(mid, r, s.mail, s.still, queue, all, env, end);
        PositionInLog(sys, r);
        DrainedThen(sys, mid, next, r, m, s.mail, Drain(m, pending, env), queue, env, end);
      } else {
        DrainStops(sys, next, r, m, pending, queue, all, env, end);
      }
    }
  }

  // The end of the unbroken run of takeable messages from position k.
  ghost function RunEnd(log: seq<Slot>, k: nat, queue: seq<Blob>, now: int): nat
    decreases |log| - k
  {
    if Takeable(log, k, queue, now) then RunEnd(log, k + 1, queue, now) else k
  }

  lemma {:induction false} RunEndIs(log: seq<Slot>, k: nat, l: nat, queue: seq<Blob>, now: int)
    requires k <= l && forall j: nat | k <= j < l :: Takeable(log, j, queue, now)
    ensures l <= RunEnd(log, k, queue, now)
    ensures !Takeable(log, l, queue, now) ==> RunEnd(log, k, queue, now) == l
    decreases l - k
  {
    if k < l {
      assert Takeable(log, k, queue, now);
      RunEndIs(log, k + 1, l, queue, now);
    } else {
      RunEndGrows(log, k, queue, now);
    }
  }

  lemma {:induction false} RunEndGrows(log: seq<Slot>, k: nat, queue: seq<Blob>, now: int)
    ensures k <= RunEnd(log, k, queue, now)
    decreases |log| - k
  {
    if Takeable(log, k, queue, now) {
      RunEndGrows(log, k + 1, queue, now);
    }
  }

  lemma GatheredEnds(log: seq<Slot>, k: nat, l: nat, got: seq<InnerMessage>, queue: seq<Blob>, now: int)
    requires Gathered(log, k, [], l, got, queue, now)
    ensures k <= l <= RunEnd(log, k, queue, now) && got == Texts(log, k, l)
  {
    RunEndIs(log, k, l, queue, now);
  }

  lemma SavedPosition(sys: System, r: Role, m: Mail)
    requires Synced(sys, r, m)
    ensures m.disk.contact.lastRecvSeq == sys.Get(r).contact.lastRecvSeq
  {
  }

  lemma EndsAt(sys: System, r: Role, m: Mail, next: System, n: Mail, queue: seq<Blob>, env: Env)
    requires Collected(sys, r, m, next, n, queue, env) && m.got == []
    ensures var log, k, l := sys.Get(Other(r)).log, sys.Get(r).contact.lastRecvSeq, n.disk.contact.lastRecvSeq;
            l == next.Get(r).contact.lastRecvSeq && k <= l <= RunEnd(log, k, queue, env.now)
            && n.got == Texts(log, k, l)
  {
    SavedPosition(next, r, n);
    GatheredEnds(sys.Get(Other(r)).log, sys.Get(r).contact.lastRecvSeq, next.Get(r).contact.lastRecvSeq, n.got, queue,
                 env.now);
  }

  // For a mailbox in any order, with repeats, forgeries and reflections among the blobs, whatever
  // keys are stored: the drain collects a beginning of the unbroken, unexpired run that starts at
  // the next sequence number, in order, each once.
  lemma FetchIsInOrder(sys: System, r: Role, m: Mail, queue: seq<Blob>, env: Env)
    requires Synced(sys, r, m) && Presentables(sys, queue) && m.got == []
    ensures var log, k, e := sys.Get(Other(r)).log, sys.Get(r).contact.lastRecvSeq, Drain(m, queue, env);
            && k <= e.disk.contact.lastRecvSeq <= RunEnd(log, k, queue, env.now)
            && e.got == Texts(log, k, e.disk.contact.lastRecvSeq)
  {
    NoRoomAsked(sys, r, m, queue);
    var next := DrainCollects(sys, r, m, queue, queue, queue, env, 0);
    EndsAt(sys, r, m, next, Drain(m, queue, env), queue, env);
  }

  // The run of the queue's messages, as far as the session answers them.
  ghost function ReadEnd(sys: System, r: Role, m: Mail, queue: seq<Blob>, env: Env): (nat, bool) {
    Stop(sys, r, m, RunEnd(sys.Get(Other(r)).log, sys.Get(r).contact.lastRecvSeq, queue, env.now), env)
  }

  // Nothing more to take, or the fetch ended: this is where the run was to end.
  lemma StopsThere(sys: System, r: Role, m: Mail, next: System, n: Mail, queue: seq<Blob>, env: Env)
    requires Drained(sys, r, m, next, n, queue, env, ReadEnd(sys, r, m, queue, env).0)
    ensures (next.Get(r).contact.lastRecvSeq, n.halted) == ReadEnd(sys, r, m, queue, env)
  {
    var log, k, l := sys.Get(Other(r)).log, sys.Get(r).contact.lastRecvSeq, next.Get(r).contact.lastRecvSeq;
    var end := RunEnd(log, k, queue, env.now);
    RunEndIs(log, k, l, queue, env.now);
    assert Stop(next, r, n, end, env) == Stop(sys, r, m, end, env);
    if !n.halted {
      RekeyStopBounds(log, l, end, SealsLeft(n.contact, env.now), n.tried, env.refused);
    }
  }

  lemma FetchEnds(sys: System, r: Role, m: Mail, queue: seq<Blob>, env: Env) returns (next: System)
    requires Drainable(sys, r, m, queue, ReadEnd(sys, r, m, queue, env).0)
    ensures Collected(sys, r, m, next, Drain(m, queue, env), queue, env)
    ensures (Drain(m, queue, env).disk.contact.lastRecvSeq, Drain(m, queue, env).halted) ==
              ReadEnd(sys, r, m, queue, env)
  {
    next := DrainCollects(sys, r, m, queue, queue, queue, env, ReadEnd(sys, r, m, queue, env).0);
    StopsThere(sys, r, m, next, Drain(m, queue, env), queue, env);
    SavedPosition(next, r, Drain(m, queue, env));
  }

  // If moreover the queue leaves room in the table of stored keys for the messages of that run, it
  // collects all of them; but right after the first text whose receipt the session will not seal,
  // as it is due for rekeying, the fetch ends.
  lemma FetchConfluence(sys: System, r: Role, m: Mail, queue: seq<Blob>, env: Env)
    requires Drainable(sys, r, m, queue, ReadEnd(sys, r, m, queue, env).0) && m.got == []
    ensures var e := Drain(m, queue, env);
            && (e.disk.contact.lastRecvSeq, e.halted) == ReadEnd(sys, r, m, queue, env)
            && e.got == Texts(sys.Get(Other(r)).log, sys.Get(r).contact.lastRecvSeq, e.disk.contact.lastRecvSeq)
  {
    var next := FetchEnds(sys, r, m, queue, env);
    EndsAt(sys, r, m, next, Drain(m, queue, env), queue, env);
  }

  lemma RunIsAnswered(log: seq<Slot>, k: nat, queue: seq<Blob>, now: int, left: Option<nat>, tried: nat,
                      refused: set<nat>)
    requires k <= |log| && (left.None? || left.value >= RunEnd(log, k, queue, now) - k)
    ensures RekeyStop(log, k, RunEnd(log, k, queue, now), left, tried, refused) == (RunEnd(log, k, queue, now), false)
  {
    var end := RunEnd(log, k, queue, now);
    RunIsTakeable(log, k, queue, now);
    forall j: nat | k <= j < end ensures log[j].Sent? {
      assert Takeable(log, j, queue, now);
    }
    EnoughSeals(log, k, end, left, tried, refused);
  }

  // So a classical session, and a hybrid one that may still seal as many receipts as the run has
  // messages, collects the whole run.
  lemma WholeRun(sys: System, r: Role, m: Mail, queue: seq<Blob>, env: Env)
    requires var log, k := sys.Get(Other(r)).log, sys.Get(r).contact.lastRecvSeq;
             var left, end := SealsLeft(m.contact, env.now), RunEnd(log, k, queue, env.now);
             Drainable(sys, r, m, queue, end) && m.got == [] && !m.halted && (left.None? || left.value >= end - k)
    ensures var log, k, e := sys.Get(Other(r)).log, sys.Get(r).contact.lastRecvSeq, Drain(m, queue, env);
            var end := RunEnd(log, k, queue, env.now);
            e.disk.contact.lastRecvSeq == end && !e.halted && e.got == Texts(log, k, end)
  {
    var log, k := sys.Get(Other(r)).log, sys.Get(r).contact.lastRecvSeq;
    var end := RunEnd(log, k, queue, env.now);
    PositionInLog(sys, r);
    RunIsAnswered(log, k, queue, env.now, SealsLeft(m.contact, env.now), m.tried, env.refused);
    FetchConfluence(sys, r, m, queue, env);
  }

  lemma {:induction false} RunIsTakeable(log: seq<Slot>, k: nat, queue: seq<Blob>, now: int)
    ensures var end := RunEnd(log, k, queue, now);
            && k <= end && (k <= |log| ==> end <= |log|)
            && (forall j: nat | k <= j < end :: Takeable(log, j, queue, now))
    decreases |log| - k
  {
    if Takeable(log, k, queue, now) {
      RunIsTakeable(log, k + 1, queue, now);
    }
  }

  // ---------- the order of the queue ----------

  ghost predicate SameBlobs(queue: seq<Blob>, other: seq<Blob>) {
    forall b :: b in queue <==> b in other
  }

  lemma TopGrows(queue: seq<Blob>, other: seq<Blob>, key: KeyId)
    requires SameBlobs(queue, other)
    ensures Top(queue, key) <= Top(other, key) && OtherTop(queue, key) <= OtherTop(other, key)
  {
    forall b | b in queue && b.Framed? && b.payload.header.dh == key ensures b.payload.header.n <= Top(other, key) {
      TopBounds(other, key, b);
    }
    TopIsReached(queue, key, Top(other, key));
    forall b | b in queue && b.Framed? && b.payload.header.dh != key
      ensures FirstCount(b.payload.header) <= OtherTop(other, key)
    {
      OtherTopBounds(other, key, b);
    }
    OtherTopIsReached(queue, key, OtherTop(other, key));
  }

  lemma SameTop(queue: seq<Blob>, other: seq<Blob>, key: KeyId)
    requires SameBlobs(queue, other)
    ensures Top(queue, key) == Top(other, key) && OtherTop(queue, key) == OtherTop(other, key)
    ensures OtherKeys(queue, key) == OtherKeys(other, key)
  {
    TopGrows(queue, other, key);
    TopGrows(other, queue, key);
  }

  lemma {:induction false} SameIds(queue: seq<Blob>, other: seq<Blob>)
    requires SameBlobs(queue, other)
    ensures AllIds(queue) == AllIds(other)
  {
    forall b | b in queue && b.Framed? ensures Ids(b.payload.header.dh, 0, b.payload.header.n) <= AllIds(other) {
      AllIdsHas(other, b);
    }
    AllIdsWithin(queue, AllIds(other));
    forall b | b in other && b.Framed? ensures Ids(b.payload.header.dh, 0, b.payload.header.n) <= AllIds(queue) {
      AllIdsHas(queue, b);
    }
    AllIdsWithin(other, AllIds(queue));
  }

  lemma SameRoomAt(queue: seq<Blob>, other: seq<Blob>, peer: Option<KeyId>, recvN: nat, table: set<R.SkipId>,
                   key: KeyId, n: nat)
    requires SameBlobs(queue, other) && RoomAt(peer, recvN, table, key, queue, n)
    ensures RoomAt(peer, recvN, table, key, other, n)
  {
    SameTop(queue, other, key);
    SameIds(queue, other);
  }

  lemma SameRoomHere(sys: System, r: Role, table: map<R.SkipId, MessageKey>, queue: seq<Blob>, other: seq<Blob>,
                     key: KeyId, end: nat)
    requires SameBlobs(queue, other) && RoomHere(sys, r, table, queue, key, end)
    ensures RoomHere(sys, r, table, other, key, end)
  {
    var q := sys.Get(r).contact.ratchet;
    forall i: nat | HereIn(sys, r, other, end, i)
      ensures RoomAt(q.peerKey, q.recvN, table.Keys, key, other, SlotAt(sys, r, i).payload.header.n)
    {
      assert HereIn(sys, r, queue, end, i);
      SameRoomAt(queue, other, q.peerKey, q.recvN, table.Keys, key, SlotAt(sys, r, i).payload.header.n);
    }
  }

  lemma SameRoomPast(sys: System, r: Role, queue: seq<Blob>, other: seq<Blob>, key: KeyId, end: nat, n: nat)
    requires SameBlobs(queue, other) && RoomPast(sys, r, queue, key, end, n)
    ensures RoomPast(sys, r, other, key, end, n)
  {
    forall t: nat | AheadText(sys, r, other, end, t)
      ensures RoomAfter(SlotAt(sys, r, t).payload.header.n, key, other, n)
    {
      assert AheadText(sys, r, queue, end, t);
      SameRoomAfter(queue, other, SlotAt(sys, r, t).payload.header.n, key, n);
    }
  }

  lemma SameRoomAfter(queue: seq<Blob>, other: seq<Blob>, t: nat, key: KeyId, n: nat)
    requires SameBlobs(queue, other) && RoomAfter(t, key, queue, n)
    ensures RoomAfter(t, key, other, n)
  {
    SameRoomAt(queue, other, Some(key), t + 1, Ids(key, 0, t), key, n);
  }

  lemma SameRoomAhead(sys: System, r: Role, queue: seq<Blob>, other: seq<Blob>, key: KeyId, end: nat)
    requires SameBlobs(queue, other) && RoomAhead(sys, r, queue, key, end)
    ensures RoomAhead(sys, r, other, key, end)
  {
    forall i: nat | AheadIn(sys, r, other, end, i)
      ensures RoomPast(sys, r, other, key, end, SlotAt(sys, r, i).payload.header.n)
    {
      assert AheadIn(sys, r, queue, end, i);
      SameRoomPast(sys, r, queue, other, key, end, SlotAt(sys, r, i).payload.header.n);
    }
  }

  lemma SameRoom(sys: System, r: Role, table: map<R.SkipId, MessageKey>, queue: seq<Blob>, other: seq<Blob>, end: nat)
    requires SameBlobs(queue, other) && Roomy(sys, r, table, queue, end)
    ensures Roomy(sys, r, table, other, end)
  {
    var f, keys := RecvEpoch(sys.Get(r)), sys.schedule.keys;
    SameRoomHere(sys, r, table, queue, other, keys[f], end);
    if f + 2 < |keys| {
      SameRoomAhead(sys, r, queue, other, keys[f + 2], end);
    }
  }

  // Where there is room, the order in which the mailbox lists its blobs, and how often, makes no
  // difference.
  lemma OrderIsImmaterial(sys: System, r: Role, m: Mail, queue: seq<Blob>, other: seq<Blob>, env: Env)
    requires Drainable(sys, r, m, queue, ReadEnd(sys, r, m, queue, env).0) && m.got == [] && SameBlobs(queue, other)
    ensures var d, e := Drain(m, queue, env), Drain(m, other, env);
            d.got == e.got && d.halted == e.halted && d.disk.contact.lastRecvSeq == e.disk.contact.lastRecvSeq
  {
    var end := ReadEnd(sys, r, m, queue, env).0;
    SameRoom(sys, r, m.contact.ratchet.skipped, queue, other, end);
    SameRoom(sys, r, m.disk.contact.ratchet.skipped, queue, other, end);
    SameRun(sys.Get(Other(r)).log, sys.Get(r).contact.lastRecvSeq, queue, other, env.now);
    FetchConfluence(sys, r, m, queue, env);
    FetchConfluence(sys, r, m, other, env);
  }

  lemma {:induction false} SameRun(log: seq<Slot>, k: nat, queue: seq<Blob>, other: seq<Blob>, now: int)
    requires SameBlobs(queue, other)
    ensures RunEnd(log, k, queue, now) == RunEnd(log, k, other, now)
    decreases |log| - k
  {
    if Takeable(log, k, queue, now) {
      SameRun(log, k + 1, queue, other, now);
    }
  }
}
