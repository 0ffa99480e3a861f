/** Texts alone, listed newest first: a fetch collects them all and leaves behind the keys of the
    positions it tried too early, and the next fetch of as many loses one for want of room. */
module Reversed {
  import opened Crypto
  import opened Message
  import opened Log
  import opened SkippedKeys
  import opened TwoParty
  import opened Opening
  import opened Acceptance
  import opened Reach
  import opened Fetch
  import opened Hearing
  import opened Draining
  import opened Overflow
  import Floods
  import R = Ratchet
  import Runs
  import S = Session

  // ---------- two messages out of order ----------

  lemma PassedCount(q: R.State, base: ChainStart, p: Payload)
    requires OnChain(q, base) && InUse(q, p.header.dh) && p.header.n >= q.recvN
    requires WithinGap(p.header.n - q.recvN, |q.skipped| + (p.header.n - q.recvN))
    ensures |R.Leftover(q, Framed(p))| == |q.skipped.Keys + Ids(p.header.dh, q.recvN, p.header.n)|
  {
    var t := R.Leftover(q, Framed(p));
    LeftoverInUse(q, base, Framed(p));
    AddsIds(q.skipped, t, p.header.dh, q.recvN, p.header.n);
    assert |t| == |t.Keys|;
  }

  // A message tried before its turn, within reach.
  lemma EarlyIsDeferred(sys: System, r: Role, m: Mail, i: nat, env: Env)
    requires Synced(sys, r, m) && Later(sys, r, i) && InReach(sys, r, i) && i > sys.Get(r).contact.lastRecvSeq
    ensures var blob := Framed(SlotAt(sys, r, i).payload);
            && S.DecryptInbound(m.contact, blob, env.now, m.key).Failure? && Take(m, blob, env).1 == Deferred
            && var next, n := Apply(sys, Receive(r, blob, env.now, m.key)), Take(m, blob, env).0;
               && Heard(sys, r, m, blob, env) == next
               && Synced(next, r, n) && Stays(sys, next, r) && n.got == m.got && n.halted == m.halted
  {
    var blob := Framed(SlotAt(sys, r, i).payload);
    LaterIsDeferred(sys, r, i, env.now, m.key);
    assert SealedIn(sys.Get(Other(r)).log, blob.payload.box);
    TakeHears(sys, r, m, blob, env);
  }

  // What stands in the way of the message before it.
  ghost predicate Crowded(sys: System, r: Role, i: nat) {
    && i > 0 && Later(sys, r, i) && Later(sys, r, i - 1) && Here(sys, r, i) && Here(sys, r, i - 1)
    && var q, h := sys.Get(r).contact.ratchet, SlotAt(sys, r, i).payload.header;
       var g := SlotAt(sys, r, i - 1).payload.header;
       && h.n == g.n + 1 && g.n >= q.recvN
       && |q.skipped.Keys + Ids(h.dh, q.recvN, h.n)| + (g.n - q.recvN) > R.MAX_SKIPPED_KEYS
  }

  lemma CrowdedTable(sys: System, r: Role, i: nat)
    requires Inv(sys) && Crowded(sys, r, i) && InReach(sys, r, i)
    ensures var q := sys.Get(r).contact.ratchet;
            var n := SlotAt(sys, r, i - 1).payload.header.n - q.recvN;
            !WithinGap(n, |R.Leftover(q, Framed(SlotAt(sys, r, i).payload))| + n)
  {
    SeeSlot(sys, r, i);
    SeeSide(sys, r);
    PassedCount(sys.Get(r).contact.ratchet, sys.schedule.Chain(RecvEpoch(sys.Get(r))), SlotAt(sys, r, i).payload);
  }

  // One message is tried a position ahead of another, and takes the table so far that there is no
  // room to try that one.
  lemma SecondIsOut(sys: System, next: System, r: Role, m: Mail, i: nat, env: Env)
    requires Synced(sys, r, m) && Crowded(sys, r, i) && InReach(sys, r, i)
    requires S.DecryptInbound(m.contact, Framed(SlotAt(sys, r, i).payload), env.now, m.key).Failure?
    requires next == Apply(sys, Receive(r, Framed(SlotAt(sys, r, i).payload), env.now, m.key))
    ensures Later(next, r, i - 1) && !InReach(next, r, i - 1)
  {
    CrowdedTable(sys, r, i);
    CrowdedStays(sys, r, m.contact, i, env.now, m.key);
  }

  lemma CrowdedStays(sys: System, r: Role, c: S.Contact, i: nat, now: int, k: KeyId)
    requires c == sys.Get(r).contact && Crowded(sys, r, i)
    requires S.DecryptInbound(c, Framed(SlotAt(sys, r, i).payload), now, k).Failure?
    requires var q := sys.Get(r).contact.ratchet;
             var n := SlotAt(sys, r, i - 1).payload.header.n - q.recvN;
             !WithinGap(n, |R.Leftover(q, Framed(SlotAt(sys, r, i).payload))| + n)
    ensures var next := Apply(sys, Receive(r, Framed(SlotAt(sys, r, i).payload), now, k));
            Later(next, r, i - 1) && !InReach(next, r, i - 1)
  {
    StillHere(sys, r, c, Framed(SlotAt(sys, r, i).payload), now, k, i - 1);
  }

  // The pass in which the first is kept and the second thrown away.
  lemma KeptAndDropped(m: Mail, a: Blob, b: Blob, rest: seq<Blob>, env: Env)
    requires !m.halted && Take(m, a, env).1 == Deferred && !Take(m, a, env).0.halted
    requires Take(Take(m, a, env).0, b, env).1 == Dropped
    ensures var o := Take(Take(m, a, env).0, b, env).0;
            var s, rested := Pass(m, [a] + ([b] + rest), env), Pass(o, rest, env);
            s.mail == rested.mail && s.still == [a] + rested.still && s.progressed == rested.progressed
  {
    assert ([a] + ([b] + rest))[1..] == [b] + rest && ([b] + rest)[1..] == rest;
    var n := Take(m, a, env).0;
    assert Pass(n, [b] + rest, env) == Pass(Take(n, b, env).0, rest, env);
  }

  // What the whole drain then collects is of the other blobs.
  lemma RestIsCollected(sys: System, r: Role, m: Mail, a: Blob, b: Blob, rest: seq<Blob>, env: Env, mid: System)
    requires !m.halted && Take(m, a, env).1 == Deferred && Take(Take(m, a, env).0, b, env).1 == Dropped
    requires var n := Take(m, a, env).0;
             var o := Take(n, b, env).0;
             !n.halted && Synced(mid, r, o) && Stays(sys, mid, r) && o.got == m.got == []
    requires Inv(sys) && Presentables(sys, [a] + rest)
    ensures var log, k := sys.Get(Other(r)).log, sys.Get(r).contact.lastRecvSeq;
            Drain(m, [a] + ([b] + rest), env).disk.contact.lastRecvSeq <= RunEnd(log, k, [a] + rest, env.now)
  {
    var o, queue, log := Take(Take(m, a, env).0, b, env).0, [a] + rest, sys.Get(Other(r)).log;
    KeptAndDropped(m, a, b, rest, env);
    PresentablesStay(sys, mid, r, queue);
    NoRoomAsked(mid, r, o, queue);
    var after := PassDrains(mid, r, o, rest, queue, queue, env, 0);
    var rested := Pass(o, rest, env);
    if rested.progressed {
      StillAmong(o, rest, env);
      var next := DrainCollects(after, r, rested.mail, [a] + rested.still, queue, queue, env, 0);
      PositionInLog(mid, r);
      CollectedThen(mid, after, next, r, o, rested.mail, Drain(rested.mail, [a] + rested.still, env), queue, env);
      EndsAt(mid, r, o, next, Drain(rested.mail, [a] + rested.still, env), queue, env);
    } else {
      EndsAt(mid, r, o, after, rested.mail, queue, env);
    }
  }

  ghost predicate FreshSlot(sys: System, r: Role, i: nat, now: int) {
    Later(sys, r, i) && now <= SlotAt(sys, r, i).payload.box.plaintext.validUntil
  }

  ghost function BlobAt(sys: System, r: Role, i: nat): Blob
    requires Later(sys, r, i)
  {
    Framed(SlotAt(sys, r, i).payload)
  }

  lemma FirstIsLost(sys: System, r: Role, m: Mail, i: nat, rest: seq<Blob>, env: Env)
    requires Synced(sys, r, m) && FreshSlot(sys, r, i, env.now) && !InReach(sys, r, i) && m.got == [] && !m.halted
    requires Presentables(sys, rest) && BlobAt(sys, r, i) !in rest
    ensures Drain(m, [BlobAt(sys, r, i)] + rest, env).disk.contact.lastRecvSeq <= i
  {
    var a := BlobAt(sys, r, i);
    TopIsDropped(sys, r, m, i, env);
    DroppedIsSkipped(m, a, rest, env);
    PresentablesStay(sys, Heard(sys, r, m, a, env), r, rest);
    FetchIsInOrder(Heard(sys, r, m, a, env), r, Take(m, a, env).0, rest, env);
    StopsBefore(sys.Get(Other(r)).log, sys.Get(r).contact.lastRecvSeq, i, rest, env.now);
  }

  lemma SecondIsLost(sys: System, r: Role, m: Mail, i: nat, rest: seq<Blob>, env: Env)
    requires Synced(sys, r, m) && Crowded(sys, r, i) && InReach(sys, r, i) && m.got == [] && !m.halted
    requires i > sys.Get(r).contact.lastRecvSeq && FreshSlot(sys, r, i - 1, env.now)
    requires Presentables(sys, [BlobAt(sys, r, i)] + rest)
    requires BlobAt(sys, r, i - 1) !in [BlobAt(sys, r, i)] + rest
    ensures Drain(m, [BlobAt(sys, r, i)] + ([BlobAt(sys, r, i - 1)] + rest), env).disk.contact.lastRecvSeq < i
  {
    var a, b := BlobAt(sys, r, i), BlobAt(sys, r, i - 1);
    EarlyIsDeferred(sys, r, m, i, env);
    var next, n := Heard(sys, r, m, a, env), Take(m, a, env).0;
    SecondIsOut(sys, next, r, m, i, env);
    TopIsDropped(next, r, n, i - 1, env);
    RestIsCollected(sys, r, m, a, b, rest, env, Heard(next, r, n, b, env));
    StopsBefore(sys.Get(Other(r)).log, sys.Get(r).contact.lastRecvSeq, i - 1, [a] + rest, env.now);
  }

  lemma PresentTwo(sys: System, r: Role, i: nat, rest: seq<Blob>)
    requires Later(sys, r, i) && Presentables(sys, rest)
    ensures Presentables(sys, [BlobAt(sys, r, i)] + rest)
  {
    assert SealedIn(sys.Get(Other(r)).log, BlobAt(sys, r, i).payload.box);
  }

  lemma NeitherIsInRest(a: Blob, b: Blob, rest: seq<Blob>)
    requires a != b && a !in rest && b !in rest
    ensures a !in [b] + rest && b !in [a] + rest
  {
  }

  lemma InReverse(sys: System, r: Role, i: nat, rest: seq<Blob>)
    requires Inv(sys) && Crowded(sys, r, i) && Presentables(sys, rest)
    requires BlobAt(sys, r, i) !in rest && BlobAt(sys, r, i - 1) !in rest
    ensures Presentables(sys, [BlobAt(sys, r, i)] + rest) && Presentables(sys, [BlobAt(sys, r, i - 1)] + rest)
    ensures BlobAt(sys, r, i) !in [BlobAt(sys, r, i - 1)] + rest && BlobAt(sys, r, i - 1) !in [BlobAt(sys, r, i)] + rest
  {
    EarlierIsHere(sys, r, i - 1, i);
    PresentTwo(sys, r, i, rest);
    PresentTwo(sys, r, i - 1, rest);
    NeitherIsInRest(BlobAt(sys, r, i), BlobAt(sys, r, i - 1), rest);
  }

  // So a queue that lists a message and then the one before it loses one of the two.
  lemma OneIsLost(sys: System, r: Role, m: Mail, i: nat, rest: seq<Blob>, env: Env)
    requires Synced(sys, r, m) && Crowded(sys, r, i) && m.got == [] && !m.halted && i > sys.Get(r).contact.lastRecvSeq
    requires FreshSlot(sys, r, i, env.now) && FreshSlot(sys, r, i - 1, env.now) && Presentables(sys, rest)
    requires BlobAt(sys, r, i) !in rest && BlobAt(sys, r, i - 1) !in rest
    ensures Drain(m, [BlobAt(sys, r, i)] + ([BlobAt(sys, r, i - 1)] + rest), env).disk.contact.lastRecvSeq <= i
  {
    InReverse(sys, r, i, rest);
    if InReach(sys, r, i) {
      SecondIsLost(sys, r, m, i, rest, env);
    } else {
      FirstIsLost(sys, r, m, i, [BlobAt(sys, r, i - 1)] + rest, env);
    }
  }

  // ---------- keys that stay ----------

  // The chain goes on under one header key, and these keys are stored: in memory, and on disk once
  // anything was accepted.
  ghost predicate StaysStored(m: Mail, base: ChainStart, key: KeyId, ids: set<R.SkipId>, at: nat) {
    && OnChain(m.contact.ratchet, base) && InUse(m.contact.ratchet, key)
    && m.contact.lastRecvSeq >= at
    && ids <= m.contact.ratchet.skipped.Keys
    && (m.disk.contact.lastRecvSeq > at ==> ids <= m.disk.contact.ratchet.skipped.Keys)
  }

  lemma SettledContact(m: Mail, c: S.Contact, inner: InnerMessage, p: Payload, env: Env)
    ensures var n := Settle(m, c, inner, p, env);
            n.contact == n.disk.contact && n.contact.ratchet == c.ratchet && n.contact.lastRecvSeq == c.lastRecvSeq
  {
  }

  lemma LeftoverGrows(q: R.State, base: ChainStart, blob: Blob, key: KeyId)
    requires OnChain(q, base) && InUse(q, key) && (blob.Framed? ==> blob.payload.header.dh == key)
    ensures q.skipped.Keys <= R.Leftover(q, blob).Keys
  {
    if blob.Framed? {
      LeftoverInUse(q, base, blob);
    }
  }

  // Trying a blob under the key in use: the chain goes on, with the keys the attempt leaves.
  ghost predicate Tried(m: Mail, n: Mail, base: ChainStart, key: KeyId, table: map<R.SkipId, MessageKey>) {
    && OnChain(n.contact.ratchet, base) && InUse(n.contact.ratchet, key) && n.contact.ratchet.skipped == table
    && n.contact.lastRecvSeq >= m.contact.lastRecvSeq && (n.disk == m.disk || n.disk.contact == n.contact)
  }

  lemma TakeFails(m: Mail, blob: Blob, env: Env, base: ChainStart, key: KeyId)
    requires OnChain(m.contact.ratchet, base) && InUse(m.contact.ratchet, key)
    requires S.DecryptInbound(m.contact, blob, env.now, m.key).Failure?
    ensures Tried(m, Take(m, blob, env).0, base, key, R.Leftover(m.contact.ratchet, blob))
  {
    LeftoverKeepsChain(m.contact.ratchet, base, blob);
  }

  lemma InboundTable(c: S.Contact, blob: Blob, now: int, k: KeyId, base: ChainStart, key: KeyId)
    requires OnChain(c.ratchet, base) && InUse(c.ratchet, key) && (blob.Framed? ==> blob.payload.header.dh == key)
    requires S.DecryptInbound(c, blob, now, k).Success?
    ensures var e := S.DecryptInbound(c, blob, now, k).value.0;
            && OnChain(e.ratchet, base) && InUse(e.ratchet, key) && e.ratchet.skipped == R.Leftover(c.ratchet, blob)
            && e.lastRecvSeq == c.lastRecvSeq + 1
  {
    LeftoverKeepsChain(c.ratchet, base, blob);
    SuccessIsLeftover(c.ratchet, blob, k);
    OpeningKeepsChain(c.ratchet, base, key, blob, k);
  }

  lemma TakeSucceeds(m: Mail, blob: Blob, env: Env, base: ChainStart, key: KeyId)
    requires OnChain(m.contact.ratchet, base) && InUse(m.contact.ratchet, key)
    requires blob.Framed? ==> blob.payload.header.dh == key
    requires S.DecryptInbound(m.contact, blob, env.now, m.key).Success?
    ensures Tried(m, Take(m, blob, env).0, base, key, R.Leftover(m.contact.ratchet, blob))
  {
    var (c, inner) := S.DecryptInbound(m.contact, blob, env.now, m.key).value;
    InboundTable(m.contact, blob, env.now, m.key, base, key);
    SettledContact(Got(m, inner), c, inner, blob.payload, env);
  }

  lemma TakeIsStored(m: Mail, blob: Blob, env: Env, base: ChainStart, key: KeyId, ids: set<R.SkipId>, at: nat)
    requires OnChain(m.contact.ratchet, base) && InUse(m.contact.ratchet, key) && m.contact.lastRecvSeq >= at
    requires blob.Framed? ==> blob.payload.header.dh == key
    requires ids <= R.Leftover(m.contact.ratchet, blob).Keys
    requires m.disk.contact.lastRecvSeq > at ==> ids <= m.disk.contact.ratchet.skipped.Keys
    ensures StaysStored(Take(m, blob, env).0, base, key, ids, at)
  {
    if S.DecryptInbound(m.contact, blob, env.now, m.key).Success? {
      TakeSucceeds(m, blob, env, base, key);
    } else {
      TakeFails(m, blob, env, base, key);
    }
  }

  ghost predicate AllUnder(queue: seq<Blob>, key: KeyId) {
    forall b | b in queue && b.Framed? :: b.payload.header.dh == key
  }

  lemma {:induction false} PassStores(m: Mail, pending: seq<Blob>, env: Env, base: ChainStart, key: KeyId,
                                      ids: set<R.SkipId>, at: nat)
    requires StaysStored(m, base, key, ids, at) && AllUnder(pending, key)
    ensures StaysStored(Pass(m, pending, env).mail, base, key, ids, at)
    decreases |pending|
  {
    if !m.halted && pending != [] {
      assert pending[0] in pending;
      LeftoverGrows(m.contact.ratchet, base, pending[0], key);
      TakeIsStored(m, pending[0], env, base, key, ids, at);
      PassStores(Take(m, pending[0], env).0, pending[1..], env, base, key, ids, at);
    }
  }

  lemma {:induction false} DrainStores(m: Mail, pending: seq<Blob>, env: Env, base: ChainStart, key: KeyId,
                                       ids: set<R.SkipId>, at: nat)
    requires StaysStored(m, base, key, ids, at) && AllUnder(pending, key)
    ensures StaysStored(Drain(m, pending, env), base, key, ids, at)
    decreases |pending|
  {
    if !m.halted && pending != [] {
      PassStores(m, pending, env, base, key, ids, at);
      if Pass(m, pending, env).progressed {
        StillAmong(m, pending, env);
        DrainStores(Pass(m, pending, env).mail, Pass(m, pending, env).still, env, base, key, ids, at);
      }
    }
  }

  // What the first attempt stores is there when the fetch is over.
  lemma FirstAttemptStays(m: Mail, queue: seq<Blob>, env: Env, base: ChainStart, key: KeyId, n: nat)
    requires OnChain(m.contact.ratchet, base) && InUse(m.contact.ratchet, key) && AllUnder(queue, key)
    requires !m.halted && m.disk.contact.lastRecvSeq == m.contact.lastRecvSeq
    requires queue != [] && queue[0].Framed? && queue[0].payload.header.n == n
    requires var q := m.contact.ratchet; n >= q.recvN && WithinGap(n - q.recvN, |q.skipped| + (n - q.recvN))
    ensures StaysStored(Drain(m, queue, env), base, key, Ids(key, m.contact.ratchet.recvN, n), m.contact.lastRecvSeq)
  {
    var q, ids, at := m.contact.ratchet, Ids(key, m.contact.ratchet.recvN, n), m.contact.lastRecvSeq;
    assert queue[0] in queue;
    LeftoverInUse(q, base, queue[0]);
    AddsIds(q.skipped, R.Leftover(q, queue[0]), key, q.recvN, n);
    TakeIsStored(m, queue[0], env, base, key, ids, at);
    PassStores(Take(m, queue[0], env).0, queue[1..], env, base, key, ids, at);
    var s := Pass(m, queue, env);
    assert s.mail == Pass(Take(m, queue[0], env).0, queue[1..], env).mail;
    if s.progressed {
      StillAmong(m, queue, env);
      DrainStores(s.mail, s.still, env, base, key, ids, at);
    }
  }

  // ---------- texts of one epoch ----------

  ghost predicate TextIn(slot: Slot, until: nat) {
    && slot.Sent? && slot.at.At? && slot.at.epoch == 1
    && slot.payload.box.plaintext.kind.Text? && slot.payload.box.plaintext.validUntil == until
  }

  ghost predicate AllTexts(log: seq<Slot>, until: nat) {
    forall i: nat | i < |log| :: TextIn(log[i], until)
  }

  // The joiner has sent nothing but texts, in its first epoch.
  ghost predicate Writing(sys: System, until: nat) {
    Inv(sys) && !sys.joiner.contact.hybrid && sys.joiner.epoch == 1 && AllTexts(sys.joiner.log, until)
  }

  ghost predicate Longer(a: System, b: System, n: nat) {
    b.inviter == a.inviter && b.nextKey == a.nextKey && a.joiner.log <= b.joiner.log
    && |b.joiner.log| == |a.joiner.log| + n
  }

  lemma WriteOne(sys: System, until: nat)
    requires Writing(sys, until)
    ensures var step := SendMessage(Joiner, S.Draft("device", Text(""), 0, until), 0, sys.nextKey);
            Enabled(sys, step) && Writing(Apply(sys, step), until) && Longer(sys, Apply(sys, step), 1)
  {
    var d := S.Draft("device", Text(""), 0, until);
    var next := Apply(sys, SendMessage(Joiner, d, 0, sys.nextKey));
    Floods.JoinerSends(sys, d, sys.nextKey);
    forall i: nat | i < |next.joiner.log| ensures TextIn(next.joiner.log[i], until) {
      if i < |sys.joiner.log| {
        assert next.joiner.log[i] == next.joiner.log[..|sys.joiner.log|][i];
        assert TextIn(sys.joiner.log[i], until);
      }
    }
  }

  lemma {:induction false} Write(sys: System, n: nat, until: nat) returns (steps: seq<Step>)
    requires Writing(sys, until)
    ensures Runs.Run(sys, steps) && Writing(Runs.After(sys, steps), until) && Longer(sys, Runs.After(sys, steps), n)
    decreases n
  {
    steps := [];
    if n > 0 {
      var first := Write(sys, n - 1, until);
      var mid := Runs.After(sys, first);
      WriteOne(mid, until);
      var step := SendMessage(Joiner, S.Draft("device", Text(""), 0, until), 0, mid.nextKey);
      Runs.RunOne(mid, step);
      Runs.RunJoin(sys, first, [step]);
      steps := first + [step];
    }
  }

  lemma {:induction false} TextCursor(log: seq<Slot>, k: nat, until: nat)
    requires AllTexts(log, until) && InOrder(1, log) && k <= |log|
    ensures CursorAfter(1, log[..k]) == Cursor(1, k, 0, 0, 0, k > 0)
    ensures forall j: nat | j < k :: log[j].at == At(1, j)
    decreases k
  {
    if k > 0 {
      TextCursor(log, k - 1, until);
      assert TextIn(log[k - 1], until) && FitsAt(1, log, k - 1);
      CursorStep(1, log, k - 1);
    }
  }

  // Text i has number i under the joiner's first key, in the epoch the inviter receives in.
  ghost predicate TextAt(sys: System, i: nat, until: nat) {
    && |sys.schedule.keys| >= 2 && i < |sys.joiner.log| && TextIn(sys.joiner.log[i], until)
    && sys.joiner.log[i].payload.header.n == i && sys.joiner.log[i].payload.header.dh == sys.schedule.keys[1]
  }

  lemma EachText(sys: System, i: nat, until: nat)
    requires Writing(sys, until) && i < |sys.joiner.log|
    ensures TextAt(sys, i, until)
  {
    SeeSide(sys, Joiner);
    TextCursor(sys.joiner.log, |sys.joiner.log|, until);
    assert WellSealed(sys.schedule, sys.nextKey, Joiner, sys.joiner, i);
  }

  // The inviter's place in them.
  ghost predicate Reading(sys: System, k: nat) {
    && sys.inviter.contact.lastRecvSeq == k == sys.inviter.contact.ratchet.recvN
    && |sys.schedule.keys| >= 2 && RecvEpoch(sys.inviter) == 1
    && OnChain(sys.inviter.contact.ratchet, sys.schedule.Chain(1))
    && InUse(sys.inviter.contact.ratchet, sys.schedule.keys[1])
  }

  lemma ReaderPlace(sys: System, k: nat, until: nat)
    requires Writing(sys, until) && sys.inviter.contact.lastRecvSeq == k
    ensures Reading(sys, k) && k <= |sys.joiner.log|
  {
    SeeSide(sys, Joiner);
    SeeSide(sys, Inviter);
    assert sys.Get(Other(Inviter)) == sys.joiner;
    TextCursor(sys.joiner.log, k, until);
  }

  // Newest first.
  function Backwards(log: seq<Slot>, k: nat, i: nat): seq<Blob>
    decreases i
  {
    if i <= k || i > |log| || log[i - 1].Hole? then [] else [Framed(log[i - 1].payload)] + Backwards(log, k, i - 1)
  }

  lemma {:induction false} BackwardsAre(log: seq<Slot>, k: nat, i: nat, b: Blob)
    requires k <= i <= |log| && forall j: nat | k <= j < i :: log[j].Sent?
    ensures b in Backwards(log, k, i) <==> exists j: nat :: k <= j < i && b == Framed(log[j].payload)
    decreases i
  {
    if k < i {
      BackwardsAre(log, k, i - 1, b);
    }
  }

  ghost predicate BackwardsOk(sys: System, k: nat, i: nat, until: nat) {
    var queue := Backwards(sys.joiner.log, k, i);
    && |sys.schedule.keys| >= 2 && AllUnder(queue, sys.schedule.keys[1]) && Presentables(sys, queue)
    && (forall b | b in queue :: b.Framed? && k <= b.payload.header.n < i)
  }

  lemma BackwardsFit(sys: System, k: nat, i: nat, until: nat)
    requires Writing(sys, until) && k <= i <= |sys.joiner.log|
    ensures BackwardsOk(sys, k, i, until)
  {
    var log := sys.joiner.log;
    SeeSide(sys, Joiner);
    forall j: nat | k <= j < i ensures log[j].Sent? {
      EachText(sys, j, until);
    }
    forall b | b in Backwards(log, k, i)
      ensures b.Framed? && b.payload.header.dh == sys.schedule.keys[1] && k <= b.payload.header.n < i
              && Presentable(sys, b)
    {
      BackwardsAre(log, k, i, b);
      var j: nat :| k <= j < i && b == Framed(log[j].payload);
      EachText(sys, j, until);
      assert SealedIn(log, b.payload.box);
    }
  }

  lemma RunOfTexts(sys: System, k: nat, i: nat, until: nat, now: int)
    requires Writing(sys, until) && k <= i == |sys.joiner.log| && now <= until
    ensures RunEnd(sys.joiner.log, k, Backwards(sys.joiner.log, k, i), now) == i
  {
    var log, queue := sys.joiner.log, Backwards(sys.joiner.log, k, i);
    forall j: nat | k <= j < i ensures log[j].Sent? {
      EachText(sys, j, until);
    }
    forall j: nat | k <= j < i ensures Takeable(log, j, queue, now) {
      EachText(sys, j, until);
      BackwardsAre(log, k, i, Framed(log[j].payload));
    }
    RunEndIs(log, k, i, queue, now);
  }

  // ---------- two fetches ----------

  lemma EmptyTableRooms(key: KeyId, top: nat, n: nat)
    requires top <= 127 && n <= 127
    ensures RoomFor({}, key, 0, top, n)
  {
    IdsCount(key, 0, top);
    assert {} + Ids(key, 0, top) == Ids(key, 0, top);
  }

  lemma FirstIsRoomy(sys: System, i: nat, until: nat, end: nat)
    requires Writing(sys, until) && |sys.joiner.log| == i <= 128
    requires sys.inviter.contact.lastRecvSeq == 0 && sys.inviter.contact.ratchet.skipped == map[]
    ensures Roomy(sys, Inviter, map[], Backwards(sys.joiner.log, 0, i), end)
  {
    var queue, key := Backwards(sys.joiner.log, 0, i), sys.schedule.keys[1];
    ReaderPlace(sys, 0, until);
    BackwardsFit(sys, 0, i, until);
    TopIsReached(queue, key, 127);
    var none: map<R.SkipId, MessageKey> := map[];
    assert none.Keys == {};
    forall j: nat | HereIn(sys, Inviter, queue, end, j)
      ensures RoomFor({}, key, 0, Top(queue, key), SlotAt(sys, Inviter, j).payload.header.n)
    {
      EmptyTableRooms(key, Top(queue, key), SlotAt(sys, Inviter, j).payload.header.n);
    }
  }

  lemma FirstFetch(sys: System, m: Mail, until: nat, env: Env) returns (next: System)
    requires Writing(sys, until) && |sys.joiner.log| == 128 && !sys.inviter.contact.hybrid
    requires sys.inviter.contact.lastRecvSeq == 0 && sys.inviter.contact.ratchet.skipped == map[]
    requires Synced(sys, Inviter, m) && m.contact == m.disk.contact && m.got == [] && !m.halted && env.now <= until
    ensures var e := Drain(m, Backwards(sys.joiner.log, 0, 128), env);
            && !e.halted && e.disk.contact.lastRecvSeq == 128 && e.got == Texts(sys.joiner.log, 0, 128)
            && Synced(next, Inviter, e) && next.joiner == sys.joiner
            && |sys.schedule.keys| >= 2 && Ids(sys.schedule.keys[1], 0, 127) <= e.disk.contact.ratchet.skipped.Keys
  {
    var queue := Backwards(sys.joiner.log, 0, 128);
    FirstIsRoomy(sys, 128, until, 128);
    BackwardsFit(sys, 0, 128, until);
    ReaderPlace(sys, 0, until);
    RunOfTexts(sys, 0, 128, until, env.now);
    RunIsAnswered(sys.joiner.log, 0, queue, env.now, SealsLeft(m.contact, env.now), m.tried, env.refused);
    next := FetchEnds(sys, Inviter, m, queue, env);
    FetchConfluence(sys, Inviter, m, queue, env);
    EachText(sys, 127, until);
    FirstAttemptStays(m, queue, env, sys.schedule.Chain(1), sys.schedule.keys[1], 127);
  }

  lemma SeparateIds(key: KeyId, table: set<R.SkipId>)
    requires Ids(key, 0, 127) <= table
    ensures |table + Ids(key, 128, 255)| >= 254
  {
    IdsCount(key, 0, 127);
    IdsCount(key, 128, 255);
    assert Ids(key, 0, 127) !! Ids(key, 128, 255);
    SmallerSet(Ids(key, 0, 127) + Ids(key, 128, 255), table + Ids(key, 128, 255));
  }

  lemma SecondIsCrowded(sys: System, until: nat)
    requires Writing(sys, until) && |sys.joiner.log| == 256 && sys.inviter.contact.lastRecvSeq == 128
    requires |sys.schedule.keys| >= 2 && Ids(sys.schedule.keys[1], 0, 127) <= sys.inviter.contact.ratchet.skipped.Keys
    ensures Crowded(sys, Inviter, 255)
  {
    ReaderPlace(sys, 128, until);
    EachText(sys, 255, until);
    EachText(sys, 254, until);
    SeparateIds(sys.schedule.keys[1], sys.inviter.contact.ratchet.skipped.Keys);
  }

  lemma BackwardsTwo(log: seq<Slot>, k: nat, i: nat)
    requires k + 2 <= i <= |log| && log[i - 1].Sent? && log[i - 2].Sent?
    ensures Backwards(log, k, i) ==
            [Framed(log[i - 1].payload)] + ([Framed(log[i - 2].payload)] + Backwards(log, k, i - 2))
  {
  }

  lemma SecondFetch(sys: System, m: Mail, until: nat, env: Env)
    requires Writing(sys, until) && |sys.joiner.log| == 256 && sys.inviter.contact.lastRecvSeq == 128
    requires |sys.schedule.keys| >= 2 && Ids(sys.schedule.keys[1], 0, 127) <= sys.inviter.contact.ratchet.skipped.Keys
    requires Synced(sys, Inviter, m) && m.got == [] && !m.halted && env.now <= until
    ensures Drain(m, Backwards(sys.joiner.log, 128, 256), env).disk.contact.lastRecvSeq < 256
  {
    var rest := Backwards(sys.joiner.log, 128, 254);
    SecondIsCrowded(sys, until);
    EachText(sys, 255, until);
    EachText(sys, 254, until);
    BackwardsFit(sys, 128, 254, until);
    BackwardsTwo(sys.joiner.log, 128, 256);
    OneIsLost(sys, Inviter, m, 255, rest, env);
  }

  // From every completed classical pairing: 128 texts listed newest first are all collected, and
  // of the next 128, sent and listed in the same way, one is thrown away, though none is missing or
  // expired.
  lemma NewestFirstLoses(sys: System, master: Master, inviterKey: KeyId, joinerKey: KeyId, conversation: string,
                         m: Mail, until: nat, env: Env, later: Env)
    returns (steps: seq<Step>, next: System, more: seq<Step>)
    requires Runs.Paired(sys, master, false, inviterKey, joinerKey, conversation)
    requires !sys.joiner.contact.hybrid && !sys.inviter.contact.hybrid
    requires m.disk.contact == m.contact == sys.inviter.contact && m.key >= sys.nextKey && m.got == [] && !m.halted
    requires env.now <= until && later.now <= until
    ensures Runs.Run(sys, steps) && |Runs.After(sys, steps).joiner.log| == 128
    ensures var log := Runs.After(sys, steps).joiner.log;
            var e := Drain(m, Backwards(log, 0, 128), env);
            && RunEnd(log, 0, Backwards(log, 0, 128), env.now) == 128 == e.disk.contact.lastRecvSeq
            && e.got == Texts(log, 0, 128)
            && Synced(next, Inviter, Reread(e)) && next.joiner == Runs.After(sys, steps).joiner && Runs.Run(next, more)
            && var all := Runs.After(next, more).joiner.log;
               && |all| == 256 && RunEnd(all, 128, Backwards(all, 128, 256), later.now) == 256
               && Drain(Reread(e).(got := []), Backwards(all, 128, 256), later).disk.contact.lastRecvSeq < 256
  {
    Runs.PairedInv(sys, master, false, inviterKey, joinerKey, conversation);
    steps := Write(sys, 128, until);
    var mid := Runs.After(sys, steps);
    SeeSide(mid, Inviter);
    var read := FirstFetch(mid, m, until, env);
    var e := Drain(m, Backwards(mid.joiner.log, 0, 128), env);
    RunOfTexts(mid, 0, 128, until, env.now);
    RereadIsReload(read, Inviter, e);
    next := Apply(read, Reload(Inviter, e.disk.contact.ratchet.skipped));
    more := Write(next, 128, until);
    var end := Runs.After(next, more);
    SameFirstKey(mid, end, until);
    RunOfTexts(end, 128, 256, until, later.now);
    SecondFetch(end, Reread(e).(got := []), until, later);
  }

  lemma SameFirstKey(a: System, b: System, until: nat)
    requires Writing(a, until) && Writing(b, until) && a.joiner.log <= b.joiner.log && |a.joiner.log| > 0
    ensures |a.schedule.keys| >= 2 && |b.schedule.keys| >= 2 && a.schedule.keys[1] == b.schedule.keys[1]
  {
    EachText(a, 0, until);
    EachText(b, 0, until);
  }
}
