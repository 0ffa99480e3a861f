/** What forgeries under any header keys can make of the table of stored keys: a message for which
    it then has no room is thrown away before its turn. */
module Crowding {
  import opened Crypto
  import opened Message
  import opened SkippedKeys
  import opened TwoParty
  import opened Acceptance
  import opened Preservation
  import opened Reach
  import opened Fetch
  import opened Hearing
  import opened Draining
  import opened Overflow
  import R = Ratchet
  import S = Session

  // ---------- forgeries under other header keys ----------

  lemma {:induction false} AboveAll(ids: set<R.SkipId>) returns (key: KeyId)
    ensures forall id <- ids :: id.dh < key
  {
    key := 0;
    if ids != {} {
      var id :| id in ids;
      key := AboveAll(ids - {id});
      key := if id.dh < key then key else id.dh + 1;
    }
  }

  // A forgery under any key, at the position reached or past it if the key is in use.
  lemma Forged(sys: System, r: Role, m: Mail, key: KeyId, n: nat, env: Env) returns (next: System)
    requires Synced(sys, r, m) && (InUse(m.contact.ratchet, key) ==> n >= m.contact.ratchet.recvN)
    ensures Take(m, Framed(Forgery(key, n)), env).1 == Dropped
    ensures var o, q := Take(m, Framed(Forgery(key, n)), env).0, m.contact.ratchet;
            && Synced(next, r, o) && Stays(sys, next, r) && o.got == m.got && o.halted == m.halted
            && o.contact.ratchet == R.RolledBack(q, Framed(Forgery(key, n)))
            && next == Apply(sys, Receive(r, Framed(Forgery(key, n)), env.now, m.key)) && next.nextKey == sys.nextKey
  {
    var forged := Framed(Forgery(key, n));
    SeeSide(sys, r);
    if InUse(m.contact.ratchet, key) {
      ForgeryFails(m.contact, sys.schedule.Chain(RecvEpoch(sys.Get(r))), key, n, env.now, m.key);
    } else {
      OtherForgeryFails(m.contact, key, n, env.now, m.key);
    }
    assert Presentable(sys, forged);
    TakeHears(sys, r, m, forged, env);
    TrialLeaves(sys, r, forged, env.now, m.key);
    next := Apply(sys, Receive(r, forged, env.now, m.key));
  }

  lemma OtherForgeryFails(c: S.Contact, key: KeyId, n: nat, now: int, k: KeyId)
    requires !InUse(c.ratchet, key)
    ensures S.DecryptInbound(c, Framed(Forgery(key, n)), now, k) == Failure(S.DecryptFailed)
  {
    assert R.Align(c.ratchet, key, k) == R.DhRatchet(c.ratchet, key, k);
  }

  ghost predicate SameTop(a: System, b: System, r: Role, i: nat) {
    && Later(a, r, i) && Later(b, r, i) && SlotAt(a, r, i) == SlotAt(b, r, i) && Here(b, r, i)
    && b.Get(r).contact.ratchet.recvN == a.Get(r).contact.ratchet.recvN
    && b.Get(r).contact.ratchet.peerKey == a.Get(r).contact.ratchet.peerKey
  }

  lemma ForgedTop(sys: System, r: Role, c: S.Contact, key: KeyId, n: nat, now: int, k: KeyId, i: nat)
    requires c == sys.Get(r).contact && S.DecryptInbound(c, Framed(Forgery(key, n)), now, k).Failure?
    requires Later(sys, r, i) && Here(sys, r, i)
    ensures SameTop(sys, Apply(sys, Receive(r, Framed(Forgery(key, n)), now, k)), r, i)
  {
    TrialLeaves(sys, r, Framed(Forgery(key, n)), now, k);
    TrialIsReload(sys, r, Framed(Forgery(key, n)), now, k);
  }

  // Beside that many keys there is room for the positions up to the highest, and then for a gap
  // that wide.
  predicate Beside(recvN: nat, top: nat, others: nat) {
    others + 2 * Span(recvN, top) <= R.MAX_SKIPPED_KEYS
  }

  // A gap of another key's positions, where there is no room beside it.
  lemma OtherKeyCrowds(t: map<R.SkipId, MessageKey>, other: KeyId, key: KeyId, recvN: nat, n: nat)
    requires Adds(map[], t, other, 0, R.MAX_SKIP_GAP) && |t| == R.MAX_SKIP_GAP && other != key
    requires !Beside(recvN, n, R.MAX_SKIP_GAP)
    ensures !Room(t.Keys, key, recvN, n)
  {
    IdsCount(key, recvN, n);
    assert t.Keys !! Ids(key, recvN, n);
    assert |t| == |t.Keys|;
  }

  // A full table, beside any span.
  lemma FullCrowds(t: map<R.SkipId, MessageKey>, key: KeyId, recvN: nat, n: nat)
    requires |t| == R.MAX_SKIPPED_KEYS && Span(recvN, n) > 0
    ensures !Room(t.Keys, key, recvN, n)
  {
    SmallerSet(t.Keys, t.Keys + Ids(key, recvN, n));
    assert |t| == |t.Keys|;
  }

  // While no key is on record, a forgery under a new one stores as many keys as it says.
  lemma FillsBy(q: R.State, base: ChainStart, key: KeyId, n: nat)
    requires OnChain(q, base) && q.peerKey.None? && q.recvN == 0
    requires n <= R.MAX_SKIP_GAP && |q.skipped| + n <= R.MAX_SKIPPED_KEYS
    requires forall id <- q.skipped.Keys :: id.dh < key
    ensures |R.Leftover(q, Framed(Forgery(key, n)))| == |q.skipped| + n
  {
    var t := R.Leftover(q, Framed(Forgery(key, n)));
    LeftoverInUse(q, base, Framed(Forgery(key, n)));
    AddsIds(q.skipped, t, key, 0, n);
    IdsCount(key, 0, n);
    assert q.skipped.Keys !! Ids(key, 0, n);
    assert |t| == |t.Keys| && |q.skipped| == |q.skipped.Keys|;
  }

  // What is asked of the message at the top, and of what comes behind it.
  ghost predicate TopAndRest(sys: System, r: Role, m: Mail, i: nat, rest: seq<Blob>, now: int) {
    && Synced(sys, r, m) && !m.halted && Presentables(sys, rest)
    && Later(sys, r, i) && Here(sys, r, i) && now <= SlotAt(sys, r, i).payload.box.plaintext.validUntil
    && Framed(SlotAt(sys, r, i).payload) !in rest
  }

  ghost function Tail(sys: System, r: Role, i: nat, rest: seq<Blob>): seq<Blob>
    requires Later(sys, r, i)
  {
    var p := SlotAt(sys, r, i).payload;
    [Framed(Forgery(p.header.dh, p.header.n))] + ([Framed(p)] + rest)
  }

  // After a forgery, all that was asked still holds.
  lemma ForgedRest(sys: System, r: Role, m: Mail, i: nat, rest: seq<Blob>, key: KeyId, n: nat, env: Env)
    returns (next: System)
    requires TopAndRest(sys, r, m, i, rest, env.now) && (InUse(m.contact.ratchet, key) ==> n >= m.contact.ratchet.recvN)
    ensures Take(m, Framed(Forgery(key, n)), env).1 == Dropped
    ensures var o, q := Take(m, Framed(Forgery(key, n)), env).0, m.contact.ratchet;
            && TopAndRest(next, r, o, i, rest, env.now) && SameTop(sys, next, r, i)
            && o.contact.ratchet == R.RolledBack(q, Framed(Forgery(key, n))) && next.nextKey == sys.nextKey
            && Tail(next, r, i, rest) == Tail(sys, r, i, rest)
  {
    next := Forged(sys, r, m, key, n, env);
    ForgedTop(sys, r, m.contact, key, n, env.now, m.key, i);
    PresentablesStay(sys, next, r, rest);
  }

  lemma CrowdedOut(sys: System, r: Role, m: Mail, i: nat, rest: seq<Blob>, env: Env)
    requires TopAndRest(sys, r, m, i, rest, env.now) && NoRoom(sys, r, i)
    ensures StopsAt(m, Tail(sys, r, i, rest), env, i)
  {
    MessageIsLost(sys, r, m, i, rest, env);
  }

  lemma LongSpanCrowds(sys: System, r: Role, m: Mail, i: nat, rest: seq<Blob>, env: Env, other: KeyId)
    returns (next: System)
    requires TopAndRest(sys, r, m, i, rest, env.now) && m.contact.ratchet.peerKey.Some?
    requires InUse(m.contact.ratchet, SlotAt(sys, r, i).payload.header.dh)
             && other != SlotAt(sys, r, i).payload.header.dh
    requires !Beside(m.contact.ratchet.recvN, SlotAt(sys, r, i).payload.header.n, R.MAX_SKIP_GAP)
    ensures Take(m, Framed(Forgery(other, R.MAX_SKIP_GAP)), env).1 == Dropped
    ensures var o := Take(m, Framed(Forgery(other, R.MAX_SKIP_GAP)), env).0;
            TopAndRest(next, r, o, i, rest, env.now) && SameTop(sys, next, r, i) && NoRoom(next, r, i)
  {
    var q, h := m.contact.ratchet, SlotAt(sys, r, i).payload.header;
    next := ForgedRest(sys, r, m, i, rest, other, R.MAX_SKIP_GAP, env);
    LeftoverAhead(q, Framed(Forgery(other, R.MAX_SKIP_GAP)));
    OtherKeyCrowds(R.Leftover(q, Framed(Forgery(other, R.MAX_SKIP_GAP))), other, h.dh, q.recvN, h.n);
  }

  // With a key on record and no room beside a gap: a forgery under another key first.
  lemma LongSpanLoses(sys: System, r: Role, m: Mail, i: nat, rest: seq<Blob>, env: Env, other: KeyId)
    requires TopAndRest(sys, r, m, i, rest, env.now) && m.contact.ratchet.peerKey.Some?
    requires !Beside(m.contact.ratchet.recvN, SlotAt(sys, r, i).payload.header.n, R.MAX_SKIP_GAP)
    requires other != SlotAt(sys, r, i).payload.header.dh
    ensures StopsAt(m, [Framed(Forgery(other, R.MAX_SKIP_GAP))] + Tail(sys, r, i, rest), env, i)
  {
    var forged := Framed(Forgery(other, R.MAX_SKIP_GAP));
    SeeSlot(sys, r, i);
    IsHere(sys, r, i);
    var next := LongSpanCrowds(sys, r, m, i, rest, env, other);
    CrowdedOut(next, r, Take(m, forged, env).0, i, rest, env);
    DroppedInFront(m, forged, Tail(sys, r, i, rest), env, i);
  }

  // Filling the table under a new key, as far as one gap goes.
  function FillOf(held: nat): nat {
    if held + R.MAX_SKIP_GAP <= R.MAX_SKIPPED_KEYS then R.MAX_SKIP_GAP
    else if held <= R.MAX_SKIPPED_KEYS then R.MAX_SKIPPED_KEYS - held else 0
  }

  // Neither stored under nor in the schedule.
  lemma UnusedKey(sys: System, ids: set<R.SkipId>) returns (key: KeyId)
    ensures key >= sys.nextKey && forall id <- ids :: id.dh < key
  {
    key := AboveAll(ids);
    key := if key < sys.nextKey then sys.nextKey else key;
  }

  lemma Fill(sys: System, r: Role, m: Mail, i: nat, rest: seq<Blob>, env: Env) returns (next: System, key: KeyId)
    requires TopAndRest(sys, r, m, i, rest, env.now) && m.contact.ratchet.peerKey.None?
    ensures key >= sys.nextKey == next.nextKey
    ensures var n := FillOf(|m.contact.ratchet.skipped|);
            var o := Take(m, Framed(Forgery(key, n)), env).0;
            && Take(m, Framed(Forgery(key, n)), env).1 == Dropped
            && TopAndRest(next, r, o, i, rest, env.now) && SameTop(sys, next, r, i) && o.contact.ratchet.peerKey.None?
            && |o.contact.ratchet.skipped| == |m.contact.ratchet.skipped| + n
            && o.contact.ratchet.recvN == m.contact.ratchet.recvN && Tail(next, r, i, rest) == Tail(sys, r, i, rest)
  {
    var q := m.contact.ratchet;
    SeeSide(sys, r);
    key := UnusedKey(sys, q.skipped.Keys);
    next := ForgedRest(sys, r, m, i, rest, key, FillOf(|q.skipped|), env);
    FillsBy(q, sys.schedule.Chain(RecvEpoch(sys.Get(r))), key, FillOf(|q.skipped|));
  }

  lemma FullLoses(sys: System, r: Role, m: Mail, i: nat, rest: seq<Blob>, env: Env)
    requires TopAndRest(sys, r, m, i, rest, env.now) && |m.contact.ratchet.skipped| == R.MAX_SKIPPED_KEYS
    requires Span(m.contact.ratchet.recvN, SlotAt(sys, r, i).payload.header.n) > 0
    ensures StopsAt(m, Tail(sys, r, i, rest), env, i)
  {
    FullCrowds(m.contact.ratchet.skipped, SlotAt(sys, r, i).payload.header.dh, m.contact.ratchet.recvN,
               SlotAt(sys, r, i).payload.header.n);
    CrowdedOut(sys, r, m, i, rest, env);
  }

  lemma FilledUp(held: nat)
    requires R.MAX_SKIP_GAP <= held <= R.MAX_SKIPPED_KEYS
    ensures held + FillOf(held) == R.MAX_SKIPPED_KEYS
  {
  }

  // One forgery fills a table that holds enough.
  lemma OneFillLoses(sys: System, r: Role, m: Mail, i: nat, rest: seq<Blob>, env: Env) returns (key: KeyId, n: nat)
    requires TopAndRest(sys, r, m, i, rest, env.now) && m.contact.ratchet.peerKey.None?
    requires R.MAX_SKIP_GAP <= |m.contact.ratchet.skipped| <= R.MAX_SKIPPED_KEYS
    requires Span(m.contact.ratchet.recvN, SlotAt(sys, r, i).payload.header.n) > 0
    ensures key >= sys.nextKey && StopsAt(m, [Framed(Forgery(key, n))] + Tail(sys, r, i, rest), env, i)
  {
    var next;
    n := FillOf(|m.contact.ratchet.skipped|);
    FilledUp(|m.contact.ratchet.skipped|);
    next, key := Fill(sys, r, m, i, rest, env);
    FullLoses(next, r, Take(m, Framed(Forgery(key, n)), env).0, i, rest, env);
    DroppedInFront(m, Framed(Forgery(key, n)), Tail(sys, r, i, rest), env, i);
  }

  lemma TableHolds(sys: System, r: Role)
    requires Inv(sys)
    ensures |sys.Get(r).contact.ratchet.skipped| <= R.MAX_SKIPPED_KEYS
  {
    SeeSide(sys, r);
  }

  // With no key on record: two forgeries under new keys fill the table.
  lemma FullTableLoses(sys: System, r: Role, m: Mail, i: nat, rest: seq<Blob>, env: Env)
    returns (a: KeyId, x: nat, b: KeyId, y: nat)
    requires TopAndRest(sys, r, m, i, rest, env.now) && m.contact.ratchet.peerKey.None?
    requires Span(m.contact.ratchet.recvN, SlotAt(sys, r, i).payload.header.n) > 0
    ensures a >= sys.nextKey && b >= sys.nextKey
    ensures StopsAt(m, [Framed(Forgery(a, x))] + ([Framed(Forgery(b, y))] + Tail(sys, r, i, rest)), env, i)
  {
    var next;
    x := FillOf(|m.contact.ratchet.skipped|);
    next, a := Fill(sys, r, m, i, rest, env);
    TableHolds(sys, r);
    b, y := OneFillLoses(next, r, Take(m, Framed(Forgery(a, x)), env).0, i, rest, env);
    DroppedInFront(m, Framed(Forgery(a, x)), [Framed(Forgery(b, y))] + Tail(sys, r, i, rest), env, i);
  }

  // A gap of another key's positions, and then a gap of the chain's own: the table is full.
  lemma TwoGapsFill(q: R.State, base: ChainStart, other: KeyId, key: KeyId, n: nat)
    requires OnChain(q, base) && q.peerKey == Some(key) && other != key && n == q.recvN + R.MAX_SKIP_GAP
    requires Adds(map[], q.skipped, other, 0, R.MAX_SKIP_GAP) && |q.skipped| == R.MAX_SKIP_GAP
    ensures |R.Leftover(q, Framed(Forgery(key, n)))| == R.MAX_SKIPPED_KEYS
  {
    var t := R.Leftover(q, Framed(Forgery(key, n)));
    LeftoverInUse(q, base, Framed(Forgery(key, n)));
    AddsIds(q.skipped, t, key, q.recvN, n);
    IdsCount(key, q.recvN, n);
    assert q.skipped.Keys !! Ids(key, q.recvN, n);
    assert |t| == |t.Keys| && |q.skipped| == |q.skipped.Keys|;
  }

  // What the first of them leaves.
  ghost predicate OneGap(m: Mail, other: KeyId, key: KeyId, recvN: nat) {
    var q := m.contact.ratchet;
    && Adds(map[], q.skipped, other, 0, R.MAX_SKIP_GAP) && |q.skipped| == R.MAX_SKIP_GAP
    && q.peerKey == Some(key) && q.recvN == recvN && other != key
  }

  lemma FirstGap(sys: System, r: Role, m: Mail, i: nat, rest: seq<Blob>, env: Env, other: KeyId) returns (next: System)
    requires TopAndRest(sys, r, m, i, rest, env.now) && other != SlotAt(sys, r, i).payload.header.dh
    requires m.contact.ratchet.peerKey == Some(SlotAt(sys, r, i).payload.header.dh)
    ensures Take(m, Framed(Forgery(other, R.MAX_SKIP_GAP)), env).1 == Dropped
    ensures var o := Take(m, Framed(Forgery(other, R.MAX_SKIP_GAP)), env).0;
            && TopAndRest(next, r, o, i, rest, env.now) && SlotAt(next, r, i) == SlotAt(sys, r, i)
            && Tail(next, r, i, rest) == Tail(sys, r, i, rest)
            && OneGap(o, other, SlotAt(sys, r, i).payload.header.dh, m.contact.ratchet.recvN)
  {
    next := ForgedRest(sys, r, m, i, rest, other, R.MAX_SKIP_GAP, env);
    LeftoverAhead(m.contact.ratchet, Framed(Forgery(other, R.MAX_SKIP_GAP)));
  }

  lemma SecondGap(sys: System, r: Role, m: Mail, i: nat, rest: seq<Blob>, env: Env, other: KeyId, key: KeyId, n: nat)
    returns (next: System)
    requires TopAndRest(sys, r, m, i, rest, env.now) && OneGap(m, other, key, m.contact.ratchet.recvN)
    requires n == m.contact.ratchet.recvN + R.MAX_SKIP_GAP
    ensures Take(m, Framed(Forgery(key, n)), env).1 == Dropped
    ensures var o := Take(m, Framed(Forgery(key, n)), env).0;
            && TopAndRest(next, r, o, i, rest, env.now)
            && SlotAt(next, r, i) == SlotAt(sys, r, i) && Tail(next, r, i, rest) == Tail(sys, r, i, rest)
            && |o.contact.ratchet.skipped| == R.MAX_SKIPPED_KEYS && o.contact.ratchet.recvN == m.contact.ratchet.recvN
  {
    ChainIs(sys, r);
    next := ForgedRest(sys, r, m, i, rest, key, n, env);
    TwoGapsFill(m.contact.ratchet, sys.schedule.Chain(RecvEpoch(sys.Get(r))), other, key, n);
  }

  lemma ChainIs(sys: System, r: Role)
    requires Inv(sys)
    ensures RecvEpoch(sys.Get(r)) < |sys.schedule.keys|
    ensures OnChain(sys.Get(r).contact.ratchet, sys.schedule.Chain(RecvEpoch(sys.Get(r))))
  {
    SeeSide(sys, r);
  }

  lemma SecondGapLoses(sys: System, r: Role, m: Mail, i: nat, rest: seq<Blob>, env: Env, other: KeyId, key: KeyId,
                       n: nat)
    requires TopAndRest(sys, r, m, i, rest, env.now) && OneGap(m, other, key, m.contact.ratchet.recvN)
    requires n == m.contact.ratchet.recvN + R.MAX_SKIP_GAP
    requires Span(m.contact.ratchet.recvN, SlotAt(sys, r, i).payload.header.n) > 0
    ensures StopsAt(m, [Framed(Forgery(key, n))] + Tail(sys, r, i, rest), env, i)
  {
    var next := SecondGap(sys, r, m, i, rest, env, other, key, n);
    FullLoses(next, r, Take(m, Framed(Forgery(key, n)), env).0, i, rest, env);
    DroppedInFront(m, Framed(Forgery(key, n)), Tail(sys, r, i, rest), env, i);
  }

  // So with a key on record, two forgeries leave no room for any message that is not at the
  // position reached.
  lemma TwoGapsLose(sys: System, r: Role, m: Mail, i: nat, rest: seq<Blob>, env: Env, other: KeyId, key: KeyId, n: nat)
    requires TopAndRest(sys, r, m, i, rest, env.now) && m.contact.ratchet.peerKey.Some?
    requires Span(m.contact.ratchet.recvN, SlotAt(sys, r, i).payload.header.n) > 0
    requires key == SlotAt(sys, r, i).payload.header.dh != other && n == m.contact.ratchet.recvN + R.MAX_SKIP_GAP
    ensures StopsAt(m, [Framed(Forgery(other, R.MAX_SKIP_GAP))] + ([Framed(Forgery(key, n))] + Tail(sys, r, i, rest)),
                    env, i)
  {
    var forged := Framed(Forgery(other, R.MAX_SKIP_GAP));
    KeyOnRecord(sys, r, i);
    var next := FirstGap(sys, r, m, i, rest, env, other);
    SecondGapLoses(next, r, Take(m, forged, env).0, i, rest, env, other, key, n);
    DroppedInFront(m, forged, [Framed(Forgery(key, n))] + Tail(sys, r, i, rest), env, i);
  }

  lemma KeyOnRecord(sys: System, r: Role, i: nat)
    requires Inv(sys) && Later(sys, r, i) && Here(sys, r, i) && sys.Get(r).contact.ratchet.peerKey.Some?
    ensures sys.Get(r).contact.ratchet.peerKey == Some(SlotAt(sys, r, i).payload.header.dh)
  {
    SeeSlot(sys, r, i);
    IsHere(sys, r, i);
  }
}
