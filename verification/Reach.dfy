/** What a queue of blobs may hold so that none of its messages is lost before its turn. Attempts
    made too early fill the table of stored keys and are not undone, so the room left in it is
    counted with all that the queue's attempts can store. */
module Reach {
  import opened Crypto
  import opened Message
  import opened SkippedKeys
  import opened TwoParty
  import opened Opening
  import opened Acceptance
  import opened Preservation
  import R = Ratchet
  import S = Session

  ghost predicate InReach(sys: System, r: Role, i: nat)
    requires Later(sys, r, i)
  {
    WithinGap(Gap(sys, r, i).0, Gap(sys, r, i).1)
  }

  // The session gate, for a message that opens before its turn.
  lemma GateDefers(c: S.Contact, blob: Blob, now: int, newKey: KeyId)
    requires R.Decrypt(c.ratchet, blob, newKey).Success?
    requires var m := R.Decrypt(c.ratchet, blob, newKey).value.1;
             m.conversation == c.conversation && m.seqNo > c.lastRecvSeq + 1
    ensures S.DecryptInbound(c, blob, now, newKey) == Failure(S.DuplicateSeq)
  {
  }

  lemma SlotIsStamped(sys: System, r: Role, i: nat)
    requires Inv(sys) && Later(sys, r, i)
    ensures var m := SlotAt(sys, r, i).payload.box.plaintext;
            m.seqNo == i + 1 && m.conversation == sys.Get(r).contact.conversation
  {
    SeeSide(sys, Other(r));
    assert WellSealed(sys.schedule, sys.nextKey, Other(r), sys.Get(Other(r)), i);
  }

  // A later slot tried before its turn: deferred if within reach, and else not even opened.
  lemma LaterIsDeferred(sys: System, r: Role, i: nat, now: int, newKey: KeyId)
    requires Inv(sys) && Later(sys, r, i) && i > sys.Get(r).contact.lastRecvSeq
    ensures S.DecryptInbound(sys.Get(r).contact, Framed(SlotAt(sys, r, i).payload), now, newKey) ==
            Failure(if InReach(sys, r, i) then S.DuplicateSeq else S.DecryptFailed)
  {
    SlotOpens(sys, r, i, newKey);
    SlotIsStamped(sys, r, i);
    if InReach(sys, r, i) {
      GateDefers(sys.Get(r).contact, Framed(SlotAt(sys, r, i).payload), now, newKey);
    }
  }

  // ---------- the room a queue needs ----------

  // The highest message number under a header key.
  function Top(queue: seq<Blob>, key: KeyId): nat {
    if queue == [] then 0 else
    var rest := Top(queue[1..], key);
    if queue[0].Framed? && queue[0].payload.header.dh == key && queue[0].payload.header.n > rest
    then queue[0].payload.header.n else rest
  }

  lemma {:induction false} TopBounds(queue: seq<Blob>, key: KeyId, blob: Blob)
    requires blob in queue && blob.Framed? && blob.payload.header.dh == key
    ensures blob.payload.header.n <= Top(queue, key)
  {
    if blob != queue[0] {
      TopBounds(queue[1..], key, blob);
    }
  }

  lemma {:induction false} TopIsReached(queue: seq<Blob>, key: KeyId, bound: nat)
    requires forall blob | blob in queue && blob.Framed? && blob.payload.header.dh == key ::
               blob.payload.header.n <= bound
    ensures Top(queue, key) <= bound
  {
    if queue != [] {
      assert queue[0] in queue;
      TopIsReached(queue[1..], key, bound);
    }
  }

  predicate OtherKeys(queue: seq<Blob>, key: KeyId) {
    exists blob | blob in queue :: blob.Framed? && blob.payload.header.dh != key
  }

  // How far ahead of the chain the queue reaches.
  function Span(recvN: nat, top: nat): nat { if top > recvN then top - recvN else 0 }

  // With every key up to a position stored, there is still room for a gap as wide as this one's.
  predicate RoomFor(table: set<R.SkipId>, key: KeyId, recvN: nat, top: nat, n: nat) {
    WithinGap(Span(recvN, n), |table + Ids(key, recvN, top)| + Span(recvN, n))
  }

  predicate Room(table: set<R.SkipId>, key: KeyId, recvN: nat, top: nat) {
    RoomFor(table, key, recvN, top, top)
  }

  // The most positions that an attempt under another header key may leave in the table.
  function OtherTop(queue: seq<Blob>, key: KeyId): nat {
    if queue == [] then 0 else
    var rest := OtherTop(queue[1..], key);
    if queue[0].Framed? && queue[0].payload.header.dh != key && FirstCount(queue[0].payload.header) > rest
    then FirstCount(queue[0].payload.header) else rest
  }

  lemma {:induction false} OtherTopBounds(queue: seq<Blob>, key: KeyId, blob: Blob)
    requires blob in queue && blob.Framed? && blob.payload.header.dh != key
    ensures FirstCount(blob.payload.header) <= OtherTop(queue, key)
  {
    if blob != queue[0] {
      OtherTopBounds(queue[1..], key, blob);
    }
  }

  lemma {:induction false} OtherTopIsReached(queue: seq<Blob>, key: KeyId, bound: nat)
    requires forall b | b in queue && b.Framed? && b.payload.header.dh != key :: FirstCount(b.payload.header) <= bound
    ensures OtherTop(queue, key) <= bound
  {
    if queue != [] {
      assert queue[0] in queue;
      OtherTopIsReached(queue[1..], key, bound);
    }
  }

  // All positions that the queue shows, under any header key.
  function AllIds(queue: seq<Blob>): set<R.SkipId> {
    if queue == [] then {}
    else if queue[0].Malformed? then AllIds(queue[1..])
    else Ids(queue[0].payload.header.dh, 0, queue[0].payload.header.n) + AllIds(queue[1..])
  }

  lemma {:induction false} AllIdsHas(queue: seq<Blob>, blob: Blob)
    requires blob in queue && blob.Framed?
    ensures Ids(blob.payload.header.dh, 0, blob.payload.header.n) <= AllIds(queue)
  {
    if blob != queue[0] {
      AllIdsHas(queue[1..], blob);
    }
  }

  lemma {:induction false} AllIdsWithin(queue: seq<Blob>, bound: set<R.SkipId>)
    requires forall b | b in queue && b.Framed? :: Ids(b.payload.header.dh, 0, b.payload.header.n) <= bound
    ensures AllIds(queue) <= bound
  {
    if queue != [] {
      assert queue[0] in queue;
      AllIdsWithin(queue[1..], bound);
    }
  }

  // Room for message n of the chain being received, whatever of the queue is tried before it. It
  // needs none if it is at the position reached. Else there must be room with these keys stored and
  // all that the queue shows under the chain's key, and beside what an attempt under another key
  // may leave once it has cleared the table. While no key is on record nothing is cleared, and all
  // that the queue shows may come to be stored.
  predicate RoomAt(peer: Option<KeyId>, recvN: nat, table: set<R.SkipId>, key: KeyId, queue: seq<Blob>, n: nat) {
    || Span(recvN, n) == 0
    || (&& RoomFor(table, key, recvN, Top(queue, key), n)
        && (OtherKeys(queue, key) ==>
              peer.Some? && OtherTop(queue, key) + Span(recvN, Top(queue, key)) + Span(recvN, n) <= R.MAX_SKIPPED_KEYS))
    || (peer.None? && WithinGap(Span(recvN, n), |table + AllIds(queue)| + Span(recvN, n)))
  }

  // A message of the queue, before that position of the log, is in the epoch being received, or one
  // DH step ahead.
  ghost predicate HereIn(sys: System, r: Role, queue: seq<Blob>, end: nat, i: nat) {
    i < end && Later(sys, r, i) && Here(sys, r, i) && Framed(SlotAt(sys, r, i).payload) in queue
  }

  ghost predicate AheadIn(sys: System, r: Role, queue: seq<Blob>, end: nat, i: nat) {
    && i < end && Later(sys, r, i) && SlotAt(sys, r, i).at.At? && !Here(sys, r, i)
    && Framed(SlotAt(sys, r, i).payload) in queue
  }

  ghost predicate AheadText(sys: System, r: Role, queue: seq<Blob>, end: nat, i: nat) {
    AheadIn(sys, r, queue, end, i) && SlotAt(sys, r, i).payload.box.plaintext.kind.Text?
  }

  ghost predicate RoomHere(sys: System, r: Role, table: map<R.SkipId, MessageKey>, queue: seq<Blob>, key: KeyId,
                           end: nat)
  {
    var q := sys.Get(r).contact.ratchet;
    forall i: nat | HereIn(sys, r, queue, end, i) ::
      RoomAt(q.peerKey, q.recvN, table.Keys, key, queue, SlotAt(sys, r, i).payload.header.n)
  }

  // Under the peer's next key, message n: within one gap, as the step clears the table, and with
  // room after it, whichever text takes the step.
  ghost predicate RoomPast(sys: System, r: Role, queue: seq<Blob>, key: KeyId, end: nat, n: nat) {
    n <= R.MAX_SKIP_GAP && forall t: nat | AheadText(sys, r, queue, end, t) ::
                             RoomAfter(SlotAt(sys, r, t).payload.header.n, key, queue, n)
  }

  predicate RoomAfter(t: nat, key: KeyId, queue: seq<Blob>, n: nat) {
    RoomAt(Some(key), t + 1, Ids(key, 0, t), key, queue, n)
  }

  ghost predicate RoomAhead(sys: System, r: Role, queue: seq<Blob>, key: KeyId, end: nat) {
    forall i: nat | AheadIn(sys, r, queue, end, i) ::
      RoomPast(sys, r, queue, key, end, SlotAt(sys, r, i).payload.header.n)
  }

  // The queue leaves room, with these keys stored, for its messages before that position of the log.
  ghost predicate Roomy(sys: System, r: Role, table: map<R.SkipId, MessageKey>, queue: seq<Blob>, end: nat) {
    var f, keys := RecvEpoch(sys.Get(r)), sys.schedule.keys;
    && f < |keys| && |table| <= R.MAX_SKIPPED_KEYS && RoomHere(sys, r, table, queue, keys[f], end)
    && (f + 2 < |keys| ==> RoomAhead(sys, r, queue, keys[f + 2], end))
  }

  lemma SmallerSet<T>(a: set<T>, b: set<T>)
    requires a <= b
    ensures |a| <= |b|
  {
    assert b == a + (b - a);
  }

  lemma RoomFits(q: R.State, key: KeyId, queue: seq<Blob>, n: nat)
    requires RoomAt(q.peerKey, q.recvN, q.skipped.Keys, key, queue, n) && |q.skipped| <= R.MAX_SKIPPED_KEYS
    ensures WithinGap(Span(q.recvN, n), |q.skipped| + Span(q.recvN, n))
  {
    SmallerSet(q.skipped.Keys, q.skipped.Keys + Ids(key, q.recvN, Top(queue, key)));
    SmallerSet(q.skipped.Keys, q.skipped.Keys + AllIds(queue));
    assert |q.skipped| == |q.skipped.Keys|;
  }

  lemma HereReaches(sys: System, r: Role, i: nat, queue: seq<Blob>, end: nat)
    requires HereIn(sys, r, queue, end, i) && SlotView(sys, r, i)
    requires Roomy(sys, r, sys.Get(r).contact.ratchet.skipped, queue, end)
    ensures InReach(sys, r, i)
  {
    RoomFits(sys.Get(r).contact.ratchet, sys.schedule.keys[RecvEpoch(sys.Get(r))], queue,
             SlotAt(sys, r, i).payload.header.n);
  }

  lemma AheadReaches(sys: System, r: Role, i: nat, queue: seq<Blob>, end: nat)
    requires Later(sys, r, i) && SlotView(sys, r, i) && !Here(sys, r, i) && sys.schedule.Distinct()
    requires i < end && Roomy(sys, r, sys.Get(r).contact.ratchet.skipped, queue, end)
    requires Framed(SlotAt(sys, r, i).payload) in queue
    ensures InReach(sys, r, i)
  {
    IsAhead(sys, r, i);
    if SlotAt(sys, r, i).at.At? {
      assert AheadIn(sys, r, queue, end, i);
    }
  }

  // Where there is room, every such message of the queue is within reach.
  lemma RoomReaches(sys: System, r: Role, i: nat, queue: seq<Blob>, end: nat)
    requires Inv(sys) && Later(sys, r, i) && i < end && Framed(SlotAt(sys, r, i).payload) in queue
    requires Roomy(sys, r, sys.Get(r).contact.ratchet.skipped, queue, end)
    ensures InReach(sys, r, i)
  {
    SeeSlot(sys, r, i);
    if Here(sys, r, i) {
      assert HereIn(sys, r, queue, end, i);
      HereReaches(sys, r, i, queue, end);
    } else {
      AheadReaches(sys, r, i, queue, end);
    }
  }

  // ---------- attempts take no more than was counted ----------

  // Under the key in use.
  lemma PassingKeepsRoom(m: map<R.SkipId, MessageKey>, t: map<R.SkipId, MessageKey>, key: KeyId, recvN: nat, upto: nat,
                         top: nat, n: nat)
    requires Adds(m, t, key, recvN, upto) && upto <= top && RoomFor(m.Keys, key, recvN, top, n)
    ensures RoomFor(t.Keys, key, recvN, top, n)
  {
    AddsIds(m, t, key, recvN, upto);
    assert Ids(key, recvN, upto) <= Ids(key, recvN, top);
    assert t.Keys + Ids(key, recvN, top) == m.Keys + Ids(key, recvN, top);
  }

  lemma UnionBound<T>(a: set<T>, b: set<T>)
    ensures |a + b| <= |a| + |b|
  {
    assert a + b == a + (b - a);
    SmallerSet(b - a, b);
  }

  lemma SpanCount(key: KeyId, recvN: nat, top: nat)
    ensures |Ids(key, recvN, top)| == Span(recvN, top)
  {
    if recvN <= top {
      IdsCount(key, recvN, top);
    } else {
      assert Ids(key, recvN, top) == {};
    }
  }

  // Under another key: what it leaves was counted beside the span.
  lemma OtherKeepsRoom(t: map<R.SkipId, MessageKey>, key: KeyId, recvN: nat, top: nat, others: nat, n: nat)
    requires |t| <= others && Span(recvN, n) <= R.MAX_SKIP_GAP
    requires others + Span(recvN, top) + Span(recvN, n) <= R.MAX_SKIPPED_KEYS
    ensures RoomFor(t.Keys, key, recvN, top, n)
  {
    SpanCount(key, recvN, top);
    UnionBound(t.Keys, Ids(key, recvN, top));
    assert |t| == |t.Keys|;
  }

  // While no key is on record.
  lemma AnyKeepsCount(m: map<R.SkipId, MessageKey>, t: map<R.SkipId, MessageKey>, queue: seq<Blob>, blob: Blob)
    requires blob in queue && blob.Framed? && Adds(m, t, blob.payload.header.dh, 0, blob.payload.header.n)
    ensures t.Keys + AllIds(queue) == m.Keys + AllIds(queue)
  {
    AddsIds(m, t, blob.payload.header.dh, 0, blob.payload.header.n);
    AllIdsHas(queue, blob);
  }

  ghost predicate AtKey(q: R.State, base: ChainStart, key: KeyId) {
    OnChain(q, base) && (q.peerKey == Some(key) || (q.peerKey.None? && q.recvN == 0))
  }

  lemma UnderKeyKeepsAt(q: R.State, base: ChainStart, blob: Blob, key: KeyId, queue: seq<Blob>, n: nat)
    requires AtKey(q, base, key) && blob in queue && blob.Framed? && blob.payload.header.dh == key
    requires RoomAt(q.peerKey, q.recvN, q.skipped.Keys, key, queue, n)
    ensures RoomAt(q.peerKey, q.recvN, R.Leftover(q, blob).Keys, key, queue, n)
  {
    var t := R.Leftover(q, blob);
    LeftoverInUse(q, base, blob);
    if t != q.skipped {
      TopBounds(queue, key, blob);
      if q.peerKey.None? {
        AnyKeepsCount(q.skipped, t, queue, blob);
      }
      if RoomFor(q.skipped.Keys, key, q.recvN, Top(queue, key), n) {
        PassingKeepsRoom(q.skipped, t, key, q.recvN, blob.payload.header.n, Top(queue, key), n);
      }
    }
  }

  lemma UnderOtherKeepsAt(q: R.State, base: ChainStart, blob: Blob, key: KeyId, queue: seq<Blob>, n: nat)
    requires AtKey(q, base, key) && blob in queue && blob.Framed? && blob.payload.header.dh != key
    requires RoomAt(q.peerKey, q.recvN, q.skipped.Keys, key, queue, n)
    ensures RoomAt(q.peerKey, q.recvN, R.Leftover(q, blob).Keys, key, queue, n)
  {
    var t := R.Leftover(q, blob);
    assert OtherKeys(queue, key);
    if q.peerKey.None? {
      LeftoverInUse(q, base, blob);
      if t != q.skipped {
        AnyKeepsCount(q.skipped, t, queue, blob);
      }
    } else if Span(q.recvN, n) > 0 {
      LeftoverAhead(q, blob);
      OtherTopBounds(queue, key, blob);
      OtherKeepsRoom(t, key, q.recvN, Top(queue, key), OtherTop(queue, key), n);
    }
  }

  lemma TrialKeepsAt(q: R.State, base: ChainStart, blob: Blob, key: KeyId, queue: seq<Blob>, n: nat)
    requires AtKey(q, base, key) && blob in queue && RoomAt(q.peerKey, q.recvN, q.skipped.Keys, key, queue, n)
    ensures RoomAt(q.peerKey, q.recvN, R.Leftover(q, blob).Keys, key, queue, n)
  {
    if blob.Framed? {
      if blob.payload.header.dh == key {
        UnderKeyKeepsAt(q, base, blob, key, queue, n);
      } else {
        UnderOtherKeepsAt(q, base, blob, key, queue, n);
      }
    }
  }

  lemma TrialKeepsHere(sys: System, r: Role, base: ChainStart, blob: Blob, queue: seq<Blob>, key: KeyId, end: nat)
    requires AtKey(sys.Get(r).contact.ratchet, base, key) && blob in queue
    requires RoomHere(sys, r, sys.Get(r).contact.ratchet.skipped, queue, key, end)
    ensures RoomHere(sys, r, R.Leftover(sys.Get(r).contact.ratchet, blob), queue, key, end)
  {
    var q := sys.Get(r).contact.ratchet;
    forall i: nat | HereIn(sys, r, queue, end, i)
      ensures RoomAt(q.peerKey, q.recvN, R.Leftover(q, blob).Keys, key, queue, SlotAt(sys, r, i).payload.header.n)
    {
      TrialKeepsAt(q, base, blob, key, queue, SlotAt(sys, r, i).payload.header.n);
    }
  }

  // A blob of the queue that is tried leaves room for the rest, whatever comes of it.
  lemma LeftoverIsRoomy(sys: System, r: Role, blob: Blob, queue: seq<Blob>, end: nat)
    requires Inv(sys) && blob in queue && Roomy(sys, r, sys.Get(r).contact.ratchet.skipped, queue, end)
    ensures Roomy(sys, r, R.Leftover(sys.Get(r).contact.ratchet, blob), queue, end)
  {
    var q, f := sys.Get(r).contact.ratchet, RecvEpoch(sys.Get(r));
    SeeSide(sys, r);
    LeftoverKeepsChain(q, sys.schedule.Chain(f), blob);
    TrialKeepsHere(sys, r, sys.schedule.Chain(f), blob, queue, sys.schedule.keys[f], end);
  }

  // What the room is counted on is the same, with no more messages to come.
  ghost predicate SameChain(a: System, b: System, r: Role) {
    var q, u := a.Get(r).contact.ratchet, b.Get(r).contact.ratchet;
    && RecvEpoch(b.Get(r)) == RecvEpoch(a.Get(r)) && b.schedule.keys == a.schedule.keys
    && u.recvN == q.recvN && u.peerKey == q.peerKey && NoMoreToCome(a, b, r)
  }

  ghost predicate NoMoreToCome(a: System, b: System, r: Role) {
    b.Get(Other(r)).log == a.Get(Other(r)).log && b.Get(r).contact.lastRecvSeq >= a.Get(r).contact.lastRecvSeq
  }

  ghost predicate SameEpoch(a: System, b: System, r: Role) {
    NoMoreToCome(a, b, r) && RecvEpoch(b.Get(r)) == RecvEpoch(a.Get(r))
  }

  lemma FewerHere(a: System, b: System, r: Role, table: map<R.SkipId, MessageKey>, queue: seq<Blob>, key: KeyId,
                  end: nat)
    requires SameChain(a, b, r) && RoomHere(a, r, table, queue, key, end)
    ensures RoomHere(b, r, table, queue, key, end)
  {
    var q := b.Get(r).contact.ratchet;
    forall i: nat | HereIn(b, r, queue, end, i)
      ensures RoomAt(q.peerKey, q.recvN, table.Keys, key, queue, SlotAt(b, r, i).payload.header.n)
    {
      assert HereIn(a, r, queue, end, i);
    }
  }

  lemma FewerPast(a: System, b: System, r: Role, queue: seq<Blob>, key: KeyId, end: nat, n: nat)
    requires SameEpoch(a, b, r) && RoomPast(a, r, queue, key, end, n)
    ensures RoomPast(b, r, queue, key, end, n)
  {
    forall t: nat | AheadText(b, r, queue, end, t) ensures RoomAfter(SlotAt(b, r, t).payload.header.n, key, queue, n) {
      assert AheadText(a, r, queue, end, t);
    }
  }

  // What room there is for messages ahead stays while none is added.
  lemma FewerAhead(a: System, b: System, r: Role, queue: seq<Blob>, key: KeyId, end: nat)
    requires SameEpoch(a, b, r) && RoomAhead(a, r, queue, key, end)
    ensures RoomAhead(b, r, queue, key, end)
  {
    forall i: nat | AheadIn(b, r, queue, end, i)
      ensures RoomPast(b, r, queue, key, end, SlotAt(b, r, i).payload.header.n)
    {
      assert AheadIn(a, r, queue, end, i);
      FewerPast(a, b, r, queue, key, end, SlotAt(b, r, i).payload.header.n);
    }
  }

  lemma AheadStays(a: System, b: System, r: Role, table: map<R.SkipId, MessageKey>, queue: seq<Blob>, end: nat)
    requires SameEpoch(a, b, r) && b.schedule.keys == a.schedule.keys && Roomy(a, r, table, queue, end)
    ensures var f, keys := RecvEpoch(a.Get(r)), a.schedule.keys;
            f + 2 < |keys| ==> RoomAhead(b, r, queue, keys[f + 2], end)
  {
    var f, keys := RecvEpoch(a.Get(r)), a.schedule.keys;
    if f + 2 < |keys| {
      FewerAhead(a, b, r, queue, keys[f + 2], end);
    }
  }

  lemma SameChainRoomy(a: System, b: System, r: Role, table: map<R.SkipId, MessageKey>, queue: seq<Blob>, end: nat)
    requires SameChain(a, b, r) && Roomy(a, r, table, queue, end)
    ensures Roomy(b, r, table, queue, end)
  {
    FewerHere(a, b, r, table, queue, a.schedule.keys[RecvEpoch(a.Get(r))], end);
    AheadStays(a, b, r, table, queue, end);
  }

  // The chain moving past position p frees what was counted for it.
  lemma MovingKeepsRoom(m: map<R.SkipId, MessageKey>, t: map<R.SkipId, MessageKey>, key: KeyId, recvN: nat, p: nat,
                        top: nat, n: nat)
    requires Adds(m, t, key, recvN, p) && recvN <= p <= top && RoomFor(m.Keys, key, recvN, top, n)
    ensures RoomFor(t.Keys, key, p + 1, top, n)
  {
    AddsIds(m, t, key, recvN, p);
    assert Ids(key, recvN, p) <= Ids(key, recvN, top) && Ids(key, p + 1, top) <= Ids(key, recvN, top);
    SmallerSet(t.Keys + Ids(key, p + 1, top), m.Keys + Ids(key, recvN, top));
  }

  // The ratchet as a text numbered n leaves it, under the key in use.
  ghost predicate MovedTo(q: R.State, u: R.State, key: KeyId, n: nat) {
    && u.peerKey == Some(key) && q.recvN <= n && u.recvN == n + 1
    && Adds(q.skipped, u.skipped, key, q.recvN, n) && |u.skipped| <= R.MAX_SKIPPED_KEYS
  }

  lemma {:induction false} TopIsCounted(queue: seq<Blob>, key: KeyId)
    ensures Ids(key, 0, Top(queue, key)) <= AllIds(queue)
  {
    if queue != [] {
      TopIsCounted(queue[1..], key);
    } else {
      assert Ids(key, 0, 0) == {};
    }
  }

  lemma {:induction false} OthersAreCounted(queue: seq<Blob>, key: KeyId) returns (other: KeyId)
    ensures other != key && Ids(other, 0, OtherTop(queue, key)) <= AllIds(queue)
  {
    other := key + 1;
    if queue == [] {
      assert Ids(other, 0, 0) == {};
    } else {
      other := OthersAreCounted(queue[1..], key);
      if OtherTop(queue, key) > OtherTop(queue[1..], key) {
        other := queue[0].payload.header.dh;
      }
    }
  }

  lemma CountHolds(queue: seq<Blob>, key: KeyId)
    ensures Top(queue, key) + OtherTop(queue, key) <= |AllIds(queue)|
  {
    var top, others := Top(queue, key), OtherTop(queue, key);
    TopIsCounted(queue, key);
    var other := OthersAreCounted(queue, key);
    IdsCount(key, 0, top);
    IdsCount(other, 0, others);
    assert Ids(key, 0, top) !! Ids(other, 0, others);
    SmallerSet(Ids(key, 0, top) + Ids(other, 0, others), AllIds(queue));
  }

  // The first key put on record: what was counted for all keys is enough for this one.
  lemma FirstKeyKeepsAt(m: map<R.SkipId, MessageKey>, t: map<R.SkipId, MessageKey>, key: KeyId, queue: seq<Blob>,
                        p: nat, n: nat)
    requires Adds(m, t, key, 0, p) && p <= Top(queue, key)
    requires WithinGap(n, |m.Keys + AllIds(queue)| + n)
    ensures RoomAt(Some(key), p + 1, t.Keys, key, queue, n)
  {
    var top := Top(queue, key);
    AddsIds(m, t, key, 0, p);
    TopIsCounted(queue, key);
    CountHolds(queue, key);
    assert Ids(key, 0, p) <= Ids(key, 0, top) && Ids(key, p + 1, top) <= Ids(key, 0, top);
    SmallerSet(t.Keys + Ids(key, p + 1, top), m.Keys + AllIds(queue));
    SmallerSet(AllIds(queue), m.Keys + AllIds(queue));
  }

  lemma MoveKeepsAt(q: R.State, u: R.State, key: KeyId, p: nat, queue: seq<Blob>, n: nat)
    requires q.peerKey == Some(key) || (q.peerKey.None? && q.recvN == 0)
    requires MovedTo(q, u, key, p) && p <= Top(queue, key) && RoomAt(q.peerKey, q.recvN, q.skipped.Keys, key, queue, n)
    ensures RoomAt(u.peerKey, u.recvN, u.skipped.Keys, key, queue, n)
  {
    if Span(q.recvN, n) > 0 {
      if RoomFor(q.skipped.Keys, key, q.recvN, Top(queue, key), n) {
        MovingKeepsRoom(q.skipped, u.skipped, key, q.recvN, p, Top(queue, key), n);
      }
      if q.peerKey.None? && WithinGap(n, |q.skipped.Keys + AllIds(queue)| + n) {
        FirstKeyKeepsAt(q.skipped, u.skipped, key, queue, p, n);
      }
    }
  }

  lemma MoveKeepsHere(a: System, b: System, r: Role, key: KeyId, p: nat, queue: seq<Blob>, end: nat)
    requires var q, u := a.Get(r).contact.ratchet, b.Get(r).contact.ratchet;
             && (q.peerKey == Some(key) || (q.peerKey.None? && q.recvN == 0)) && MovedTo(q, u, key, p)
    requires SameEpoch(a, b, r) && p <= Top(queue, key)
    requires RoomHere(a, r, a.Get(r).contact.ratchet.skipped, queue, key, end)
    ensures RoomHere(b, r, b.Get(r).contact.ratchet.skipped, queue, key, end)
  {
    var q, u := a.Get(r).contact.ratchet, b.Get(r).contact.ratchet;
    forall i: nat | HereIn(b, r, queue, end, i)
      ensures RoomAt(u.peerKey, u.recvN, u.skipped.Keys, key, queue, SlotAt(b, r, i).payload.header.n)
    {
      assert HereIn(a, r, queue, end, i);
      MoveKeepsAt(q, u, key, p, queue, SlotAt(b, r, i).payload.header.n);
    }
  }

  // A text accepted under the key in use.
  lemma HereRoomy(a: System, b: System, r: Role, p: nat, queue: seq<Blob>, end: nat)
    requires Roomy(a, r, a.Get(r).contact.ratchet.skipped, queue, end)
    requires SameEpoch(a, b, r) && b.schedule == a.schedule
    requires var q, key := a.Get(r).contact.ratchet, a.schedule.keys[RecvEpoch(a.Get(r))];
             && (q.peerKey == Some(key) || (q.peerKey.None? && q.recvN == 0))
             && MovedTo(q, b.Get(r).contact.ratchet, key, p) && p <= Top(queue, key)
    ensures Roomy(b, r, b.Get(r).contact.ratchet.skipped, queue, end)
  {
    var f, keys := RecvEpoch(a.Get(r)), a.schedule.keys;
    MoveKeepsHere(a, b, r, keys[f], p, queue, end);
    if f + 2 < |keys| {
      FewerAhead(a, b, r, queue, keys[f + 2], end);
    }
  }

  // The ratchet as a text numbered n leaves it, under a key that it steps to: the table holds that
  // key's first positions alone.
  ghost predicate SteppedAt(u: R.State, key: KeyId, n: nat) {
    && u.peerKey == Some(key) && u.recvN == n + 1 && Adds(map[], u.skipped, key, 0, n)
    && |u.skipped| <= R.MAX_SKIPPED_KEYS
  }

  lemma SteppedTable(u: R.State, key: KeyId, n: nat)
    requires SteppedAt(u, key, n)
    ensures u.skipped.Keys == Ids(key, 0, n)
  {
    AddsIds(map[], u.skipped, key, 0, n);
    assert u.skipped.Keys == {} + Ids(key, 0, n);
  }

  // The receiver has taken a step to that key, and nothing is ahead of it.
  ghost predicate StepsTo(a: System, b: System, r: Role, key: KeyId, n: nat) {
    var f, keys := RecvEpoch(b.Get(r)), b.schedule.keys;
    && f + 2 == |keys| && keys[f] == key && SteppedAt(b.Get(r).contact.ratchet, key, n)
    && f == RecvEpoch(a.Get(r)) + 2 && NoMoreToCome(a, b, r)
  }

  // What was ahead is then in the epoch being received.
  lemma AheadRoomy(a: System, b: System, r: Role, key: KeyId, t: nat, queue: seq<Blob>, end: nat)
    requires AheadText(a, r, queue, end, t) && StepsTo(a, b, r, key, SlotAt(a, r, t).payload.header.n)
    requires RoomAhead(a, r, queue, key, end)
    ensures Roomy(b, r, b.Get(r).contact.ratchet.skipped, queue, end)
  {
    var u := b.Get(r).contact.ratchet;
    SteppedTable(u, key, SlotAt(a, r, t).payload.header.n);
    forall i: nat | HereIn(b, r, queue, end, i)
      ensures RoomAt(u.peerKey, u.recvN, u.skipped.Keys, key, queue, SlotAt(b, r, i).payload.header.n)
    {
      assert AheadIn(a, r, queue, end, i);
      assert RoomPast(a, r, queue, key, end, SlotAt(a, r, i).payload.header.n);
      assert RoomAfter(SlotAt(a, r, t).payload.header.n, key, queue, SlotAt(a, r, i).payload.header.n);
    }
  }

  // ---------- acceptance keeps the room ----------

  lemma NextMoves(sys: System, r: Role, k: KeyId)
    requires Inv(sys) && HasNext(sys, r) && NextHere(sys, r)
    requires R.Decrypt(sys.Get(r).contact.ratchet, Framed(NextSlot(sys, r).payload), k).Success?
    ensures var q, h, f := sys.Get(r).contact.ratchet, NextSlot(sys, r).payload.header, RecvEpoch(sys.Get(r));
            var (u, m) := R.Decrypt(q, Framed(NextSlot(sys, r).payload), k).value;
            && (q.peerKey == Some(h.dh) || (q.peerKey.None? && q.recvN == 0))
            && MovedTo(q, u, h.dh, h.n) && u.selfKey == q.selfKey && u.pendingPeer == q.pendingPeer
            && m == NextSlot(sys, r).payload.box.plaintext
            && f < |sys.schedule.keys| && h.dh == sys.schedule.keys[f]
  {
    var l := sys.Get(r).contact.lastRecvSeq;
    SeeSlot(sys, r, l);
    SeeSide(sys, r);
    IsHere(sys, r, l);
    OpensInEpoch(sys.Get(r).contact.ratchet, sys.schedule.Chain(RecvEpoch(sys.Get(r))), NextSlot(sys, r).payload, k);
  }

  lemma HereLeaves(sys: System, r: Role, now: int, k: KeyId)
    requires Inv(sys) && HasNext(sys, r) && NextHere(sys, r) && NextSlot(sys, r).payload.box.plaintext.kind.Text?
    requires S.DecryptInbound(sys.Get(r).contact, Framed(NextSlot(sys, r).payload), now, k).Success?
    ensures var h, f := NextSlot(sys, r).payload.header, RecvEpoch(sys.Get(r));
            var next := Apply(sys, Receive(r, Framed(NextSlot(sys, r).payload), now, k));
            && f < |sys.schedule.keys| && h.dh == sys.schedule.keys[f]
            && SameEpoch(sys, next, r) && next.schedule == sys.schedule
            && var q := sys.Get(r).contact.ratchet;
               && (q.peerKey == Some(h.dh) || (q.peerKey.None? && q.recvN == 0))
               && MovedTo(q, next.Get(r).contact.ratchet, h.dh, h.n)
  {
    ReceiveIs(sys, r, Framed(NextSlot(sys, r).payload), now, k);
    NextMoves(sys, r, k);
  }

  lemma HereAcceptRoomy(sys: System, r: Role, now: int, k: KeyId, queue: seq<Blob>, end: nat)
    requires Inv(sys) && HasNext(sys, r) && NextHere(sys, r) && NextSlot(sys, r).payload.box.plaintext.kind.Text?
    requires S.DecryptInbound(sys.Get(r).contact, Framed(NextSlot(sys, r).payload), now, k).Success?
    requires Framed(NextSlot(sys, r).payload) in queue && Roomy(sys, r, sys.Get(r).contact.ratchet.skipped, queue, end)
    ensures var next := Apply(sys, Receive(r, Framed(NextSlot(sys, r).payload), now, k));
            Roomy(next, r, next.Get(r).contact.ratchet.skipped, queue, end)
  {
    var p := NextSlot(sys, r).payload;
    HereLeaves(sys, r, now, k);
    TopBounds(queue, p.header.dh, Framed(p));
    HereRoomy(sys, Apply(sys, Receive(r, Framed(p), now, k)), r, p.header.n, queue, end);
  }

  // The record after a DH step taken by the next message.
  lemma NextSteps(sys: System, r: Role, k: KeyId)
    requires Inv(sys) && HasNext(sys, r) && !NextHere(sys, r) && k >= sys.nextKey
    requires NextSlot(sys, r).payload.box.plaintext.kind.Text?
    requires R.Decrypt(sys.Get(r).contact.ratchet, Framed(NextSlot(sys, r).payload), k).Success?
    ensures var h, e := NextSlot(sys, r).payload.header, sys.Get(r).epoch;
            var (u, m) := R.Decrypt(sys.Get(r).contact.ratchet, Framed(NextSlot(sys, r).payload), k).value;
            && SteppedAt(u, h.dh, h.n) && u.selfKey == k != sys.Get(r).contact.ratchet.selfKey && u.pendingPeer.None?
            && m == NextSlot(sys, r).payload.box.plaintext
            && NextSlot(sys, r).at.At? && RecvEpoch(sys.Get(r)) == e - 1 && e + 2 == |sys.schedule.keys|
            && h.dh == sys.schedule.keys[e + 1]
  {
    var l := sys.Get(r).contact.lastRecvSeq;
    SeeSlot(sys, r, l);
    IsAhead(sys, r, l);
    AheadKey(sys, r, k);
    OpensByDhStep(sys.Get(r).contact.ratchet, NextSlot(sys, r).payload, k);
  }

  lemma AheadLeaves(sys: System, r: Role, now: int, k: KeyId)
    requires Inv(sys) && HasNext(sys, r) && !NextHere(sys, r) && k >= sys.nextKey
    requires NextSlot(sys, r).payload.box.plaintext.kind.Text?
    requires S.DecryptInbound(sys.Get(r).contact, Framed(NextSlot(sys, r).payload), now, k).Success?
    ensures var h, f := NextSlot(sys, r).payload.header, RecvEpoch(sys.Get(r));
            && NextSlot(sys, r).at.At? && f + 3 == |sys.schedule.keys| && h.dh == sys.schedule.keys[f + 2]
            && StepsTo(sys, Apply(sys, Receive(r, Framed(NextSlot(sys, r).payload), now, k)), r, h.dh, h.n)
  {
    ReceiveIs(sys, r, Framed(NextSlot(sys, r).payload), now, k);
    NextSteps(sys, r, k);
  }

  // No room is asked for once the position is past it.
  lemma PastEndRoomy(sys: System, r: Role, queue: seq<Blob>, end: nat)
    requires Inv(sys) && sys.Get(r).contact.lastRecvSeq >= end
    ensures Roomy(sys, r, sys.Get(r).contact.ratchet.skipped, queue, end)
  {
    SeeSide(sys, r);
  }

  lemma AheadAcceptRoomy(sys: System, r: Role, now: int, k: KeyId, queue: seq<Blob>, end: nat)
    requires Inv(sys) && HasNext(sys, r) && !NextHere(sys, r) && k >= sys.nextKey
    requires NextSlot(sys, r).payload.box.plaintext.kind.Text? && sys.Get(r).contact.lastRecvSeq < end
    requires S.DecryptInbound(sys.Get(r).contact, Framed(NextSlot(sys, r).payload), now, k).Success?
    requires Framed(NextSlot(sys, r).payload) in queue && Roomy(sys, r, sys.Get(r).contact.ratchet.skipped, queue, end)
    ensures var next := Apply(sys, Receive(r, Framed(NextSlot(sys, r).payload), now, k));
            Roomy(next, r, next.Get(r).contact.ratchet.skipped, queue, end)
  {
    var p, l := NextSlot(sys, r).payload, sys.Get(r).contact.lastRecvSeq;
    AheadLeaves(sys, r, now, k);
    assert AheadText(sys, r, queue, end, l);
    AheadRoomy(sys, Apply(sys, Receive(r, Framed(p), now, k)), r, p.header.dh, l, queue, end);
  }

  lemma NextKeepsInv(sys: System, r: Role, now: int, k: KeyId)
    requires Inv(sys) && HasNext(sys, r) && k >= sys.nextKey
    requires S.DecryptInbound(sys.Get(r).contact, Framed(NextSlot(sys, r).payload), now, k).Success?
    ensures var next := Apply(sys, Receive(r, Framed(NextSlot(sys, r).payload), now, k));
            Inv(next) && next.Get(r).contact.lastRecvSeq == sys.Get(r).contact.lastRecvSeq + 1
  {
    assert SealedIn(sys.Get(Other(r)).log, NextSlot(sys, r).payload.box);
    StepKeepsInv(sys, Receive(r, Framed(NextSlot(sys, r).payload), now, k));
    ReceiveIs(sys, r, Framed(NextSlot(sys, r).payload), now, k);
    NextIsStamped(sys, r);
    NextIsAccepted(sys, r, now, k);
  }

  // What is accepted leaves room for every message still to come.
  lemma AcceptKeepsRoom(sys: System, r: Role, now: int, k: KeyId, queue: seq<Blob>, end: nat)
    requires Inv(sys) && HasNext(sys, r) && k >= sys.nextKey
    requires S.DecryptInbound(sys.Get(r).contact, Framed(NextSlot(sys, r).payload), now, k).Success?
    requires Framed(NextSlot(sys, r).payload) in queue && Roomy(sys, r, sys.Get(r).contact.ratchet.skipped, queue, end)
    ensures var next := Apply(sys, Receive(r, Framed(NextSlot(sys, r).payload), now, k));
            Roomy(next, r, next.Get(r).contact.ratchet.skipped, queue, end)
  {
    var blob := Framed(NextSlot(sys, r).payload);
    if !NextSlot(sys, r).payload.box.plaintext.kind.Text? {
      NextIsAccepted(sys, r, now, k);
      ReceiveIs(sys, r, blob, now, k);
      LeftoverIsRoomy(sys, r, blob, queue, end);
      SameChainRoomy(sys, Apply(sys, Receive(r, blob, now, k)), r, R.Leftover(sys.Get(r).contact.ratchet, blob), queue,
                     end);
    } else if NextHere(sys, r) {
      HereAcceptRoomy(sys, r, now, k, queue, end);
    } else if sys.Get(r).contact.lastRecvSeq < end {
      AheadAcceptRoomy(sys, r, now, k, queue, end);
    } else {
      NextKeepsInv(sys, r, now, k);
      PastEndRoomy(Apply(sys, Receive(r, blob, now, k)), r, queue, end);
    }
  }

  lemma TrialSameChain(sys: System, r: Role, blob: Blob, now: int, k: KeyId)
    requires S.DecryptInbound(sys.Get(r).contact, blob, now, k).Failure?
    ensures var next := Apply(sys, Receive(r, blob, now, k));
            SameChain(sys, next, r) && next.Get(r).contact.ratchet.skipped ==
              R.Leftover(sys.Get(r).contact.ratchet, blob)
  {
  }

  // A blob that is turned away leaves room too.
  lemma RejectKeepsRoom(sys: System, r: Role, blob: Blob, now: int, k: KeyId, queue: seq<Blob>, end: nat)
    requires Inv(sys) && S.DecryptInbound(sys.Get(r).contact, blob, now, k).Failure?
    requires blob in queue && Roomy(sys, r, sys.Get(r).contact.ratchet.skipped, queue, end)
    ensures var next := Apply(sys, Receive(r, blob, now, k));
            SameChain(sys, next, r) && Roomy(next, r, next.Get(r).contact.ratchet.skipped, queue, end)
  {
    LeftoverIsRoomy(sys, r, blob, queue, end);
    TrialSameChain(sys, r, blob, now, k);
    SameChainRoomy(sys, Apply(sys, Receive(r, blob, now, k)), r, R.Leftover(sys.Get(r).contact.ratchet, blob), queue,
                   end);
  }
}
