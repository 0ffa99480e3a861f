/** Exactly how much room the table of stored keys must have for a fetch to get as far as it can,
    across a DH step too: for every queue up to what was sent, and for every queue at all. */
module Exactness {
  import opened Crypto
  import opened Message
  import opened Log
  import opened SkippedKeys
  import opened TwoParty
  import opened Acceptance
  import opened Reach
  import opened Fetch
  import opened Hearing
  import opened Draining
  import opened Overflow
  import opened Crowding
  import R = Ratchet

  // ---------- what was sent so far ----------

  // The last message of its epoch among those before that position of the log.
  ghost predicate LastOf(sys: System, r: Role, end: nat, j: nat) {
    && j < end && Later(sys, r, j) && SlotAt(sys, r, j).at.At?
    && forall l: nat | j < l < end && Later(sys, r, l) && SlotAt(sys, r, l).at.At? ::
         SlotAt(sys, r, l).at.epoch != SlotAt(sys, r, j).at.epoch
  }

  ghost predicate Past(sys: System, r: Role, end: nat, i: nat) {
    i < end && Later(sys, r, i) && SlotAt(sys, r, i).at.At? && !Here(sys, r, i)
  }

  // A text that makes the receiver take a DH step.
  ghost predicate StepText(sys: System, r: Role, end: nat, t: nat) {
    Past(sys, r, end, t) && SlotAt(sys, r, t).payload.box.plaintext.kind.Text?
  }

  // Under each of the peer's header keys, no number is higher than that of the last message.
  ghost predicate UpToSent(sys: System, r: Role, end: nat, queue: seq<Blob>) {
    forall j: nat | LastOf(sys, r, end, j) ::
      KeyUpTo(queue, SlotAt(sys, r, j).payload.header.dh, SlotAt(sys, r, j).payload.header.n)
  }

  // Room for a gap of other keys beside the positions up to message n; while no key is on record
  // they fill the table.
  predicate RoomForOthers(q: R.State, n: nat) {
    Span(q.recvN, n) == 0 || (q.peerKey.Some? && Beside(q.recvN, n, R.MAX_SKIP_GAP))
  }

  // Up to that message of the epoch being received, on top of the keys stored and beside a gap of
  // others; or, past the DH step, one gap from the start and from the text that took the step so
  // far that there is room beside a gap of others.
  ghost predicate RoomUpTo(sys: System, r: Role, end: nat, j: nat)
    requires Later(sys, r, j)
  {
    var q, h := sys.Get(r).contact.ratchet, SlotAt(sys, r, j).payload.header;
    if Here(sys, r, j) then Room(q.skipped.Keys, h.dh, q.recvN, h.n) && RoomForOthers(q, h.n)
    else h.n <= R.MAX_SKIP_GAP && forall t: nat | StepText(sys, r, end, t) ::
           Beside(SlotAt(sys, r, t).payload.header.n + 1, h.n, R.MAX_SKIP_GAP)
  }

  ghost predicate RoomForSent(sys: System, r: Role, end: nat) {
    forall j: nat | LastOf(sys, r, end, j) :: RoomUpTo(sys, r, end, j)
  }

  ghost predicate RoomForHere(sys: System, r: Role, end: nat) {
    forall j: nat | LastOf(sys, r, end, j) && Here(sys, r, j) :: RoomUpTo(sys, r, end, j)
  }

  // The messages from the next one up to that position of the log, none missing or expired.
  ghost predicate AllThere(sys: System, r: Role, end: nat, now: int) {
    var log := sys.Get(Other(r)).log;
    end <= |log| && forall j: nat | sys.Get(r).contact.lastRecvSeq <= j < end :: There(log, j, now)
  }

  lemma AllToHorizon(sys: System, r: Role, m: Mail, env: Env)
    requires Inv(sys)
    ensures AllThere(sys, r, Horizon(sys, r, m, env), env.now)
  {
    HorizonIs(sys, r, m, env);
  }

  lemma {:induction false} LastInEpoch(sys: System, r: Role, end: nat, i: nat) returns (j: nat)
    requires i < end && Later(sys, r, i) && SlotAt(sys, r, i).at.At?
    ensures i <= j && LastOf(sys, r, end, j) && SlotAt(sys, r, j).at.epoch == SlotAt(sys, r, i).at.epoch
    decreases end - i
  {
    j := i;
    if l: nat :| i < l < end && Later(sys, r, l) && SlotAt(sys, r, l).at.At?
                 && SlotAt(sys, r, l).at.epoch == SlotAt(sys, r, i).at.epoch
    {
      j := LastInEpoch(sys, r, end, l);
    }
  }

  lemma LogInOrder(sys: System, r: Role)
    requires Inv(sys)
    ensures InOrder(First(Other(r)), sys.Get(Other(r)).log)
  {
    SeeSide(sys, Other(r));
  }

  // ---------- room is enough ----------

  lemma OthersFit(queue: seq<Blob>, key: KeyId)
    ensures OtherTop(queue, key) <= R.MAX_SKIP_GAP
  {
    OtherTopIsReached(queue, key, R.MAX_SKIP_GAP);
  }

  lemma RoomForFits(q: R.State, key: KeyId, queue: seq<Blob>, n: nat, high: nat)
    requires Room(q.skipped.Keys, key, q.recvN, high) && RoomForOthers(q, high)
    requires Top(queue, key) <= high && n <= high
    ensures RoomAt(q.peerKey, q.recvN, q.skipped.Keys, key, queue, n)
  {
    RoomForBelow(q.skipped.Keys, key, q.recvN, Top(queue, key), n, high);
    OthersFit(queue, key);
  }

  lemma HereFits(sys: System, r: Role, end: nat, i: nat, queue: seq<Blob>)
    requires Inv(sys) && HereIn(sys, r, queue, end, i) && UpToSent(sys, r, end, queue) && RoomForHere(sys, r, end)
    ensures var q, f, keys := sys.Get(r).contact.ratchet, RecvEpoch(sys.Get(r)), sys.schedule.keys;
            f < |keys| && RoomAt(q.peerKey, q.recvN, q.skipped.Keys, keys[f], queue, SlotAt(sys, r, i).payload.header.n)
  {
    var j := LastInEpoch(sys, r, end, i);
    var h := SlotAt(sys, r, j).payload.header;
    SeeSlot(sys, r, i);
    SeeSlot(sys, r, j);
    assert RoomUpTo(sys, r, end, j);
    TopIsReached(queue, h.dh, h.n);
    TopBounds(queue, h.dh, Framed(SlotAt(sys, r, i).payload));
    RoomForFits(sys.Get(r).contact.ratchet, h.dh, queue, SlotAt(sys, r, i).payload.header.n, h.n);
  }

  lemma AfterFits(t: nat, key: KeyId, queue: seq<Blob>, n: nat, high: nat)
    requires t <= Top(queue, key) <= high <= R.MAX_SKIP_GAP && n <= high && Beside(t + 1, high, R.MAX_SKIP_GAP)
    ensures RoomAfter(t, key, queue, n)
  {
    var top := Top(queue, key);
    assert Ids(key, 0, t) <= Ids(key, 0, top) && Ids(key, t + 1, top) <= Ids(key, 0, top);
    SmallerSet(Ids(key, 0, t) + Ids(key, t + 1, top), Ids(key, 0, top));
    IdsCount(key, 0, top);
    OthersFit(queue, key);
  }

  // What is ahead has the key after the next of the schedule.
  lemma AheadPlace(sys: System, r: Role, i: nat)
    requires Inv(sys) && Later(sys, r, i) && SlotAt(sys, r, i).at.At? && !Here(sys, r, i)
    ensures var f, keys := RecvEpoch(sys.Get(r)), sys.schedule.keys;
            f + 2 < |keys| && keys[f + 2] == SlotAt(sys, r, i).payload.header.dh
  {
    SeeSlot(sys, r, i);
    AheadKeyIs(sys, r, i);
  }

  lemma AheadKeyIs(sys: System, r: Role, i: nat)
    requires Later(sys, r, i) && SlotView(sys, r, i) && sys.schedule.Distinct()
    requires SlotAt(sys, r, i).at.At? && !Here(sys, r, i)
    ensures var f, keys := RecvEpoch(sys.Get(r)), sys.schedule.keys;
            f + 2 < |keys| && keys[f + 2] == SlotAt(sys, r, i).payload.header.dh
  {
    IsAhead(sys, r, i);
  }

  lemma LastHasRoom(sys: System, r: Role, end: nat, j: nat, queue: seq<Blob>)
    requires LastOf(sys, r, end, j) && UpToSent(sys, r, end, queue) && RoomForSent(sys, r, end)
    ensures RoomUpTo(sys, r, end, j)
    ensures KeyUpTo(queue, SlotAt(sys, r, j).payload.header.dh, SlotAt(sys, r, j).payload.header.n)
  {
  }

  lemma AheadFits(sys: System, r: Role, end: nat, i: nat, queue: seq<Blob>)
    requires Inv(sys) && AheadIn(sys, r, queue, end, i) && UpToSent(sys, r, end, queue) && RoomForSent(sys, r, end)
    ensures RoomPast(sys, r, queue, SlotAt(sys, r, i).payload.header.dh, end, SlotAt(sys, r, i).payload.header.n)
  {
    var j := LastInEpoch(sys, r, end, i);
    AheadRises(sys, r, i, j);
    LastHasRoom(sys, r, end, j, queue);
    AheadFitsTo(sys, r, end, j, queue, SlotAt(sys, r, i).payload.header.n);
  }

  lemma AheadFitsTo(sys: System, r: Role, end: nat, j: nat, queue: seq<Blob>, n: nat)
    requires Inv(sys) && Past(sys, r, end, j) && RoomUpTo(sys, r, end, j) && n <= SlotAt(sys, r, j).payload.header.n
    requires KeyUpTo(queue, SlotAt(sys, r, j).payload.header.dh, SlotAt(sys, r, j).payload.header.n)
    ensures RoomPast(sys, r, queue, SlotAt(sys, r, j).payload.header.dh, end, n)
  {
    var h := SlotAt(sys, r, j).payload.header;
    TopIsReached(queue, h.dh, h.n);
    forall t: nat | AheadText(sys, r, queue, end, t)
      ensures RoomAfter(SlotAt(sys, r, t).payload.header.n, h.dh, queue, n)
    {
      assert StepText(sys, r, end, t);
      AheadRises(sys, r, t, j);
      TopBounds(queue, h.dh, Framed(SlotAt(sys, r, t).payload));
      AfterFits(SlotAt(sys, r, t).payload.header.n, h.dh, queue, n, h.n);
    }
  }

  // Room for each message is room for the queue.
  lemma EachIsRoomy(sys: System, r: Role, queue: seq<Blob>, end: nat)
    requires Inv(sys)
    requires var q, f, keys := sys.Get(r).contact.ratchet, RecvEpoch(sys.Get(r)), sys.schedule.keys;
             f < |keys| && forall i: nat | HereIn(sys, r, queue, end, i) ::
               RoomAt(q.peerKey, q.recvN, q.skipped.Keys, keys[f], queue, SlotAt(sys, r, i).payload.header.n)
    requires forall i: nat | AheadIn(sys, r, queue, end, i) ::
               RoomPast(sys, r, queue, SlotAt(sys, r, i).payload.header.dh, end, SlotAt(sys, r, i).payload.header.n)
    ensures Roomy(sys, r, sys.Get(r).contact.ratchet.skipped, queue, end)
  {
    TableHolds(sys, r);
    var f, keys := RecvEpoch(sys.Get(r)), sys.schedule.keys;
    if f + 2 < |keys| {
      forall i: nat | AheadIn(sys, r, queue, end, i)
        ensures RoomPast(sys, r, queue, keys[f + 2], end, SlotAt(sys, r, i).payload.header.n)
      {
        AheadPlace(sys, r, i);
      }
    }
  }

  lemma EpochIsThere(sys: System, r: Role)
    requires Inv(sys)
    ensures RecvEpoch(sys.Get(r)) < |sys.schedule.keys|
  {
    SeeSide(sys, r);
  }

  lemma SentIsRoomy(sys: System, r: Role, end: nat, queue: seq<Blob>)
    requires Inv(sys) && UpToSent(sys, r, end, queue) && RoomForSent(sys, r, end)
    ensures Roomy(sys, r, sys.Get(r).contact.ratchet.skipped, queue, end)
  {
    var q, f, keys := sys.Get(r).contact.ratchet, RecvEpoch(sys.Get(r)), sys.schedule.keys;
    EpochIsThere(sys, r);
    forall i: nat | HereIn(sys, r, queue, end, i)
      ensures RoomAt(q.peerKey, q.recvN, q.skipped.Keys, keys[f], queue, SlotAt(sys, r, i).payload.header.n)
    {
      HereFits(sys, r, end, i, queue);
    }
    forall i: nat | AheadIn(sys, r, queue, end, i)
      ensures RoomPast(sys, r, queue, SlotAt(sys, r, i).payload.header.dh, end, SlotAt(sys, r, i).payload.header.n)
    {
      AheadFits(sys, r, end, i, queue);
    }
    EachIsRoomy(sys, r, queue, end);
  }

  // ---------- queues of what was sent, and forgeries ----------

  // A blob that shows the header of a message still to come, or a key never used.
  ghost predicate Shows(sys: System, r: Role, end: nat, b: Blob) {
    b.Framed? ==> b.payload.header.dh >= sys.nextKey || exists l: nat :: ShowsSlot(sys, r, end, l, b)
  }

  ghost predicate ShowsSlot(sys: System, r: Role, end: nat, l: nat, b: Blob) {
    && l < end && Later(sys, r, l) && b.Framed?
    && b.payload.header.dh == SlotAt(sys, r, l).payload.header.dh
    && b.payload.header.n == SlotAt(sys, r, l).payload.header.n
  }

  ghost predicate Shown(sys: System, r: Role, end: nat, queue: seq<Blob>) {
    forall b <- queue :: Presentable(sys, b) && Shows(sys, r, end, b)
  }

  lemma OneEpoch(sys: System, r: Role, l: nat, j: nat)
    requires Later(sys, r, l) && Later(sys, r, j) && SlotView(sys, r, l) && SlotView(sys, r, j)
    requires sys.schedule.Distinct()
    requires SlotAt(sys, r, j).at.At? && SlotAt(sys, r, l).payload.header.dh == SlotAt(sys, r, j).payload.header.dh
    ensures SlotAt(sys, r, l).at.At? && SlotAt(sys, r, l).at.epoch == SlotAt(sys, r, j).at.epoch
  {
    if !Here(sys, r, l) {
      IsAhead(sys, r, l);
    }
    if !Here(sys, r, j) {
      IsAhead(sys, r, j);
    }
  }

  lemma SlotIsUpTo(sys: System, r: Role, end: nat, l: nat, j: nat)
    requires Inv(sys) && l < end && Later(sys, r, l) && LastOf(sys, r, end, j)
    requires SlotAt(sys, r, l).payload.header.dh == SlotAt(sys, r, j).payload.header.dh
    ensures l <= j && SlotAt(sys, r, l).payload.header.n <= SlotAt(sys, r, j).payload.header.n
  {
    SeeSlot(sys, r, l);
    SeeSlot(sys, r, j);
    OneEpoch(sys, r, l, j);
    if l < j {
      LogInOrder(sys, r);
      PlacesRise(First(Other(r)), sys.Get(Other(r)).log, l, j);
    }
  }

  lemma KeyIsUsed(sys: System, r: Role, j: nat)
    requires Inv(sys) && Later(sys, r, j)
    ensures SlotAt(sys, r, j).payload.header.dh < sys.nextKey
  {
    SeeSide(sys, Other(r));
    assert WellSealed(sys.schedule, sys.nextKey, Other(r), sys.Get(Other(r)), j);
  }

  lemma ShownIsUpTo(sys: System, r: Role, end: nat, queue: seq<Blob>)
    requires Inv(sys) && Shown(sys, r, end, queue)
    ensures Presentables(sys, queue) && UpToSent(sys, r, end, queue)
  {
    forall j: nat, b | LastOf(sys, r, end, j) && b in queue && b.Framed?
                       && b.payload.header.dh == SlotAt(sys, r, j).payload.header.dh
      ensures b.payload.header.n <= SlotAt(sys, r, j).payload.header.n
    {
      KeyIsUsed(sys, r, j);
      assert Shows(sys, r, end, b);
      var l: nat :| ShowsSlot(sys, r, end, l, b);
      SlotIsUpTo(sys, r, end, l, j);
    }
  }

  lemma ForgeryIsShown(sys: System, r: Role, end: nat, key: KeyId, n: nat, queue: seq<Blob>)
    requires Shown(sys, r, end, queue) && key >= sys.nextKey
    ensures Shown(sys, r, end, [Framed(Forgery(key, n))] + queue)
  {
  }

  lemma SlotIsShown(sys: System, r: Role, end: nat, j: nat, queue: seq<Blob>)
    requires Shown(sys, r, end, queue) && j < end && Later(sys, r, j)
    ensures Shown(sys, r, end, [Framed(SlotAt(sys, r, j).payload)] + queue)
  {
    var p := SlotAt(sys, r, j).payload;
    assert SealedIn(sys.Get(Other(r)).log, p.box) && ShowsSlot(sys, r, end, j, Framed(p));
  }

  lemma TailIsShown(sys: System, r: Role, end: nat, j: nat, queue: seq<Blob>)
    requires Shown(sys, r, end, queue) && j < end && Later(sys, r, j)
    ensures Shown(sys, r, end, Tail(sys, r, j, queue))
  {
    var p := SlotAt(sys, r, j).payload;
    SlotIsShown(sys, r, end, j, queue);
    assert ShowsSlot(sys, r, end, j, Framed(Forgery(p.header.dh, p.header.n)));
  }

  // The queue has the messages at positions from..upto-1.
  ghost predicate Covers(log: seq<Slot>, from: nat, upto: nat, queue: seq<Blob>, now: int) {
    forall j: nat | from <= j < upto :: Takeable(log, j, queue, now)
  }

  lemma CoversMore(log: seq<Slot>, from: nat, upto: nat, queue: seq<Blob>, more: seq<Blob>, now: int)
    requires Covers(log, from, upto, queue, now) && Among(queue, more)
    ensures Covers(log, from, upto, more, now)
  {
    forall j: nat | from <= j < upto ensures Takeable(log, j, more, now) {
      assert Takeable(log, j, queue, now);
    }
  }

  lemma CoversOne(log: seq<Slot>, from: nat, j: nat, queue: seq<Blob>, now: int)
    requires Covers(log, from, j, queue, now) && j < |log| && There(log, j, now) && Framed(log[j].payload) in queue
    ensures Covers(log, from, j + 1, queue, now)
  {
  }

  lemma CoversJoin(log: seq<Slot>, from: nat, mid: nat, upto: nat, queue: seq<Blob>, now: int)
    requires Covers(log, from, mid, queue, now) && Covers(log, mid, upto, queue, now)
    ensures Covers(log, from, upto, queue, now)
  {
  }

  // The messages from position k up to i, in order.
  lemma BlobsShow(sys: System, r: Role, end: nat, k: nat, i: nat, now: int)
    requires AllThere(sys, r, end, now) && sys.Get(r).contact.lastRecvSeq <= k <= i <= end
    ensures Shown(sys, r, end, Blobs(sys.Get(Other(r)).log, k, i))
    ensures Covers(sys.Get(Other(r)).log, k, i, Blobs(sys.Get(Other(r)).log, k, i), now)
  {
    var log, queue := sys.Get(Other(r)).log, Blobs(sys.Get(Other(r)).log, k, i);
    forall j: nat | k <= j < i ensures log[j].Sent? {
      assert There(log, j, now);
    }
    forall b | b in queue ensures Presentable(sys, b) && Shows(sys, r, end, b) {
      BlobsAre(log, k, i, b);
      var j: nat :| k <= j < i && b == Framed(log[j].payload);
      assert SealedIn(log, b.payload.box) && ShowsSlot(sys, r, end, j, b);
    }
    forall j: nat | k <= j < i ensures Takeable(log, j, queue, now) {
      assert There(log, j, now);
      BlobsAre(log, k, i, Framed(log[j].payload));
    }
  }

  lemma BlobsPresent(sys: System, r: Role, end: nat, k: nat, i: nat, now: int)
    requires Inv(sys) && AllThere(sys, r, end, now) && sys.Get(r).contact.lastRecvSeq <= k <= i <= end
    ensures var queue := Blobs(sys.Get(Other(r)).log, k, i); Presentables(sys, queue) && UpToSent(sys, r, end, queue)
  {
    BlobsShow(sys, r, end, k, i, now);
    ShownIsUpTo(sys, r, end, Blobs(sys.Get(Other(r)).log, k, i));
  }

  lemma NotAmongOthers(sys: System, r: Role, end: nat, k: nat, i: nat, j: nat, now: int)
    requires Inv(sys) && AllThere(sys, r, end, now) && sys.Get(r).contact.lastRecvSeq <= k <= i <= end
    requires Later(sys, r, j) && !(k <= j < i)
    ensures Framed(SlotAt(sys, r, j).payload) !in Blobs(sys.Get(Other(r)).log, k, i)
  {
    var log := sys.Get(Other(r)).log;
    forall l: nat | k <= l < i ensures log[l].Sent? && log[l].payload != SlotAt(sys, r, j).payload {
      assert There(log, l, now) && Later(sys, r, l);
      SlotIsStamped(sys, r, l);
      SlotIsStamped(sys, r, j);
    }
    BlobsAre(log, k, i, Framed(SlotAt(sys, r, j).payload));
  }

  // A queue with everything up to message j, which the fetch does not get past though it could.
  ghost predicate Misses(sys: System, r: Role, m: Mail, queue: seq<Blob>, env: Env, j: nat) {
    && StopsAt(m, queue, env, j)
    && Covers(sys.Get(Other(r)).log, sys.Get(r).contact.lastRecvSeq, j + 1, queue, env.now)
  }

  lemma MissesRun(sys: System, r: Role, m: Mail, queue: seq<Blob>, env: Env, j: nat)
    requires sys.Get(r).contact.lastRecvSeq <= j < Horizon(sys, r, m, env) && Misses(sys, r, m, queue, env, j)
    ensures !CollectsRun(sys, r, m, queue, env)
  {
    RunEndIs(sys.Get(Other(r)).log, sys.Get(r).contact.lastRecvSeq, j + 1, queue, env.now);
    ReadsPast(sys, r, m, j, queue, env);
  }

  // The messages before one, in order.
  ghost function Before(sys: System, r: Role, j: nat): seq<Blob> {
    Blobs(sys.Get(Other(r)).log, sys.Get(r).contact.lastRecvSeq, j)
  }

  // A queue with that message and those before it.
  ghost predicate Reaching(sys: System, r: Role, j: nat, queue: seq<Blob>)
    requires Later(sys, r, j)
  {
    Framed(SlotAt(sys, r, j).payload) in queue && Among(Before(sys, r, j), queue)
  }

  lemma ReachingMisses(sys: System, r: Role, m: Mail, end: nat, j: nat, queue: seq<Blob>, env: Env)
    requires AllThere(sys, r, end, env.now) && j < end && Later(sys, r, j) && Reaching(sys, r, j, queue)
    requires StopsAt(m, queue, env, j)
    ensures Misses(sys, r, m, queue, env, j)
  {
    var log, k := sys.Get(Other(r)).log, sys.Get(r).contact.lastRecvSeq;
    BlobsShow(sys, r, end, k, j, env.now);
    CoversMore(log, k, j, Before(sys, r, j), queue, env.now);
    assert There(log, j, env.now);
    CoversOne(log, k, j, queue, env.now);
  }

  // ---------- no room in the epoch being received ----------

  lemma BeforeIsRest(sys: System, r: Role, m: Mail, end: nat, j: nat, env: Env)
    requires Synced(sys, r, m) && AllThere(sys, r, end, env.now) && j < end && Later(sys, r, j)
    ensures Shown(sys, r, end, Before(sys, r, j)) && Presentables(sys, Before(sys, r, j))
    ensures Framed(SlotAt(sys, r, j).payload) !in Before(sys, r, j)
    ensures env.now <= SlotAt(sys, r, j).payload.box.plaintext.validUntil
  {
    BlobsShow(sys, r, end, sys.Get(r).contact.lastRecvSeq, j, env.now);
    BlobsPresent(sys, r, end, sys.Get(r).contact.lastRecvSeq, j, env.now);
    NotAmongOthers(sys, r, end, sys.Get(r).contact.lastRecvSeq, j, j, env.now);
    assert There(sys.Get(Other(r)).log, j, env.now);
  }

  lemma ForgeryReaches(sys: System, r: Role, j: nat, key: KeyId, n: nat, queue: seq<Blob>)
    requires Later(sys, r, j) && Reaching(sys, r, j, queue)
    ensures Reaching(sys, r, j, [Framed(Forgery(key, n))] + queue)
  {
  }

  lemma HereStops(sys: System, r: Role, m: Mail, end: nat, j: nat, env: Env) returns (queue: seq<Blob>)
    requires TopAndRest(sys, r, m, j, Before(sys, r, j), env.now) && j < end && !RoomUpTo(sys, r, end, j)
    requires Shown(sys, r, end, Before(sys, r, j))
    ensures Shown(sys, r, end, queue) && Reaching(sys, r, j, queue) && StopsAt(m, queue, env, j)
  {
    var q, h, rest := sys.Get(r).contact.ratchet, SlotAt(sys, r, j).payload.header, Before(sys, r, j);
    queue := Tail(sys, r, j, rest);
    TailIsShown(sys, r, end, j, rest);
    if !Room(q.skipped.Keys, h.dh, q.recvN, h.n) {
      CrowdedOut(sys, r, m, j, rest, env);
    } else if q.peerKey.Some? {
      KeyIsUsed(sys, r, j);
      LongSpanLoses(sys, r, m, j, rest, env, sys.nextKey);
      ForgeryReaches(sys, r, j, sys.nextKey, R.MAX_SKIP_GAP, queue);
      ForgeryIsShown(sys, r, end, sys.nextKey, R.MAX_SKIP_GAP, queue);
      queue := [Framed(Forgery(sys.nextKey, R.MAX_SKIP_GAP))] + queue;
    } else {
      var a, x, b, y := FullTableLoses(sys, r, m, j, rest, env);
      ForgeryIsShown(sys, r, end, b, y, queue);
      ForgeryReaches(sys, r, j, b, y, queue);
      ForgeryIsShown(sys, r, end, a, x, [Framed(Forgery(b, y))] + queue);
      ForgeryReaches(sys, r, j, a, x, [Framed(Forgery(b, y))] + queue);
      queue := [Framed(Forgery(a, x))] + ([Framed(Forgery(b, y))] + queue);
    }
  }

  lemma HereLoses(sys: System, r: Role, m: Mail, j: nat, env: Env) returns (queue: seq<Blob>)
    requires Synced(sys, r, m) && Later(sys, r, j) && Here(sys, r, j) && j < Horizon(sys, r, m, env)
    requires !RoomUpTo(sys, r, Horizon(sys, r, m, env), j)
    ensures Loses(sys, r, m, queue, env)
  {
    var end := Horizon(sys, r, m, env);
    AllToHorizon(sys, r, m, env);
    UnbrokenTo(sys, r, m, j, env);
    BeforeIsRest(sys, r, m, end, j, env);
    queue := HereStops(sys, r, m, end, j, env);
    ReachingMisses(sys, r, m, end, j, queue, env);
    ShownLoses(sys, r, m, j, queue, env);
  }

  // A queue up to what was sent, with which the fetch does not get as far as it could.
  ghost predicate Loses(sys: System, r: Role, m: Mail, queue: seq<Blob>, env: Env) {
    && Presentables(sys, queue) && UpToSent(sys, r, Horizon(sys, r, m, env), queue)
    && !CollectsRun(sys, r, m, queue, env)
  }

  lemma ShownLoses(sys: System, r: Role, m: Mail, j: nat, queue: seq<Blob>, env: Env)
    requires Inv(sys) && Later(sys, r, j) && j < Horizon(sys, r, m, env) && Misses(sys, r, m, queue, env, j)
    requires Shown(sys, r, Horizon(sys, r, m, env), queue)
    ensures Loses(sys, r, m, queue, env)
  {
    ShownIsUpTo(sys, r, Horizon(sys, r, m, env), queue);
    MissesRun(sys, r, m, queue, env, j);
  }

  // ---------- no room past a DH step ----------

  // A message more than a gap from the start of its epoch, tried first.
  lemma FarStops(sys: System, r: Role, m: Mail, j: nat, rest: seq<Blob>, env: Env)
    requires Synced(sys, r, m) && !m.halted && Presentables(sys, rest)
    requires Later(sys, r, j) && !Here(sys, r, j) && SlotAt(sys, r, j).payload.header.n > R.MAX_SKIP_GAP
    requires Framed(SlotAt(sys, r, j).payload) !in rest
    requires env.now <= SlotAt(sys, r, j).payload.box.plaintext.validUntil
    ensures StopsAt(m, [Framed(SlotAt(sys, r, j).payload)] + rest, env, j)
  {
    assert !InReach(sys, r, j);
    OutOfReachIsLost(sys, r, m, j, rest, env);
  }

  lemma FarLoses(sys: System, r: Role, m: Mail, j: nat, env: Env) returns (queue: seq<Blob>)
    requires Synced(sys, r, m) && Past(sys, r, Horizon(sys, r, m, env), j)
    requires SlotAt(sys, r, j).payload.header.n > R.MAX_SKIP_GAP
    ensures Loses(sys, r, m, queue, env)
  {
    var end := Horizon(sys, r, m, env);
    queue := [Framed(SlotAt(sys, r, j).payload)] + Before(sys, r, j);
    AllToHorizon(sys, r, m, env);
    UnbrokenTo(sys, r, m, j, env);
    BeforeIsRest(sys, r, m, end, j, env);
    SlotIsShown(sys, r, end, j, Before(sys, r, j));
    FarStops(sys, r, m, j, Before(sys, r, j), env);
    ReachingMisses(sys, r, m, end, j, queue, env);
    ShownLoses(sys, r, m, j, queue, env);
  }

  lemma OnwardThen(a: System, b: System, c: System, r: Role)
    requires Onward(a, b, r) && Onward(b, c, r)
    ensures Onward(a, c, r)
  {
  }

  lemma BlobsThen(log: seq<Slot>, k: nat, i: nat, tail: seq<Blob>)
    requires k < i <= |log| && log[i - 1].Sent?
    ensures Blobs(log, k, i) + tail == Blobs(log, k, i - 1) + ([Framed(log[i - 1].payload)] + tail)
  {
  }

  // From one state to another by taking all messages before that position, in order.
  ghost predicate Walked(sys: System, r: Role, m: Mail, next: System, n: Mail, upto: nat, all: seq<Blob>, env: Env,
                         end: nat)
  {
    && Drainable(next, r, n, all, end) && Onward(sys, next, r) && next.Get(r).contact.lastRecvSeq == upto
    && !n.halted && OnCourse(sys, r, m, next, n, env)
  }

  // Messages that can all be taken, listed in order: each is accepted, and the rest of the queue
  // is tried on what that leaves.
  lemma {:induction false} Walk(sys: System, r: Role, m: Mail, upto: nat, all: seq<Blob>, tail: seq<Blob>, env: Env,
                                end: nat, i: nat)
    returns (next: System, n: Mail)
    requires Drainable(sys, r, m, all, end) && sys.Get(r).contact.lastRecvSeq <= upto <= end
    requires !m.halted && Stop(sys, r, m, upto, env) == (upto, false)
    requires Covers(sys.Get(Other(r)).log, sys.Get(r).contact.lastRecvSeq, upto, all, env.now)
    ensures Walked(sys, r, m, next, n, upto, all, env, end)
    ensures StopsAt(n, tail, env, i) ==>
              StopsAt(m, Blobs(sys.Get(Other(r)).log, sys.Get(r).contact.lastRecvSeq, upto) + tail, env, i)
    decreases upto
  {
    var log, k := sys.Get(Other(r)).log, sys.Get(r).contact.lastRecvSeq;
    if upto == k {
      next, n := sys, m;
      NoBlobs(log, k, tail);
    } else {
      OneFewer(log, k, upto, all, env.now);
      StopBefore(sys, r, m, upto, env);
      var mid, o := Walk(sys, r, m, upto - 1, all, [Framed(log[upto - 1].payload)] + tail, env, end, i);
      next, n := WalkMore(sys, mid, r, m, o, upto, all, env, end);
      WalkStops(log, k, upto, m, o, tail, env, i);
    }
  }

  lemma NoBlobs(log: seq<Slot>, k: nat, tail: seq<Blob>)
    ensures Blobs(log, k, k) + tail == tail
  {
  }

  lemma OneFewer(log: seq<Slot>, k: nat, upto: nat, all: seq<Blob>, now: int)
    requires k < upto && Covers(log, k, upto, all, now)
    ensures Covers(log, k, upto - 1, all, now) && upto <= |log| && log[upto - 1].Sent?
    ensures Takeable(log, upto - 1, all, now)
  {
    assert Takeable(log, upto - 1, all, now);
  }

  lemma WalkMore(sys: System, mid: System, r: Role, m: Mail, o: Mail, upto: nat, all: seq<Blob>, env: Env, end: nat)
    returns (next: System, n: Mail)
    requires 0 < upto <= end && Walked(sys, r, m, mid, o, upto - 1, all, env, end)
    requires Stop(sys, r, m, upto, env) == (upto, false)
    requires Takeable(sys.Get(Other(r)).log, upto - 1, all, env.now)
    ensures var b := Framed(sys.Get(Other(r)).log[upto - 1].payload);
            Take(o, b, env).1 == Accepted && n == Take(o, b, env).0
    ensures Walked(sys, r, m, next, n, upto, all, env, end)
  {
    next, n := WalkOne(mid, r, o, all, env, end);
    WalkGoesOn(sys, mid, next, r, m, o, n, upto, env);
  }

  lemma WalkStops(log: seq<Slot>, k: nat, upto: nat, m: Mail, o: Mail, tail: seq<Blob>, env: Env, i: nat)
    requires k < upto <= |log| && log[upto - 1].Sent?
    requires var b := Framed(log[upto - 1].payload);
             && !o.halted && Take(o, b, env).1 == Accepted
             && (StopsAt(o, [b] + tail, env, i) ==> StopsAt(m, Blobs(log, k, upto - 1) + ([b] + tail), env, i))
    ensures StopsAt(Take(o, Framed(log[upto - 1].payload), env).0, tail, env, i) ==>
              StopsAt(m, Blobs(log, k, upto) + tail, env, i)
  {
    var b := Framed(log[upto - 1].payload);
    BlobsThen(log, k, upto, tail);
    if StopsAt(Take(o, b, env).0, tail, env, i) {
      AcceptedInFront(o, b, tail, env, i);
    }
  }

  lemma StopBefore(sys: System, r: Role, m: Mail, e: nat, env: Env)
    requires !m.halted && Stop(sys, r, m, e, env) == (e, false) && sys.Get(r).contact.lastRecvSeq < e
    ensures Stop(sys, r, m, e - 1, env) == (e - 1, false)
  {
    RekeyStopUpTo(sys.Get(Other(r)).log, sys.Get(r).contact.lastRecvSeq, e - 1, e, SealsLeft(m.contact, env.now),
                  m.tried, env.refused);
  }

  lemma WalkGoesOn(a: System, b: System, c: System, r: Role, m: Mail, n: Mail, o: Mail, upto: nat, env: Env)
    requires Onward(a, b, r) && Onward(b, c, r) && OnCourse(a, r, m, b, n, env) && OnCourse(b, r, n, c, o, env)
    requires b.Get(r).contact.lastRecvSeq < c.Get(r).contact.lastRecvSeq == upto
    requires Stop(a, r, m, upto, env) == (upto, false)
    ensures Onward(a, c, r) && OnCourse(a, r, m, c, o, env) && !o.halted
  {
    OnwardThen(a, b, c, r);
    OnCourseThen(a, b, c, r, m, n, o, env);
    assert Stop(c, r, o, upto, env) == Stop(a, r, m, upto, env);
  }

  lemma WalkOne(sys: System, r: Role, m: Mail, all: seq<Blob>, env: Env, end: nat) returns (next: System, n: Mail)
    requires Drainable(sys, r, m, all, end) && !m.halted && sys.Get(r).contact.lastRecvSeq < end
    requires Takeable(sys.Get(Other(r)).log, sys.Get(r).contact.lastRecvSeq, all, env.now)
    ensures var b := Framed(sys.Get(Other(r)).log[sys.Get(r).contact.lastRecvSeq].payload);
            Take(m, b, env).1 == Accepted && n == Take(m, b, env).0
    ensures Drainable(next, r, n, all, end) && Onward(sys, next, r) && OnCourse(sys, r, m, next, n, env)
    ensures next.Get(r).contact.lastRecvSeq == sys.Get(r).contact.lastRecvSeq + 1
  {
    var k := sys.Get(r).contact.lastRecvSeq;
    var b := Framed(sys.Get(Other(r)).log[k].payload);
    TakeableIsTaken(sys, r, m, all, env, end, k);
    TakeDrains(sys, r, m, b, all, all, env, end);
    assert Presentable(sys, b);
    TakeHears(sys, r, m, b, env);
    next, n := Heard(sys, r, m, b, env), Take(m, b, env).0;
  }

  lemma {:induction false} FirstStepText(sys: System, r: Role, end: nat, t: nat) returns (u: nat)
    requires StepText(sys, r, end, t)
    ensures u <= t && FirstOver(sys, r, end, u)
  {
    u := t;
    if v: nat :| v < t && StepText(sys, r, end, v) {
      u := FirstStepText(sys, r, end, v);
    }
  }

  // The first text past the step.
  ghost predicate FirstOver(sys: System, r: Role, end: nat, t: nat) {
    StepText(sys, r, end, t) && forall v: nat | v < t :: !StepText(sys, r, end, v)
  }

  // Messages ahead have one header key, and numbers that rise.
  lemma AheadRises(sys: System, r: Role, t: nat, j: nat)
    requires Inv(sys) && Later(sys, r, t) && Later(sys, r, j) && !Here(sys, r, t) && !Here(sys, r, j)
    requires SlotAt(sys, r, t).at.At? && SlotAt(sys, r, j).at.At?
    ensures SlotAt(sys, r, t).at.epoch == SlotAt(sys, r, j).at.epoch
    ensures var h, g := SlotAt(sys, r, t).payload.header, SlotAt(sys, r, j).payload.header;
            h.dh == g.dh && (t <= j ==> h.n <= g.n)
  {
    SeeSlot(sys, r, t);
    SeeSlot(sys, r, j);
    IsAhead(sys, r, t);
    IsAhead(sys, r, j);
    if t < j {
      LogInOrder(sys, r);
      PlacesRise(First(Other(r)), sys.Get(Other(r)).log, t, j);
    }
  }

  // The first text past the step and all before it, in order: room for all.
  lemma StepIsRoomy(sys: System, r: Role, end: nat, t: nat, queue: seq<Blob>)
    requires Inv(sys) && FirstOver(sys, r, end, t) && SlotAt(sys, r, t).payload.header.n <= R.MAX_SKIP_GAP
    requires RoomForHere(sys, r, end) && UpToSent(sys, r, end, queue)
    ensures Roomy(sys, r, sys.Get(r).contact.ratchet.skipped, queue, t + 1)
  {
    var q, f, keys := sys.Get(r).contact.ratchet, RecvEpoch(sys.Get(r)), sys.schedule.keys;
    EpochIsThere(sys, r);
    forall i: nat | HereIn(sys, r, queue, t + 1, i)
      ensures RoomAt(q.peerKey, q.recvN, q.skipped.Keys, keys[f], queue, SlotAt(sys, r, i).payload.header.n)
    {
      assert HereIn(sys, r, queue, end, i);
      HereFits(sys, r, end, i, queue);
    }
    forall i: nat | AheadIn(sys, r, queue, t + 1, i)
      ensures RoomPast(sys, r, queue, SlotAt(sys, r, i).payload.header.dh, t + 1, SlotAt(sys, r, i).payload.header.n)
    {
      AheadRises(sys, r, i, t);
      OnlyOneSteps(sys, r, end, t, queue, SlotAt(sys, r, i).payload.header.dh, SlotAt(sys, r, i).payload.header.n);
    }
    EachIsRoomy(sys, r, queue, t + 1);
  }

  lemma OnlyOneSteps(sys: System, r: Role, end: nat, t: nat, queue: seq<Blob>, key: KeyId, n: nat)
    requires FirstOver(sys, r, end, t) && n <= SlotAt(sys, r, t).payload.header.n <= R.MAX_SKIP_GAP
    ensures RoomPast(sys, r, queue, key, t + 1, n)
  {
    forall u: nat | AheadText(sys, r, queue, t + 1, u)
      ensures RoomAfter(SlotAt(sys, r, u).payload.header.n, key, queue, n)
    {
      assert StepText(sys, r, end, u);
      assert u == t;
    }
  }

  // Right after a text was accepted, the receiver is at its place.
  lemma AtText(sys: System, r: Role, t: nat)
    requires Inv(sys) && sys.Get(r).contact.lastRecvSeq == t + 1 <= |sys.Get(Other(r)).log|
    requires var slot := sys.Get(Other(r)).log[t]; slot.Sent? && slot.at.At? && slot.payload.box.plaintext.kind.Text?
    ensures var slot, q := sys.Get(Other(r)).log[t], sys.Get(r).contact.ratchet;
            RecvEpoch(sys.Get(r)) == slot.at.epoch && q.recvN == slot.payload.header.n + 1 && q.peerKey.Some?
  {
    var log := sys.Get(Other(r)).log;
    SeeSide(sys, r);
    SeeSide(sys, Other(r));
    CursorStep(First(Other(r)), log, t);
    assert FitsAt(First(Other(r)), log, t);
    assert WellSealed(sys.schedule, sys.nextKey, Other(r), sys.Get(Other(r)), t);
  }

  // They are accepted, and the rest of the queue is tried on what that leaves.
  lemma WalkToStep(sys: System, r: Role, m: Mail, t: nat, tail: seq<Blob>, env: Env, i: nat)
    returns (next: System, n: Mail)
    requires Synced(sys, r, m) && m.contact == m.disk.contact && t + 1 < Horizon(sys, r, m, env)
    requires FirstOver(sys, r, Horizon(sys, r, m, env), t) && SlotAt(sys, r, t).payload.header.n <= R.MAX_SKIP_GAP
    requires RoomForHere(sys, r, Horizon(sys, r, m, env))
    ensures Synced(next, r, n) && !n.halted && Onward(sys, next, r) && next.Get(r).contact.lastRecvSeq == t + 1
    ensures StopsAt(n, tail, env, i) ==> StopsAt(m, Before(sys, r, t + 1) + tail, env, i)
  {
    var all, end := Before(sys, r, t + 1), Horizon(sys, r, m, env);
    AllToHorizon(sys, r, m, env);
    UnbrokenTo(sys, r, m, t, env);
    BlobsShow(sys, r, end, sys.Get(r).contact.lastRecvSeq, t + 1, env.now);
    BlobsPresent(sys, r, end, sys.Get(r).contact.lastRecvSeq, t + 1, env.now);
    StepIsRoomy(sys, r, end, t, all);
    StopsPast(sys, r, m, t + 1, env);
    next, n := Walk(sys, r, m, t + 1, all, tail, env, t + 1, i);
  }

  // What is asked of message j once text t, of its epoch, was the last accepted.
  ghost predicate Behind(next: System, r: Role, n: Mail, t: nat, j: nat, rest: seq<Blob>, now: int) {
    && Synced(next, r, n) && !n.halted && Presentables(next, rest) && next.Get(r).contact.lastRecvSeq == t + 1 <= j
    && Later(next, r, j) && SlotAt(next, r, j).at.At? && Framed(SlotAt(next, r, j).payload) !in rest
    && now <= SlotAt(next, r, j).payload.box.plaintext.validUntil
    && var slot := next.Get(Other(r)).log[t];
       && slot.Sent? && slot.at.At? && slot.payload.box.plaintext.kind.Text?
       && slot.at.epoch == SlotAt(next, r, j).at.epoch
  }

  lemma BehindIsTop(next: System, r: Role, n: Mail, t: nat, j: nat, rest: seq<Blob>, now: int)
    requires Behind(next, r, n, t, j, rest, now)
    ensures TopAndRest(next, r, n, j, rest, now) && n.contact.ratchet.peerKey.Some?
    ensures n.contact.ratchet.recvN == next.Get(Other(r)).log[t].payload.header.n + 1
  {
    AtText(next, r, t);
  }

  lemma UsedAndFresh(sys: System, r: Role, end: nat, j: nat, now: int)
    requires Inv(sys) && AllThere(sys, r, end, now) && j < end && Later(sys, r, j)
    ensures SlotAt(sys, r, j).payload.header.dh != sys.nextKey
    ensures now <= SlotAt(sys, r, j).payload.box.plaintext.validUntil
  {
    KeyIsUsed(sys, r, j);
    assert There(sys.Get(Other(r)).log, j, now);
  }

  lemma RestStays(sys: System, next: System, r: Role, end: nat, t: nat, j: nat, now: int)
    requires Inv(sys) && AllThere(sys, r, end, now) && Later(sys, r, t) && t < j < end && Onward(sys, next, r)
    ensures Presentables(next, Blobs(sys.Get(Other(r)).log, t + 1, j))
  {
    BlobsPresent(sys, r, end, t + 1, j, now);
    PresentablesStay(sys, next, r, Blobs(sys.Get(Other(r)).log, t + 1, j));
  }

  // Everything after text t and before message j.
  ghost function Between(sys: System, r: Role, t: nat, j: nat): seq<Blob> {
    Blobs(sys.Get(Other(r)).log, t + 1, j)
  }

  lemma StepLeavesBehind(sys: System, next: System, r: Role, n: Mail, end: nat, t: nat, j: nat, env: Env)
    requires Inv(sys) && AllThere(sys, r, end, env.now) && StepText(sys, r, end, t) && Past(sys, r, end, j) && t < j
    requires Synced(next, r, n) && !n.halted && Onward(sys, next, r) && next.Get(r).contact.lastRecvSeq == t + 1
    ensures Behind(next, r, n, t, j, Between(sys, r, t, j), env.now)
    ensures SlotAt(next, r, j) == SlotAt(sys, r, j)
  {
    RestStays(sys, next, r, end, t, j, env.now);
    NotAmongOthers(sys, r, end, t + 1, j, j, env.now);
    UsedAndFresh(sys, r, end, j, env.now);
    AheadRises(sys, r, t, j);
    BehindIs(sys, next, r, n, t, j, Between(sys, r, t, j), env.now);
  }

  lemma BehindIs(sys: System, next: System, r: Role, n: Mail, t: nat, j: nat, rest: seq<Blob>, now: int)
    requires Later(sys, r, t) && Later(sys, r, j) && t < j && SlotAt(sys, r, t).at.At? && SlotAt(sys, r, j).at.At?
    requires SlotAt(sys, r, t).at.epoch == SlotAt(sys, r, j).at.epoch
    requires SlotAt(sys, r, t).payload.box.plaintext.kind.Text?
    requires Presentables(next, rest) && Framed(SlotAt(sys, r, j).payload) !in rest
    requires now <= SlotAt(sys, r, j).payload.box.plaintext.validUntil
    requires Synced(next, r, n) && !n.halted && Onward(sys, next, r) && next.Get(r).contact.lastRecvSeq == t + 1
    ensures Behind(next, r, n, t, j, rest, now) && SlotAt(next, r, j) == SlotAt(sys, r, j)
  {
  }

  // The queue that crosses the step: all up to the text, then these blobs, then the last message
  // with a forgery before and the others after it.
  ghost function AcrossStep(sys: System, r: Role, t: nat, j: nat, more: seq<Blob>): seq<Blob>
    requires Later(sys, r, j)
  {
    Before(sys, r, t + 1) + (more + Tail(sys, r, j, Between(sys, r, t, j)))
  }

  lemma AcrossIsShown(sys: System, r: Role, end: nat, t: nat, j: nat, more: seq<Blob>, now: int)
    requires AllThere(sys, r, end, now) && Later(sys, r, t) && Later(sys, r, j) && t < j < end
    requires Shown(sys, r, end, more)
    ensures Shown(sys, r, end, AcrossStep(sys, r, t, j, more))
  {
    BlobsShow(sys, r, end, sys.Get(r).contact.lastRecvSeq, t + 1, now);
    BlobsShow(sys, r, end, t + 1, j, now);
    TailIsShown(sys, r, end, j, Between(sys, r, t, j));
  }

  lemma AcrossCovers(sys: System, r: Role, end: nat, t: nat, j: nat, more: seq<Blob>, now: int)
    requires AllThere(sys, r, end, now) && Later(sys, r, t) && Later(sys, r, j) && t < j < end
    ensures var log, k := sys.Get(Other(r)).log, sys.Get(r).contact.lastRecvSeq;
            Covers(log, k, j + 1, AcrossStep(sys, r, t, j, more), now)
  {
    var log, k, queue := sys.Get(Other(r)).log, sys.Get(r).contact.lastRecvSeq, AcrossStep(sys, r, t, j, more);
    BlobsShow(sys, r, end, k, t + 1, now);
    BlobsShow(sys, r, end, t + 1, j, now);
    CoversMore(log, k, t + 1, Before(sys, r, t + 1), queue, now);
    CoversMore(log, t + 1, j, Between(sys, r, t, j), queue, now);
    CoversJoin(log, k, t + 1, j, queue, now);
    assert There(log, j, now);
    CoversOne(log, k, j, queue, now);
  }

  lemma BesideStops(next: System, r: Role, n: Mail, t: nat, j: nat, rest: seq<Blob>, env: Env, other: KeyId)
    requires Behind(next, r, n, t, j, rest, env.now) && other != SlotAt(next, r, j).payload.header.dh
    requires !Beside(next.Get(Other(r)).log[t].payload.header.n + 1, SlotAt(next, r, j).payload.header.n,
                     R.MAX_SKIP_GAP)
    ensures StopsAt(n, [Framed(Forgery(other, R.MAX_SKIP_GAP))] + Tail(next, r, j, rest), env, j)
  {
    BehindIsTop(next, r, n, t, j, rest, env.now);
    LongSpanLoses(next, r, n, j, rest, env, other);
  }

  lemma OneIsShown(sys: System, r: Role, end: nat, key: KeyId, n: nat)
    requires key >= sys.nextKey
    ensures Shown(sys, r, end, [Framed(Forgery(key, n))])
  {
  }

  // Up to the text everything is accepted; what the others make of the rest decides.
  lemma CrossTo(sys: System, r: Role, m: Mail, t: nat, j: nat, more: seq<Blob>, env: Env)
    returns (next: System, n: Mail)
    requires Synced(sys, r, m) && m.contact == m.disk.contact && Past(sys, r, Horizon(sys, r, m, env), j) && t < j
    requires FirstOver(sys, r, Horizon(sys, r, m, env), t) && SlotAt(sys, r, t).payload.header.n <= R.MAX_SKIP_GAP
    requires RoomForHere(sys, r, Horizon(sys, r, m, env))
    ensures Behind(next, r, n, t, j, Between(sys, r, t, j), env.now)
    ensures SlotAt(next, r, j) == SlotAt(sys, r, j) && next.Get(Other(r)).log[t] == SlotAt(sys, r, t)
    ensures StopsAt(n, more + Tail(next, r, j, Between(sys, r, t, j)), env, j) ==>
              StopsAt(m, AcrossStep(sys, r, t, j, more), env, j)
  {
    AllToHorizon(sys, r, m, env);
    next, n := WalkToStep(sys, r, m, t, more + Tail(sys, r, j, Between(sys, r, t, j)), env, j);
    StepLeavesBehind(sys, next, r, n, Horizon(sys, r, m, env), t, j, env);
  }

  lemma StepLoses(sys: System, r: Role, m: Mail, t: nat, j: nat, env: Env) returns (queue: seq<Blob>)
    requires Synced(sys, r, m) && m.contact == m.disk.contact && Past(sys, r, Horizon(sys, r, m, env), j) && t < j
    requires FirstOver(sys, r, Horizon(sys, r, m, env), t) && SlotAt(sys, r, t).payload.header.n <= R.MAX_SKIP_GAP
    requires RoomForHere(sys, r, Horizon(sys, r, m, env))
    requires !Beside(SlotAt(sys, r, t).payload.header.n + 1, SlotAt(sys, r, j).payload.header.n, R.MAX_SKIP_GAP)
    ensures Loses(sys, r, m, queue, env)
  {
    var end, more := Horizon(sys, r, m, env), [Framed(Forgery(sys.nextKey, R.MAX_SKIP_GAP))];
    queue := AcrossStep(sys, r, t, j, more);
    AllToHorizon(sys, r, m, env);
    UsedAndFresh(sys, r, end, j, env.now);
    var next, n := CrossTo(sys, r, m, t, j, more, env);
    BesideStops(next, r, n, t, j, Between(sys, r, t, j), env, sys.nextKey);
    OneIsShown(sys, r, end, sys.nextKey, R.MAX_SKIP_GAP);
    AcrossIsShown(sys, r, end, t, j, more, env.now);
    AcrossCovers(sys, r, end, t, j, more, env.now);
    ShownLoses(sys, r, m, j, queue, env);
  }

  // The first text past the step leaves no room for the last message.
  lemma StepIsTooFar(sys: System, r: Role, end: nat, t: nat, u: nat, j: nat)
    requires Inv(sys) && StepText(sys, r, end, t) && StepText(sys, r, end, u) && u <= t && Past(sys, r, end, j)
    requires Span(SlotAt(sys, r, t).payload.header.n + 1, SlotAt(sys, r, j).payload.header.n) > 0
    ensures u < j && SlotAt(sys, r, u).payload.header.n < SlotAt(sys, r, j).payload.header.n
    ensures Span(SlotAt(sys, r, u).payload.header.n + 1, SlotAt(sys, r, j).payload.header.n) >=
            Span(SlotAt(sys, r, t).payload.header.n + 1, SlotAt(sys, r, j).payload.header.n)
  {
    AheadRises(sys, r, u, t);
    AheadRises(sys, r, j, u);
  }

  lemma NearLoses(sys: System, r: Role, m: Mail, j: nat, env: Env) returns (queue: seq<Blob>)
    requires Synced(sys, r, m) && m.contact == m.disk.contact && RoomForHere(sys, r, Horizon(sys, r, m, env))
    requires Past(sys, r, Horizon(sys, r, m, env), j) && !RoomUpTo(sys, r, Horizon(sys, r, m, env), j)
    requires SlotAt(sys, r, j).payload.header.n <= R.MAX_SKIP_GAP
    ensures Loses(sys, r, m, queue, env)
  {
    var end := Horizon(sys, r, m, env);
    var t: nat :| StepText(sys, r, end, t)
                  && !Beside(SlotAt(sys, r, t).payload.header.n + 1, SlotAt(sys, r, j).payload.header.n,
                             R.MAX_SKIP_GAP);
    var u := FirstStepText(sys, r, end, t);
    StepIsTooFar(sys, r, end, t, u, j);
    queue := StepLoses(sys, r, m, u, j, env);
  }

  // Up to the first message that is missing or expired, or to where the session's rekeying ends the
  // fetch: every queue that the network can present, up to the numbers of the messages there and in
  // whatever order and with whatever under other header keys, is collected as far as it goes, across
  // a DH step too, if and only if there is room for those messages.
  lemma RoomIsExactForAll(sys: System, r: Role, m: Mail, env: Env)
    requires Synced(sys, r, m) && m.contact == m.disk.contact
    ensures (forall queue | Presentables(sys, queue) && UpToSent(sys, r, Horizon(sys, r, m, env), queue) ::
               CollectsRun(sys, r, m, queue, env))
            <==> RoomForSent(sys, r, Horizon(sys, r, m, env))
  {
    var end := Horizon(sys, r, m, env);
    if RoomForSent(sys, r, end) {
      forall queue | Presentables(sys, queue) && UpToSent(sys, r, end, queue)
        ensures CollectsRun(sys, r, m, queue, env)
      {
        SentIsRoomy(sys, r, end, queue);
        RoomCollects(sys, r, m, queue, env);
      }
    } else if j: nat :| LastOf(sys, r, end, j) && Here(sys, r, j) && !RoomUpTo(sys, r, end, j) {
      var queue := HereLoses(sys, r, m, j, env);
      assert !CollectsRun(sys, r, m, queue, env);
    } else {
      var j: nat :| LastOf(sys, r, end, j) && !RoomUpTo(sys, r, end, j);
      var queue;
      if SlotAt(sys, r, j).payload.header.n > R.MAX_SKIP_GAP {
        queue := FarLoses(sys, r, m, j, env);
      } else {
        queue := NearLoses(sys, r, m, j, env);
      }
      assert !CollectsRun(sys, r, m, queue, env);
    }
  }

  // ---------- whatever is presented ----------

  // The message is at the position reached; or, past the DH step, one gap from the start and right
  // behind the text that took the step.
  ghost predicate TightAt(sys: System, r: Role, end: nat, i: nat)
    requires Later(sys, r, i)
  {
    var n := SlotAt(sys, r, i).payload.header.n;
    if Here(sys, r, i) then Span(sys.Get(r).contact.ratchet.recvN, n) == 0
    else && n <= R.MAX_SKIP_GAP
         && forall t: nat | StepText(sys, r, end, t) :: Span(SlotAt(sys, r, t).payload.header.n + 1, n) == 0
  }

  ghost predicate Tight(sys: System, r: Role, end: nat) {
    forall i: nat | i < end && Later(sys, r, i) && SlotAt(sys, r, i).at.At? :: TightAt(sys, r, end, i)
  }

  lemma TightPast(sys: System, r: Role, end: nat, i: nat, queue: seq<Blob>, key: KeyId)
    requires Past(sys, r, end, i) && TightAt(sys, r, end, i)
    ensures RoomPast(sys, r, queue, key, end, SlotAt(sys, r, i).payload.header.n)
  {
    var n := SlotAt(sys, r, i).payload.header.n;
    forall t: nat | AheadText(sys, r, queue, end, t)
      ensures RoomAfter(SlotAt(sys, r, t).payload.header.n, key, queue, n)
    {
      assert StepText(sys, r, end, t);
    }
  }

  lemma TightIsRoomy(sys: System, r: Role, end: nat, queue: seq<Blob>)
    requires Inv(sys) && Tight(sys, r, end)
    ensures Roomy(sys, r, sys.Get(r).contact.ratchet.skipped, queue, end)
  {
    var q, f, keys := sys.Get(r).contact.ratchet, RecvEpoch(sys.Get(r)), sys.schedule.keys;
    EpochIsThere(sys, r);
    forall i: nat | HereIn(sys, r, queue, end, i)
      ensures RoomAt(q.peerKey, q.recvN, q.skipped.Keys, keys[f], queue, SlotAt(sys, r, i).payload.header.n)
    {
      assert TightAt(sys, r, end, i);
    }
    forall i: nat | AheadIn(sys, r, queue, end, i)
      ensures RoomPast(sys, r, queue, SlotAt(sys, r, i).payload.header.dh, end, SlotAt(sys, r, i).payload.header.n)
    {
      assert TightAt(sys, r, end, i);
      TightPast(sys, r, end, i, queue, SlotAt(sys, r, i).payload.header.dh);
    }
    EachIsRoomy(sys, r, queue, end);
  }

  lemma TightIsRoomForHere(sys: System, r: Role, end: nat)
    requires Inv(sys) && forall i: nat | i < end && Later(sys, r, i) && Here(sys, r, i) :: TightAt(sys, r, end, i)
    ensures RoomForHere(sys, r, end)
  {
    var q := sys.Get(r).contact.ratchet;
    TableHolds(sys, r);
    forall j: nat | LastOf(sys, r, end, j) && Here(sys, r, j) ensures RoomUpTo(sys, r, end, j) {
      var h := SlotAt(sys, r, j).payload.header;
      assert TightAt(sys, r, end, j);
      assert q.skipped.Keys + Ids(h.dh, q.recvN, h.n) == q.skipped.Keys;
      assert |q.skipped| == |q.skipped.Keys|;
    }
  }

  lemma ForgeryIsPresent(sys: System, key: KeyId, n: nat, queue: seq<Blob>)
    requires Presentables(sys, queue)
    ensures Presentables(sys, [Framed(Forgery(key, n))] + queue)
  {
    assert Presentable(sys, Framed(Forgery(key, n)));
  }

  lemma TailReaches(sys: System, r: Role, j: nat, rest: seq<Blob>)
    requires Later(sys, r, j) && Presentables(sys, rest) && Among(Before(sys, r, j), rest)
    ensures Presentables(sys, Tail(sys, r, j, rest)) && Reaching(sys, r, j, Tail(sys, r, j, rest))
  {
    var p := SlotAt(sys, r, j).payload;
    assert SealedIn(sys.Get(Other(r)).log, p.box);
    assert Presentable(sys, Framed(p)) && Presentable(sys, Framed(Forgery(p.header.dh, p.header.n)));
  }

  lemma TwoInFront(sys: System, r: Role, j: nat, a: KeyId, x: nat, b: KeyId, y: nat, queue: seq<Blob>)
    requires Later(sys, r, j) && Presentables(sys, queue) && Reaching(sys, r, j, queue)
    ensures var longer := [Framed(Forgery(a, x))] + ([Framed(Forgery(b, y))] + queue);
            Presentables(sys, longer) && Reaching(sys, r, j, longer)
  {
    ForgeryIsPresent(sys, b, y, queue);
    ForgeryReaches(sys, r, j, b, y, queue);
    ForgeryIsPresent(sys, a, x, [Framed(Forgery(b, y))] + queue);
    ForgeryReaches(sys, r, j, a, x, [Framed(Forgery(b, y))] + queue);
  }

  lemma SpanStops(sys: System, r: Role, m: Mail, j: nat, env: Env) returns (queue: seq<Blob>)
    requires TopAndRest(sys, r, m, j, Before(sys, r, j), env.now)
    requires Span(sys.Get(r).contact.ratchet.recvN, SlotAt(sys, r, j).payload.header.n) > 0
    ensures Presentables(sys, queue) && Reaching(sys, r, j, queue) && StopsAt(m, queue, env, j)
  {
    var q, rest := sys.Get(r).contact.ratchet, Before(sys, r, j);
    TailReaches(sys, r, j, rest);
    var a, x, b, y := sys.nextKey, R.MAX_SKIP_GAP, SlotAt(sys, r, j).payload.header.dh, q.recvN + R.MAX_SKIP_GAP;
    if q.peerKey.Some? {
      KeyIsUsed(sys, r, j);
      TwoGapsLose(sys, r, m, j, rest, env, a, b, y);
    } else {
      a, x, b, y := FullTableLoses(sys, r, m, j, rest, env);
    }
    TwoInFront(sys, r, j, a, x, b, y, Tail(sys, r, j, rest));
    queue := [Framed(Forgery(a, x))] + ([Framed(Forgery(b, y))] + Tail(sys, r, j, rest));
  }

  lemma HereGives(sys: System, r: Role, m: Mail, j: nat, env: Env) returns (queue: seq<Blob>)
    requires Synced(sys, r, m) && Later(sys, r, j) && Here(sys, r, j) && j < Horizon(sys, r, m, env)
    requires !TightAt(sys, r, Horizon(sys, r, m, env), j)
    ensures Presentables(sys, queue) && !CollectsRun(sys, r, m, queue, env)
  {
    var end := Horizon(sys, r, m, env);
    AllToHorizon(sys, r, m, env);
    UnbrokenTo(sys, r, m, j, env);
    BeforeIsRest(sys, r, m, end, j, env);
    queue := SpanStops(sys, r, m, j, env);
    ReachingMisses(sys, r, m, end, j, queue, env);
    MissesRun(sys, r, m, queue, env, j);
  }

  // A gap of a key never used, and then a message of the key stepped to.
  function TwoGaps(other: KeyId, key: KeyId, n: nat): seq<Blob> {
    [Framed(Forgery(other, R.MAX_SKIP_GAP))] + [Framed(Forgery(key, n))]
  }

  lemma TwoThen(a: seq<Blob>, b: seq<Blob>, tail: seq<Blob>)
    ensures (a + b) + tail == a + (b + tail)
  {
  }

  lemma SpanStopsBehind(next: System, r: Role, m: Mail, t: nat, j: nat, rest: seq<Blob>, env: Env, other: KeyId,
                        key: KeyId, n: nat)
    requires Behind(next, r, m, t, j, rest, env.now) && key == SlotAt(next, r, j).payload.header.dh != other
    requires var p := next.Get(Other(r)).log[t].payload.header.n;
             Span(p + 1, SlotAt(next, r, j).payload.header.n) > 0 && n == p + 1 + R.MAX_SKIP_GAP
    ensures StopsAt(m, TwoGaps(other, key, n) + Tail(next, r, j, rest), env, j)
  {
    BehindIsTop(next, r, m, t, j, rest, env.now);
    TwoGapsLose(next, r, m, j, rest, env, other, key, n);
    TwoThen([Framed(Forgery(other, R.MAX_SKIP_GAP))], [Framed(Forgery(key, n))], Tail(next, r, j, rest));
  }

  lemma AcrossIsPresent(sys: System, r: Role, end: nat, t: nat, j: nat, more: seq<Blob>, now: int)
    requires Inv(sys) && AllThere(sys, r, end, now) && Later(sys, r, t) && Later(sys, r, j) && t < j < end
    requires Presentables(sys, more)
    ensures Presentables(sys, AcrossStep(sys, r, t, j, more))
  {
    AcrossIsShown(sys, r, end, t, j, [], now);
    ShownIsUpTo(sys, r, end, AcrossStep(sys, r, t, j, []));
    forall b | b in AcrossStep(sys, r, t, j, more) ensures Presentable(sys, b) {
      assert b in more || b in AcrossStep(sys, r, t, j, []);
    }
  }

  lemma StepGives(sys: System, r: Role, m: Mail, t: nat, j: nat, env: Env) returns (queue: seq<Blob>)
    requires Synced(sys, r, m) && m.contact == m.disk.contact && Past(sys, r, Horizon(sys, r, m, env), j) && t < j
    requires FirstOver(sys, r, Horizon(sys, r, m, env), t) && SlotAt(sys, r, t).payload.header.n <= R.MAX_SKIP_GAP
    requires RoomForHere(sys, r, Horizon(sys, r, m, env))
    requires Span(SlotAt(sys, r, t).payload.header.n + 1, SlotAt(sys, r, j).payload.header.n) > 0
    ensures Presentables(sys, queue) && !CollectsRun(sys, r, m, queue, env)
  {
    var end, key := Horizon(sys, r, m, env), SlotAt(sys, r, j).payload.header.dh;
    var p := SlotAt(sys, r, t).payload.header.n + 1 + R.MAX_SKIP_GAP;
    var more := TwoGaps(sys.nextKey, key, p);
    queue := AcrossStep(sys, r, t, j, more);
    AllToHorizon(sys, r, m, env);
    UsedAndFresh(sys, r, end, j, env.now);
    var next, n := CrossTo(sys, r, m, t, j, more, env);
    SpanStopsBehind(next, r, n, t, j, Between(sys, r, t, j), env, sys.nextKey, key, p);
    GapsArePresent(sys, sys.nextKey, key, p);
    AcrossMisses(sys, r, m, t, j, more, env);
  }

  lemma AcrossMisses(sys: System, r: Role, m: Mail, t: nat, j: nat, more: seq<Blob>, env: Env)
    requires Inv(sys) && Later(sys, r, t) && Later(sys, r, j) && t < j < Horizon(sys, r, m, env)
    requires Presentables(sys, more) && StopsAt(m, AcrossStep(sys, r, t, j, more), env, j)
    ensures Presentables(sys, AcrossStep(sys, r, t, j, more))
    ensures !CollectsRun(sys, r, m, AcrossStep(sys, r, t, j, more), env)
  {
    var end := Horizon(sys, r, m, env);
    AllToHorizon(sys, r, m, env);
    AcrossIsPresent(sys, r, end, t, j, more, env.now);
    AcrossCovers(sys, r, end, t, j, more, env.now);
    MissesRun(sys, r, m, AcrossStep(sys, r, t, j, more), env, j);
  }

  lemma GapsArePresent(sys: System, other: KeyId, key: KeyId, n: nat)
    ensures Presentables(sys, TwoGaps(other, key, n))
  {
  }

  lemma PastGives(sys: System, r: Role, m: Mail, j: nat, env: Env) returns (queue: seq<Blob>)
    requires Synced(sys, r, m) && m.contact == m.disk.contact && RoomForHere(sys, r, Horizon(sys, r, m, env))
    requires Past(sys, r, Horizon(sys, r, m, env), j) && !TightAt(sys, r, Horizon(sys, r, m, env), j)
    requires SlotAt(sys, r, j).payload.header.n <= R.MAX_SKIP_GAP
    ensures Presentables(sys, queue) && !CollectsRun(sys, r, m, queue, env)
  {
    var end := Horizon(sys, r, m, env);
    var t: nat :| StepText(sys, r, end, t)
                  && Span(SlotAt(sys, r, t).payload.header.n + 1, SlotAt(sys, r, j).payload.header.n) > 0;
    var u := FirstStepText(sys, r, end, t);
    StepIsTooFar(sys, r, end, t, u, j);
    queue := StepGives(sys, r, m, u, j, env);
  }

  // Every queue that the network can present at all, with any number under any header key, is
  // collected as far as it goes if and only if no message that a fetch can get to is ahead of where
  // the receiver then is.
  lemma RoomIsExactForAny(sys: System, r: Role, m: Mail, env: Env)
    requires Synced(sys, r, m) && m.contact == m.disk.contact
    ensures (forall queue | Presentables(sys, queue) :: CollectsRun(sys, r, m, queue, env))
            <==> Tight(sys, r, Horizon(sys, r, m, env))
  {
    var end := Horizon(sys, r, m, env);
    if Tight(sys, r, end) {
      forall queue | Presentables(sys, queue) ensures CollectsRun(sys, r, m, queue, env) {
        TightIsRoomy(sys, r, end, queue);
        RoomCollects(sys, r, m, queue, env);
      }
    } else if j: nat :| j < end && Later(sys, r, j) && Here(sys, r, j) && !TightAt(sys, r, end, j) {
      var queue := HereGives(sys, r, m, j, env);
      assert !CollectsRun(sys, r, m, queue, env);
    } else {
      TightIsRoomForHere(sys, r, end);
      var j: nat :| j < end && Later(sys, r, j) && SlotAt(sys, r, j).at.At? && !TightAt(sys, r, end, j);
      var queue;
      if SlotAt(sys, r, j).payload.header.n > R.MAX_SKIP_GAP {
        queue := FarLoses(sys, r, m, j, env);
      } else {
        queue := PastGives(sys, r, m, j, env);
      }
      assert !CollectsRun(sys, r, m, queue, env);
    }
  }
}
