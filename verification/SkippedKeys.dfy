/** Skipped-key bookkeeping refines the ideal chain of one epoch: whatever the arrival
    order, each message is opened with the key the chain assigns to its number. */
module SkippedKeys {
  import opened Crypto
  import opened Message
  import opened Ratchet

  // Under the peer key in use, or under any while none is on record, the stored keys are those
  // of one chain. What a DH step that was not kept has stored under another key may be there too.
  // None is further ahead of the position reached than a message may be.
  ghost predicate Stored(m: map<SkipId, MessageKey>, peer: Option<KeyId>, base: ChainStart, reached: nat) {
    forall id <- m :: peer.None? || peer == Some(id.dh) ==>
                        m[id] == MessageKey(base, id.n) && id.n < reached + MAX_SKIP_GAP
  }

  // after stores what before stores, and the positions from..upto-1.
  ghost predicate Adds(before: map<SkipId, MessageKey>, after: map<SkipId, MessageKey>, peer: KeyId, from: nat,
                       upto: nat)
  {
    forall id :: id in after <==> id in before || (id.dh == peer && from <= id.n < upto)
  }

  // The receive side of r follows the epoch whose chain starts at base.
  ghost predicate OnChain(r: State, base: ChainStart) {
    && r.recvChain == Some(ChainKey(base, r.recvN))
    && Stored(r.skipped, r.peerKey, base, r.recvN)
    && |r.skipped| <= MAX_SKIPPED_KEYS
  }

  // A table of stored keys that the ratchet can go on with.
  ghost predicate TableOk(r: State, table: map<SkipId, MessageKey>) {
    r.recvChain.Some? && Stored(table, r.peerKey, r.recvChain.value.start, r.recvN) && |table| <= MAX_SKIPPED_KEYS
  }

  // Everything but the receive chain position and the stored keys.
  predicate SameKeys(r: State, s: State) {
    && s.rootKey == r.rootKey && s.selfKey == r.selfKey && s.peerKey == r.peerKey
    && s.sendChain == r.sendChain && s.sendN == r.sendN && s.prevSendN == r.prevSendN
    && s.hybrid == r.hybrid && s.pendingPeer == r.pendingPeer
  }

  lemma {:induction false} SkippedRangeEntries(peer: KeyId, c: ChainKey, from: nat, upto: nat)
    requires from <= upto
    ensures var range := SkippedRange(peer, c, from, upto);
            && |range| == upto - from
            && (forall id :: id in range <==> id.dh == peer && from <= id.n < upto)
            && (forall id <- range :: range[id] == MessageKey(c.start, c.steps + (id.n - from)))
    decreases upto
  {
    if from < upto {
      SkippedRangeEntries(peer, c, from, upto - 1);
    }
  }

  lemma UnionSize<K, V>(a: map<K, V>, b: map<K, V>)
    ensures |a + b| <= |a| + |b|
    ensures |a + b| >= |a|
  {
    assert (a + b).Keys == a.Keys + b.Keys == a.Keys + (b.Keys - a.Keys);
    assert |b.Keys - a.Keys| <= |b.Keys|;
  }

  // Passing over positions recvN..n-1 stores their keys, those already there included.
  lemma SkippingForward(r: State, base: ChainStart, peer: KeyId, n: nat, m: map<SkipId, MessageKey>)
    requires OnChain(r, base) && (r.peerKey.None? || r.peerKey == Some(peer))
    requires r.recvN <= n <= r.recvN + MAX_SKIP_GAP
    requires m == r.skipped + SkippedRange(peer, r.recvChain.value, r.recvN, n)
    ensures |r.skipped| <= |m| <= |r.skipped| + (n - r.recvN)
    ensures Adds(r.skipped, m, peer, r.recvN, n)
    ensures Stored(m, r.peerKey, base, r.recvN)
  {
    SkippedRangeEntries(peer, r.recvChain.value, r.recvN, n);
    UnionSize(r.skipped, SkippedRange(peer, r.recvChain.value, r.recvN, n));
  }

  // A position already passed: the stored key is the chain's own key, and stays stored.
  lemma SelectBehind(r: State, base: ChainStart, peer: KeyId, n: nat)
    requires OnChain(r, base) && r.peerKey == Some(peer) && n < r.recvN
    ensures Select(r, peer, n) ==
            if SkipId(peer, n) in r.skipped then Success((r, MessageKey(base, n))) else Failure(AlreadyReceived)
  {
  }

  // A position not yet passed: the step succeeds exactly within the two limits, yields
  // the chain's own key and keeps the refinement.
  lemma SelectAhead(r: State, base: ChainStart, peer: KeyId, n: nat)
    requires OnChain(r, base) && r.peerKey == Some(peer) && n >= r.recvN
    ensures Select(r, peer, n).Success? <==>
            n - r.recvN <= MAX_SKIP_GAP && |r.skipped| + (n - r.recvN) <= MAX_SKIPPED_KEYS
    ensures Select(r, peer, n).Success? ==>
              var (s, key) := Select(r, peer, n).value;
              && key == MessageKey(base, n)
              && SameKeys(r, s) && s.recvN == n + 1
              && |r.skipped| <= |s.skipped| <= |r.skipped| + (n - r.recvN)
              && Adds(r.skipped, s.skipped, peer, r.recvN, n)
              && OnChain(s, base)
  {
    if Select(r, peer, n).Success? {
      var (s, key) := Select(r, peer, n).value;
      assert s.recvChain.value == ChainKey(base, n + 1);
      assert s.recvN == n + 1 && SameKeys(r, s);
      SkippingForward(r, base, peer, n, s.skipped);
    }
  }

  // The names of the positions from..upto-1.
  function Ids(dh: KeyId, from: nat, upto: nat): set<SkipId> {
    set k | from <= k < upto :: SkipId(dh, k)
  }

  lemma {:induction false} IdsCount(dh: KeyId, from: nat, upto: nat)
    requires from <= upto
    ensures |Ids(dh, from, upto)| == upto - from
    decreases upto
  {
    if from == upto {
      assert Ids(dh, from, upto) == {};
    } else {
      IdsCount(dh, from, upto - 1);
      assert Ids(dh, from, upto) == Ids(dh, from, upto - 1) + {SkipId(dh, upto - 1)};
    }
  }

  lemma AddsIds(m: map<SkipId, MessageKey>, t: map<SkipId, MessageKey>, dh: KeyId, from: nat, upto: nat)
    requires Adds(m, t, dh, from, upto)
    ensures t.Keys == m.Keys + Ids(dh, from, upto)
  {
    forall id | id in t.Keys && id !in m.Keys ensures id in Ids(dh, from, upto) {
      assert id == SkipId(dh, id.n);
    }
  }

  // ---------- what an attempt leaves ----------

  predicate InUse(r: State, peer: KeyId) {
    r.peerKey.None? || r.peerKey == Some(peer)
  }

  // Under the key in use: the positions passed over, if the attempt came that far.
  lemma LeftoverInUse(r: State, base: ChainStart, blob: Blob)
    requires OnChain(r, base) && blob.Framed? && InUse(r, blob.payload.header.dh)
    ensures var h, t := blob.payload.header, Leftover(r, blob);
            && Stored(t, r.peerKey, base, r.recvN) && |t| <= MAX_SKIPPED_KEYS
            && if h.n < r.recvN || h.n - r.recvN > MAX_SKIP_GAP || |r.skipped| + (h.n - r.recvN) > MAX_SKIPPED_KEYS
               then t == r.skipped
               else && t == r.skipped + SkippedRange(h.dh, ChainKey(base, r.recvN), r.recvN, h.n)
                    && |t| <= |r.skipped| + (h.n - r.recvN) && Adds(r.skipped, t, h.dh, r.recvN, h.n)
  {
    var h, t := blob.payload.header, Leftover(r, blob);
    var a := Align(r, h.dh, r.selfKey);
    assert a.recvN == r.recvN && a.recvChain == r.recvChain && a.skipped == r.skipped;
    if h.n >= r.recvN && Select(a, h.dh, h.n).Success? {
      assert t == r.skipped + SkippedRange(h.dh, r.recvChain.value, r.recvN, h.n);
      SkippingForward(r, base, h.dh, h.n, t);
    }
  }

  // Under another key: nothing of what was there, and the first positions of the new chain.
  lemma LeftoverAhead(r: State, blob: Blob)
    requires blob.Framed? && !InUse(r, blob.payload.header.dh)
    ensures var h, t := blob.payload.header, Leftover(r, blob);
            |t| == FirstCount(h) && FirstOf(t, NextChain(r, h.dh), h)
  {
    var h := blob.payload.header;
    var a := Align(r, h.dh, r.selfKey);
    assert a == DhRatchet(r, h.dh, r.selfKey);
    SkippedRangeEntries(h.dh, a.recvChain.value, 0, h.n);
    assert map[] + SkippedRange(h.dh, a.recvChain.value, 0, h.n) == SkippedRange(h.dh, a.recvChain.value, 0, h.n);
  }

  // A table that is not put back is still one the chain can go on with.
  lemma LeftoverKeepsChain(r: State, base: ChainStart, blob: Blob)
    requires OnChain(r, base)
    ensures OnChain(RolledBack(r, blob), base)
  {
    if blob.Framed? {
      if InUse(r, blob.payload.header.dh) {
        LeftoverInUse(r, base, blob);
      } else {
        LeftoverAhead(r, blob);
      }
    }
  }

  // What a successful attempt stores is what a failed one would have left.
  lemma SuccessIsLeftover(r: State, blob: Blob, newKey: KeyId)
    requires Decrypt(r, blob, newKey).Success?
    ensures Decrypt(r, blob, newKey).value.0.skipped == Leftover(r, blob)
  {
  }

  ghost predicate AllStored(m: map<SkipId, MessageKey>, peer: KeyId, from: nat, upto: nat) {
    forall k: nat | from <= k < upto :: SkipId(peer, k) in m
  }

  // What a caller can look at before an attempt: it fails before the stored keys are touched,
  // or passes over no position whose key is not there, or takes a DH step and the table is
  // already what that step leaves, as an empty one is for message 0.
  ghost predicate LeavesNoTrace(r: State, blob: Blob) {
    blob.Malformed? ||
    (var h := blob.payload.header;
     if InUse(r, h.dh) then
       h.n <= r.recvN || h.n - r.recvN > MAX_SKIP_GAP || |r.skipped| + (h.n - r.recvN) > MAX_SKIPPED_KEYS
       || AllStored(r.skipped, h.dh, r.recvN, h.n)
     else FirstOf(r.skipped, NextChain(r, h.dh), h))
  }

  // The chain a DH step with that key would start.
  function NextChain(r: State, dh: KeyId): ChainStart {
    ChainKdf(r.rootKey, DH(r.selfKey, dh))
  }

  // The keys a DH step stores on its way to a header's position: none at 0 or beyond the gap.
  function FirstCount(h: Header): nat { if h.n <= MAX_SKIP_GAP then h.n else 0 }

  ghost predicate FirstOf(m: map<SkipId, MessageKey>, start: ChainStart, h: Header) {
    && (forall id :: id in m <==> id.dh == h.dh && id.n < FirstCount(h))
    && (forall id <- m :: m[id] == MessageKey(start, id.n))
  }

  lemma SameTable(m: map<SkipId, MessageKey>, peer: Option<KeyId>, base: ChainStart, dh: KeyId, from: nat, upto: nat)
    requires Stored(m, peer, base, from) && (peer.None? || peer == Some(dh)) && from <= upto
    ensures m + SkippedRange(dh, ChainKey(base, from), from, upto) == m <==> AllStored(m, dh, from, upto)
  {
    var range := SkippedRange(dh, ChainKey(base, from), from, upto);
    SkippedRangeEntries(dh, ChainKey(base, from), from, upto);
    if AllStored(m, dh, from, upto) {
      forall id | id in range ensures id in m && m[id] == range[id] {
        assert SkipId(dh, id.n) in m;
      }
    } else {
      var k: nat :| from <= k < upto && SkipId(dh, k) !in m;
      assert SkipId(dh, k) in m + range;
    }
  }

  lemma ExactInUse(r: State, base: ChainStart, blob: Blob)
    requires OnChain(r, base) && blob.Framed? && InUse(r, blob.payload.header.dh)
    ensures Leftover(r, blob) == r.skipped <==> LeavesNoTrace(r, blob)
  {
    var h := blob.payload.header;
    LeftoverInUse(r, base, blob);
    if h.n >= r.recvN {
      SameTable(r.skipped, r.peerKey, base, h.dh, r.recvN, h.n);
    }
  }

  lemma ExactAhead(r: State, blob: Blob)
    requires blob.Framed? && !InUse(r, blob.payload.header.dh)
    ensures Leftover(r, blob) == r.skipped <==> LeavesNoTrace(r, blob)
  {
    LeftoverAhead(r, blob);
    if FirstOf(r.skipped, NextChain(r, blob.payload.header.dh), blob.payload.header) {
      assert r.skipped.Keys == Leftover(r, blob).Keys;
    }
  }

  // A snapshot that is put back puts back the whole ratchet exactly when the attempt left no
  // trace in the stored keys.
  lemma RollbackIsExact(r: State, base: ChainStart, blob: Blob)
    requires OnChain(r, base)
    ensures RolledBack(r, blob) == r <==> LeavesNoTrace(r, blob)
  {
    if blob.Framed? {
      if InUse(r, blob.payload.header.dh) {
        ExactInUse(r, base, blob);
      } else {
        ExactAhead(r, blob);
      }
    }
  }

  // The nth message of the epoch, as its sender sealed it.
  ghost predicate Genuine(p: Payload, peer: KeyId, base: ChainStart) {
    && p.header.dh == peer
    && p.box.aad == p.header
    && p.box.key == MessageKey(base, p.header.n)
  }

  ghost function DecryptAll(r: State, ps: seq<Payload>, newKey: KeyId): Result<(State, seq<InnerMessage>), Error>
    decreases |ps|
  {
    if ps == [] then Success((r, [])) else
    match Decrypt(r, Framed(ps[0]), newKey)
    case Failure(e) => Failure(e)
    case Success(one) =>
      match DecryptAll(one.0, ps[1..], newKey)
      case Failure(e) => Failure(e)
      case Success(rest) => Success((rest.0, [one.1] + rest.1))
  }

  function Plaintexts(ps: seq<Payload>): seq<InnerMessage> {
    if ps == [] then [] else [ps[0].box.plaintext] + Plaintexts(ps[1..])
  }

  // The limits, counted on message numbers and the names of the stored keys alone: `high`
  // numbers passed, `kept` stored.
  predicate Reachable(high: nat, kept: set<SkipId>, n: nat) {
    n < high || (n - high <= MAX_SKIP_GAP && |kept| + (n - high) <= MAX_SKIPPED_KEYS)
  }

  function Passed(high: nat, n: nat): nat { if n < high then high else n + 1 }

  function Held(peer: KeyId, high: nat, kept: set<SkipId>, n: nat): set<SkipId> {
    kept + Ids(peer, high, n)
  }

  predicate WithinLimits(peer: KeyId, high: nat, kept: set<SkipId>, ps: seq<Payload>)
    decreases |ps|
  {
    ps == [] ||
    (var n := ps[0].header.n;
     Reachable(high, kept, n) && WithinLimits(peer, Passed(high, n), Held(peer, high, kept, n), ps[1..]))
  }

  ghost predicate NotYetOpened(r: State, peer: KeyId, n: nat) {
    n >= r.recvN || SkipId(peer, n) in r.skipped
  }

  lemma HeldIs(m: map<SkipId, MessageKey>, t: map<SkipId, MessageKey>, peer: KeyId, high: nat, n: nat)
    requires n >= high && Adds(m, t, peer, high, n)
    ensures t.Keys == Held(peer, high, m.Keys, n)
  {
    AddsIds(m, t, peer, high, n);
  }

  lemma StillOpens(r: State, s: State, peer: KeyId, n: nat)
    requires n >= r.recvN && s.recvN == n + 1 && Adds(r.skipped, s.skipped, peer, r.recvN, n)
    ensures forall k: nat | k != n && NotYetOpened(r, peer, k) :: NotYetOpened(s, peer, k)
  {
  }

  // One genuine message: opened within the limits, and nothing else becomes unopenable.
  lemma OpenGenuine(r: State, base: ChainStart, peer: KeyId, p: Payload, newKey: KeyId)
    requires OnChain(r, base) && r.peerKey == Some(peer)
    requires Genuine(p, peer, base) && NotYetOpened(r, peer, p.header.n)
    ensures Decrypt(r, Framed(p), newKey).Success? <==> Reachable(r.recvN, r.skipped.Keys, p.header.n)
    ensures Decrypt(r, Framed(p), newKey).Success? ==>
              var (s, m) := Decrypt(r, Framed(p), newKey).value;
              && m == p.box.plaintext
              && OnChain(s, base) && s.peerKey == Some(peer)
              && s.recvN == Passed(r.recvN, p.header.n)
              && s.skipped.Keys == Held(peer, r.recvN, r.skipped.Keys, p.header.n)
              && forall k: nat | k != p.header.n && NotYetOpened(r, peer, k) :: NotYetOpened(s, peer, k)
  {
    var n := p.header.n;
    assert Align(r, peer, newKey) == r;
    if n < r.recvN {
      SelectBehind(r, base, peer, n);
      assert Held(peer, r.recvN, r.skipped.Keys, n) == r.skipped.Keys;
    } else {
      SelectAhead(r, base, peer, n);
      if Select(r, peer, n).Success? {
        var s := Select(r, peer, n).value.0;
        HeldIs(r.skipped, s.skipped, peer, r.recvN, n);
        StillOpens(r, s, peer, n);
      }
    }
  }

  // One epoch's messages, each arriving once and in any order at all, are all opened to
  // exactly what was sealed if and only if the order stays within the two limits.
  lemma {:induction false} AnyArrivalOrder(r: State, base: ChainStart, peer: KeyId, ps: seq<Payload>, newKey: KeyId)
    requires OnChain(r, base) && r.peerKey == Some(peer)
    requires forall p <- ps :: Genuine(p, peer, base) && NotYetOpened(r, peer, p.header.n)
    requires forall i, j | 0 <= i < j < |ps| :: ps[i].header.n != ps[j].header.n
    ensures DecryptAll(r, ps, newKey).Success? <==> WithinLimits(peer, r.recvN, r.skipped.Keys, ps)
    ensures DecryptAll(r, ps, newKey).Success? ==>
              var (s, ms) := DecryptAll(r, ps, newKey).value;
              && ms == Plaintexts(ps)
              && OnChain(s, base) && s.peerKey == Some(peer)
    decreases |ps|
  {
    if ps != [] {
      assert ps[0] in ps;
      OpenGenuine(r, base, peer, ps[0], newKey);
      if Decrypt(r, Framed(ps[0]), newKey).Success? {
        var s := Decrypt(r, Framed(ps[0]), newKey).value.0;
        forall p | p in ps[1..] ensures Genuine(p, peer, base) && NotYetOpened(s, peer, p.header.n) {
          assert p in ps;
        }
        AnyArrivalOrder(s, base, peer, ps[1..], newKey);
      }
    }
  }
}
