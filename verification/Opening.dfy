/** When one ratchet state opens one payload, and what state that leaves. */
module Opening {
  import opened Crypto
  import opened Message
  import opened SkippedKeys
  import R = Ratchet

  predicate Sealed(p: Payload, base: ChainStart) {
    p.box.aad == p.header && p.box.key == MessageKey(base, p.header.n)
  }

  predicate WithinGap(gap: nat, held: nat) {
    gap <= R.MAX_SKIP_GAP && held <= R.MAX_SKIPPED_KEYS
  }

  // A payload of the epoch being received, at or ahead of the chain's position. The first
  // payload ever fixes the peer's key.
  lemma OpensInEpoch(q: R.State, base: ChainStart, p: Payload, newKey: KeyId)
    requires OnChain(q, base) && Sealed(p, base) && p.header.n >= q.recvN
    requires q.peerKey == Some(p.header.dh) || (q.peerKey == None && q.recvN == 0)
    ensures R.Decrypt(q, Framed(p), newKey).Success? <==>
            WithinGap(p.header.n - q.recvN, |q.skipped| + (p.header.n - q.recvN))
    ensures R.Decrypt(q, Framed(p), newKey).Success? ==>
              var (s, m) := R.Decrypt(q, Framed(p), newKey).value;
              && m == p.box.plaintext
              && s.peerKey == Some(p.header.dh) && s.recvN == p.header.n + 1
              && Adds(q.skipped, s.skipped, p.header.dh, q.recvN, p.header.n)
              && OnChain(s, base)
              && SameSending(q, s)
    ensures R.Decrypt(q, Framed(p), newKey).Failure? ==> R.Decrypt(q, Framed(p), newKey).error != R.AlreadyReceived
  {
    var a := R.Align(q, p.header.dh, newKey);
    assert a.recvChain == q.recvChain && a.skipped == q.skipped && a.recvN == q.recvN;
    assert OnChain(a, base);
    SelectAhead(a, base, p.header.dh, p.header.n);
  }

  predicate SameSending(q: R.State, s: R.State) {
    && s.rootKey == q.rootKey && s.selfKey == q.selfKey && s.sendChain == q.sendChain && s.sendN == q.sendN
    && s.pendingPeer == q.pendingPeer
  }

  // A payload under a key other than the one on record takes a DH step first.
  lemma OpensByDhStep(q: R.State, p: Payload, newKey: KeyId)
    requires q.peerKey.Some? && q.peerKey != Some(p.header.dh)
    requires Sealed(p, ChainKdf(q.rootKey, DH(q.selfKey, p.header.dh)))
    ensures R.Decrypt(q, Framed(p), newKey).Success? <==> WithinGap(p.header.n, p.header.n)
    ensures R.Decrypt(q, Framed(p), newKey).Success? ==>
              var (s, m) := R.Decrypt(q, Framed(p), newKey).value;
              && m == p.box.plaintext
              && s.recvN == p.header.n + 1 && Adds(map[], s.skipped, p.header.dh, 0, p.header.n)
              && OnChain(s, ChainKdf(q.rootKey, DH(q.selfKey, p.header.dh)))
              && SteppedTo(q, s, p.header.dh, newKey)
    ensures R.Decrypt(q, Framed(p), newKey).Failure? ==> R.Decrypt(q, Framed(p), newKey).error != R.AlreadyReceived
  {
    var a := R.Align(q, p.header.dh, newKey);
    assert a == R.DhRatchet(q, p.header.dh, newKey);
    SelectAhead(a, ChainKdf(q.rootKey, DH(q.selfKey, p.header.dh)), p.header.dh, p.header.n);
  }

  // After a DH step with the peer's key `dh`: the root has moved twice and a new send chain
  // starts under the new key.
  predicate SteppedTo(q: R.State, s: R.State, dh: KeyId, newKey: KeyId) {
    var root := RootKdf(q.rootKey, DH(q.selfKey, dh));
    && s.peerKey == Some(dh) && s.selfKey == newKey && s.sendN == 0
    && s.rootKey == RootKdf(root, DH(newKey, dh))
    && s.sendChain == Some(ChainKey(ChainKdf(root, DH(newKey, dh)), 0))
    && s.pendingPeer == q.pendingPeer
  }

  // Whatever opens, opens under a key of the chain in use or, under a new header key, of the
  // chain one agreement further.
  lemma OpenedKey(q: R.State, base: ChainStart, blob: Blob, newKey: KeyId)
    requires OnChain(q, base)
    requires R.Decrypt(q, blob, newKey).Success?
    ensures var p := blob.payload;
            && p.box.aad == p.header
            && R.Decrypt(q, blob, newKey).value.1 == p.box.plaintext
            && p.box.key ==
               MessageKey(if q.peerKey.None? || q.peerKey == Some(p.header.dh) then base
                          else ChainKdf(q.rootKey, DH(q.selfKey, p.header.dh)), p.header.n)
  {
    var p := blob.payload;
    var dh := p.header.dh;
    var a := R.Align(q, dh, newKey);
    var start := if q.peerKey.None? || q.peerKey == Some(dh) then base else ChainKdf(q.rootKey, DH(q.selfKey, dh));
    assert OnChain(a, start) && a.peerKey == Some(dh);
    if p.header.n < a.recvN {
      SelectBehind(a, start, dh, p.header.n);
    } else {
      SelectAhead(a, start, dh, p.header.n);
    }
  }

  // Opening under the key in use, behind the position reached or ahead of it.
  lemma OpeningKeepsChain(q: R.State, base: ChainStart, peer: KeyId, blob: Blob, k: KeyId)
    requires OnChain(q, base) && (q.peerKey.None? || q.peerKey == Some(peer)) && blob.Framed?
             && blob.payload.header.dh == peer
    requires R.Decrypt(q, blob, k).Success?
    ensures var u := R.Decrypt(q, blob, k).value.0;
            && OnChain(u, base) && u.peerKey == Some(peer)
            && u.rootKey == q.rootKey && u.selfKey == q.selfKey && u.pendingPeer == q.pendingPeer
            && u.sendChain == q.sendChain && u.sendN == q.sendN
  {
    var n, al := blob.payload.header.n, R.Align(q, peer, k);
    assert OnChain(al, base) && al.peerKey == Some(peer);
    if n < al.recvN {
      SelectBehind(al, base, peer, n);
    } else {
      SelectAhead(al, base, peer, n);
    }
  }

  // ---------- in numbers ----------

  // Of a chain with a key on record: message n opens if it is at most 128 ahead and the keys stored
  // would be at most 256 with those passed over, or if it is behind and its key is stored.
  lemma LimitsInNumbers(q: R.State, base: ChainStart, p: Payload, newKey: KeyId)
    requires OnChain(q, base) && Sealed(p, base) && q.peerKey == Some(p.header.dh)
    ensures var n := p.header.n;
            R.Decrypt(q, Framed(p), newKey).Success? <==>
            if n >= q.recvN then n <= q.recvN + 128 && |q.skipped| + (n - q.recvN) <= 256
            else R.SkipId(p.header.dh, n) in q.skipped
  {
    if p.header.n >= q.recvN {
      OpensInEpoch(q, base, p, newKey);
    } else {
      SelectBehind(q, base, p.header.dh, p.header.n);
    }
  }

  // What a header says of the chain before: how many messages were sealed on it.
  lemma PreviousLength(q: R.State, peer: KeyId, newKey: KeyId, m: InnerMessage, k: KeyId)
    requires q.pendingPeer.None?
    ensures var sent := R.Encrypt(R.DhRatchet(q, peer, newKey), m, k);
            sent.Success? && sent.value.1.header == Header(newKey, q.sendN, 0)
    ensures q.sendChain.Some? ==>
              var sent := R.Encrypt(q, m, k);
              sent.Success? && sent.value.1.header == Header(q.selfKey, q.prevSendN, q.sendN)
              && sent.value.0.sendN == q.sendN + 1 && sent.value.0.prevSendN == q.prevSendN
    ensures var sent := R.Encrypt(q.(pendingPeer := Some(peer)), m, newKey);
            sent.Success? && sent.value.1.header == Header(newKey, q.sendN, 0)
  {
  }

  // Why a blob does not open, for a ratchet with a key on record and a chain to receive on.
  lemma FailuresAreExact(q: R.State, blob: Blob, newKey: KeyId)
    requires q.recvChain.Some? && R.Decrypt(q, blob, newKey).Failure?
    requires blob.Framed? ==> q.peerKey == Some(blob.payload.header.dh)
    ensures R.Decrypt(q, blob, newKey).error ==
            if blob.Malformed? then R.InvalidHeader else
            var h := blob.payload.header;
            if h.n < q.recvN && R.SkipId(h.dh, h.n) !in q.skipped then R.AlreadyReceived
            else if h.n > q.recvN + 128 then R.GapTooLarge
            else if h.n >= q.recvN && |q.skipped| + (h.n - q.recvN) > 256 then R.SkippedKeyLimit
            else R.OpenFailed
  {
  }
}
