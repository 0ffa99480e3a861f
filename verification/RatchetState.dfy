/** The ratchet object: fields updated in place, a table of stored keys of its own, and the
    snapshot a failed decrypt is put back from. */
module RatchetState {
  import opened Crypto
  import opened Message
  import R = Ratchet

  // The saved form writes a missing value as an empty string.
  datatype Coded<+T> = Blank | Base64(value: T)

  // A dictionary: whoever holds it sees what is stored in it or cleared from it later.
  class KeyTable {
    var keys: map<R.SkipId, MessageKey>

    constructor (keys: map<R.SkipId, MessageKey>)
      ensures this.keys == keys
    {
      this.keys := keys;
    }
  }

  // The saved form names the ratchet's own table of stored keys; all else in it is a copy.
  datatype Saved = Saved(
    version: int,
    rootKey: RootKey,
    selfKey: KeyId,
    peerKey: Coded<KeyId>,
    sendChain: Coded<ChainKey>,
    recvChain: Coded<ChainKey>,
    sendN: nat,
    recvN: nat,
    prevSendN: nat,
    skippedKeys: KeyTable,
    hybrid: bool,
    pendingPeer: Coded<KeyId>)

  const SAVED_VERSION := 2

  function Code<T>(o: Option<T>): Coded<T> {
    match o case None => Blank case Some(v) => Base64(v)
  }

  function Decode<T>(c: Coded<T>): Option<T> {
    match c case Blank => None case Base64(v) => Some(v)
  }

  function Save(r: R.State, table: KeyTable): Saved {
    Saved(SAVED_VERSION, r.rootKey, r.selfKey, Code(r.peerKey), Code(r.sendChain), Code(r.recvChain),
          r.sendN, r.recvN, r.prevSendN, table, r.hybrid, Code(r.pendingPeer))
  }

  // What the saved form stands for now, with the table as it is now.
  function Load(d: Saved): Option<R.State>
    reads d.skippedKeys
  {
    if d.version != SAVED_VERSION then None else
    Some(R.State(d.rootKey, d.selfKey, Decode(d.peerKey), Decode(d.sendChain), Decode(d.recvChain),
                 d.sendN, d.recvN, d.prevSendN, d.skippedKeys.keys, d.hybrid, Decode(d.pendingPeer)))
  }

  // A snapshot puts back the ratchet it was taken of, except for the stored keys: those are
  // whatever has become of its table since.
  lemma LoadUndoesSave(r: R.State, table: KeyTable)
    ensures Load(Save(r, table)) == Some(r.(skipped := table.keys))
  {
  }

  // Version 2, and no other is read.
  lemma OnlyVersionTwo(r: R.State, table: KeyTable, version: int)
    ensures Save(r, table).version == 2
    ensures Load(Save(r, table).(version := version)).Some? <==> version == 2
  {
  }

  class RatchetState {
    var rootKey: RootKey
    var selfKey: KeyId
    var peerKey: Option<KeyId>
    var sendChain: Option<ChainKey>
    var recvChain: Option<ChainKey>
    var sendN: nat
    var recvN: nat
    var prevSendN: nat
    var skippedKeys: KeyTable
    var hybrid: bool
    var pendingPeer: Option<KeyId>

    function Value(): R.State
      reads this, skippedKeys
    {
      R.State(rootKey, selfKey, peerKey, sendChain, recvChain, sendN, recvN, prevSendN, skippedKeys.keys, hybrid,
              pendingPeer)
    }

    constructor FromMaster(master: Master, initiator: bool, hybrid: bool, ratchetKey: KeyId)
      ensures Value() == R.FromMaster(master, initiator, hybrid, ratchetKey) && fresh(skippedKeys)
    {
      var root := RootOf(master);
      var send, recv := SendInit(root), RecvInit(root);
      if !initiator {
        send, recv := recv, send;
      }
      this.rootKey := root;
      this.selfKey := ratchetKey;
      this.peerKey, this.pendingPeer := None, None;
      this.sendChain, this.recvChain := Some(ChainKey(send, 0)), Some(ChainKey(recv, 0));
      this.sendN, this.recvN, this.prevSendN := 0, 0, 0;
      this.skippedKeys := new KeyTable(map[]);
      this.hybrid := hybrid;
    }

    // The saved form of this ratchet, and with it its table.
    function ToDict(): Saved
      reads this, skippedKeys
    {
      Save(Value(), skippedKeys)
    }

    // A ratchet made from a saved form copies the keys of the table into one of its own.
    constructor FromDict(d: Saved)
      requires Load(d).Some?
      ensures Value() == Load(d).value && fresh(skippedKeys)
    {
      rootKey, selfKey := d.rootKey, d.selfKey;
      peerKey, pendingPeer := Decode(d.peerKey), Decode(d.pendingPeer);
      sendChain, recvChain := Decode(d.sendChain), Decode(d.recvChain);
      sendN, recvN, prevSendN := d.sendN, d.recvN, d.prevSendN;
      skippedKeys := new KeyTable(d.skippedKeys.keys);
      hybrid := d.hybrid;
    }

    method RestoreSnapshot(d: Saved)
      requires Load(d).Some?
      modifies this
      ensures Value() == old(Load(d)).value && fresh(skippedKeys)
    {
      var restored := new RatchetState.FromDict(d);
      rootKey, selfKey := restored.rootKey, restored.selfKey;
      peerKey, pendingPeer := restored.peerKey, restored.pendingPeer;
      sendChain, recvChain := restored.sendChain, restored.recvChain;
      sendN, recvN, prevSendN := restored.sendN, restored.recvN, restored.prevSendN;
      skippedKeys := new KeyTable(restored.skippedKeys.keys);
      hybrid := restored.hybrid;
    }

    method PairingSendInit(peer: KeyId, newKey: KeyId)
      modifies this
      ensures skippedKeys == old(skippedKeys)
      ensures Value() == R.PairingSendInit(old(Value()), peer, newKey)
    {
      peerKey := Some(peer);
      var root := RootKdf(rootKey, DH(selfKey, peer));
      selfKey := newKey;
      var dh := DH(newKey, peer);
      rootKey, sendChain := RootKdf(root, dh), Some(ChainKey(ChainKdf(root, dh), 0));
      prevSendN := sendN;
      sendN := 0;
    }

    method PairingRecvInit(peer: KeyId)
      modifies this
      ensures skippedKeys == old(skippedKeys)
      ensures Value() == R.PairingRecvInit(old(Value()), peer)
    {
      peerKey := Some(peer);
      var dh := DH(selfKey, peer);
      rootKey, recvChain := RootKdf(rootKey, dh), Some(ChainKey(ChainKdf(rootKey, dh), 0));
      recvN := 0;
    }

    method DhRatchet(peer: KeyId, newKey: KeyId)
      modifies this, skippedKeys
      ensures Value() == R.DhRatchet(old(Value()), peer, newKey) && skippedKeys == old(skippedKeys)
    {
      skippedKeys.keys := map[];
      peerKey := Some(peer);
      var dh := DH(selfKey, peer);
      rootKey, recvChain := RootKdf(rootKey, dh), Some(ChainKey(ChainKdf(rootKey, dh), 0));
      recvN := 0;
      selfKey := newKey;
      dh := DH(newKey, peer);
      rootKey, sendChain := RootKdf(rootKey, dh), Some(ChainKey(ChainKdf(rootKey, dh), 0));
      prevSendN := sendN;
      sendN := 0;
    }

    // newKey is the key pair this call would generate.
    method Encrypt(m: InnerMessage, newKey: KeyId) returns (res: Result<Payload, R.Error>)
      modifies this
      ensures skippedKeys == old(skippedKeys)
      ensures match R.Encrypt(old(Value()), m, newKey)
              case Success(sp) => Value() == sp.0 && res == Success(sp.1)
              case Failure(e) => Value() == old(Value()) && res == Failure(e)
    {
      if pendingPeer.Some? {
        var peer := pendingPeer.value;
        pendingPeer := None;
        PairingSendInit(peer, newKey);
      }
      if sendChain.None? {
        return Failure(R.NotInitialized);
      }
      var (key, next) := KdfChain(sendChain.value);
      sendChain := Some(next);
      var header := Header(selfKey, prevSendN, sendN);
      sendN := sendN + 1;
      res := Success(Payload(header, Box(key, header, m)));
    }

    // The skip loop: one chain step per position passed, each key stored.
    method SkipAhead(peer: KeyId, n: nat)
      requires recvChain.Some? && recvN <= n
      modifies `recvChain, `recvN, skippedKeys
      ensures skippedKeys.keys == old(skippedKeys.keys) + R.SkippedRange(peer, old(recvChain.value), old(recvN), n)
      ensures recvChain == Some(ChainKey(old(recvChain.value).start, old(recvChain.value).steps + (n - old(recvN))))
      ensures recvN == n
    {
      ghost var c := recvChain.value;
      while recvN < n
        invariant old(recvN) <= recvN <= n
        invariant recvChain == Some(ChainKey(c.start, c.steps + (recvN - old(recvN))))
        invariant skippedKeys.keys == old(skippedKeys.keys) + R.SkippedRange(peer, c, old(recvN), recvN)
      {
        var (key, next) := KdfChain(recvChain.value);
        recvChain := Some(next);
        skippedKeys.keys := skippedKeys.keys[R.SkipId(peer, recvN) := key];
        recvN := recvN + 1;
      }
    }

    // One attempt, in place: the error is what the specification says, and the table is left as
    // it says whatever comes of it.
    method Attempt(h: Header, box: Box, newKey: KeyId) returns (res: Result<InnerMessage, R.Error>)
      modifies this, skippedKeys
      ensures skippedKeys == old(skippedKeys)
      ensures skippedKeys.keys == R.Leftover(old(Value()), Framed(Payload(h, box)))
      ensures match R.Decrypt(old(Value()), Framed(Payload(h, box)), newKey)
              case Success(sm) => Value() == sm.0 && res == Success(sm.1)
              case Failure(e) => res == Failure(e)
    {
      if peerKey.None? {
        peerKey := Some(h.dh);
      } else if peerKey != Some(h.dh) {
        DhRatchet(h.dh, newKey);
      }
      assert Value() == R.Align(old(Value()), h.dh, newKey);
      var selected := SelectKey(h.dh, h.n);
      if selected.Failure? {
        return Failure(selected.error);
      }
      match Open(selected.value, h, box)
      case None => res := Failure(R.OpenFailed);
      case Some(m) => res := Success(m);
    }

    // The snapshot names the table the attempt works on. On any error every other field is put
    // back from it; the stored keys stay as the attempt left them.
    method Decrypt(blob: Blob, newKey: KeyId) returns (res: Result<InnerMessage, R.Error>)
      modifies this, skippedKeys
      ensures skippedKeys == old(skippedKeys) || fresh(skippedKeys)
      ensures old(skippedKeys).keys == R.Leftover(old(Value()), blob)
      ensures match R.Decrypt(old(Value()), blob, newKey)
              case Success(sm) => Value() == sm.0 && res == Success(sm.1)
              case Failure(e) => Value() == R.RolledBack(old(Value()), blob) && res == Failure(e)
    {
      if blob.Malformed? {
        return Failure(R.InvalidHeader);
      }
      var snapshot := ToDict();
      res := Attempt(blob.payload.header, blob.payload.box, newKey);
      if res.Failure? {
        LoadUndoesSave(old(Value()), snapshot.skippedKeys);
        RestoreSnapshot(snapshot);
      }
    }

    // The Rust ratchet clones itself, table and all, and is the clone again after an error.
    method DecryptCloned(blob: Blob, newKey: KeyId) returns (res: Result<InnerMessage, R.Error>)
      modifies this, skippedKeys
      ensures skippedKeys == old(skippedKeys) || fresh(skippedKeys)
      ensures match R.Decrypt(old(Value()), blob, newKey)
              case Success(sm) => Value() == sm.0 && res == Success(sm.1)
              case Failure(e) => Value() == old(Value()) && res == Failure(e)
    {
      if blob.Malformed? {
        return Failure(R.InvalidHeader);
      }
      var keys := new KeyTable(skippedKeys.keys);
      var snapshot := Save(Value(), keys);
      res := Attempt(blob.payload.header, blob.payload.box, newKey);
      if res.Failure? {
        LoadUndoesSave(old(Value()), keys);
        RestoreSnapshot(snapshot);
      }
    }

    method SelectKey(peer: KeyId, n: nat) returns (res: Result<MessageKey, R.Error>)
      modifies this, skippedKeys
      ensures skippedKeys == old(skippedKeys)
      ensures match R.Select(old(Value()), peer, n)
              case Success(sk) => Value() == sk.0 && res == Success(sk.1)
              case Failure(e) => Value() == old(Value()) && res == Failure(e)
    {
      if recvChain.None? {
        return Failure(R.NotInitialized);
      }
      if n < recvN {
        if R.SkipId(peer, n) in skippedKeys.keys {
          return Success(skippedKeys.keys[R.SkipId(peer, n)]);
        }
        return Failure(R.AlreadyReceived);
      }
      if n - recvN > R.MAX_SKIP_GAP {
        return Failure(R.GapTooLarge);
      }
      if |skippedKeys.keys| + (n - recvN) > R.MAX_SKIPPED_KEYS {
        return Failure(R.SkippedKeyLimit);
      }
      var key := SkipTo(peer, n);
      res := Success(key);
    }

    method SkipTo(peer: KeyId, n: nat) returns (key: MessageKey)
      requires recvChain.Some? && n >= recvN
      modifies `recvChain, `recvN, skippedKeys
      ensures (Value(), key) == R.SkipTo(old(Value()), peer, n)
    {
      SkipAhead(peer, n);
      var (k, next) := KdfChain(recvChain.value);
      recvChain := Some(next);
      recvN := n + 1;
      key := k;
    }
  }
}
