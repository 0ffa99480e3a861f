/** Symbolic cryptography. A private X25519 key is named by a number and its public
    half carries the same name; every derivation is a free constructor, so two derived
    values are equal exactly when they were derived from equal inputs in the same way. */
module Crypto {
  datatype Option<+T> = None | Some(value: T)

  datatype Result<+T, +E> = Success(value: T) | Failure(error: E)

  type KeyId = nat

  // X25519 agreement: an unordered pair, so both ends compute the same value
  // (section 6.1 of RFC 7748).
  datatype Shared = Shared(low: KeyId, high: KeyId)

  function DH(private: KeyId, public: KeyId): Shared {
    if private <= public then Shared(private, public) else Shared(public, private)
  }

  // What goes into a SHA-256 transcript.
  datatype Atom =
    | Name(text: string)
    | Public(key: KeyId)
    | Random(id: nat)
    | Kem(ct: KemCiphertext)
    | Empty

  datatype Digest = Sha256(parts: seq<Atom>)

  // ML-KEM-768: a ciphertext for a public key, and the secret it carries. Decapsulating
  // with another key gives an unrelated secret rather than an error.
  datatype KemCiphertext = Encapsulated(to: KeyId, coins: nat)

  datatype KemSecret = KemSecret(private: KeyId, ct: KemCiphertext)

  function KemDecapsulate(private: KeyId, ct: KemCiphertext): KemSecret {
    KemSecret(private, ct)
  }

  // The secret a pairing or a public bundle yields.
  datatype Master =
    | BundleMaster(shared: Shared)
    | PairMaster(identity: Shared, ephemeral: Shared, transcript: Digest)
    | HybridMaster(identity: Shared, ephemeral: Shared, pq: KemSecret, transcript: Digest)

  // The root step turns a root key and an agreement into a new root key and the start
  // of a chain.
  datatype RootKey = RootOf(master: Master) | RootKdf(root: RootKey, dh: Shared)

  datatype ChainStart =
    | SendInit(root: RootKey)
    | RecvInit(root: RootKey)
    | ChainKdf(root: RootKey, dh: Shared)

  // A chain key is named by the start of its chain and the chain steps taken since. The
  // chain step yields the message key of that position and the next chain key.
  datatype ChainKey = ChainKey(start: ChainStart, steps: nat)

  datatype MessageKey =
    | MessageKey(start: ChainStart, position: nat)
    | Foreign(id: nat)  // a key neither party ever derived

  function KdfChain(c: ChainKey): (MessageKey, ChainKey) {
    (MessageKey(c.start, c.steps), ChainKey(c.start, c.steps + 1))
  }
}
