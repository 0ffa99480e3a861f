/** The key schedule two paired ratchets walk in step. Ratchet keys alternate: the inviter
    owns the even ones, the joiner the odd ones, and key j heads the messages of epoch j. */
module KeySchedule {
  import opened Crypto

  datatype Schedule = Schedule(base: RootKey, keys: seq<KeyId>) {
    // The root after i agreements between neighbouring keys.
    ghost function Root(i: nat): RootKey
      requires i < |keys|
    {
      if i == 0 then base else RootKdf(Root(i - 1), DH(keys[i - 1], keys[i]))
    }

    // The start of the chain whose messages carry key j. The joiner's first chain comes from
    // the master secret alone; the chain of key 0 is derived but never used.
    ghost function Chain(j: nat): ChainStart
      requires j < |keys| && |keys| >= 2
    {
      if j == 0 then ChainKdf(base, DH(keys[0], keys[1]))
      else if j == 1 then RecvInit(base)
      else ChainKdf(Root(j - 1), DH(keys[j - 1], keys[j]))
    }

    ghost predicate DistinctTo(n: nat)
      requires n <= |keys|
    {
      n == 0 || (keys[n - 1] !in keys[..n - 1] && DistinctTo(n - 1))
    }

    ghost predicate Distinct() {
      DistinctTo(|keys|)
    }

    lemma {:induction false} KeysDiffer(i: nat, j: nat, n: nat)
      requires n <= |keys| && DistinctTo(n) && i < j < n
      ensures keys[i] != keys[j]
    {
      if j == n - 1 {
        assert keys[i] in keys[..n - 1];
      } else {
        KeysDiffer(i, j, n - 1);
      }
    }

    ghost predicate Below(bound: nat) {
      forall i | 0 <= i < |keys| :: keys[i] < bound
    }

    function Extend(k: KeyId): Schedule {
      Schedule(base, keys + [k])
    }

    lemma {:induction false} ExtendRoot(k: KeyId, i: nat)
      requires i < |keys|
      ensures Extend(k).Root(i) == Root(i)
    {
      if i > 0 {
        ExtendRoot(k, i - 1);
      }
    }

    lemma ExtendKeeps(k: KeyId)
      ensures forall i: nat | i < |keys| :: Extend(k).Root(i) == Root(i)
      ensures |keys| >= 2 ==> forall j: nat | j < |keys| :: Extend(k).Chain(j) == Chain(j)
      ensures |keys| >= 1 ==>
                Extend(k).Root(|keys|) == RootKdf(Root(|keys| - 1), DH(keys[|keys| - 1], k))
      ensures |keys| >= 2 ==>
                Extend(k).Chain(|keys|) == ChainKdf(Root(|keys| - 1), DH(keys[|keys| - 1], k))
    {
      forall i: nat | i < |keys| ensures Extend(k).Root(i) == Root(i) {
        ExtendRoot(k, i);
      }
    }

    lemma ExtendDistinct(k: KeyId, bound: nat)
      requires Distinct() && Below(bound) && k >= bound
      ensures Extend(k).Distinct() && Extend(k).Below(k + 1)
    {
      ExtendDistinctTo(k, |keys|);
      assert Extend(k).keys[..|keys|] == keys;
    }

    lemma {:induction false} ExtendDistinctTo(k: KeyId, n: nat)
      requires n <= |keys| && DistinctTo(n)
      ensures Extend(k).DistinctTo(n)
    {
      if n > 0 {
        ExtendDistinctTo(k, n - 1);
        assert Extend(k).keys[..n - 1] == keys[..n - 1];
      }
    }

    // Every agreement makes a new root: no two are the same.
    lemma {:induction false} RootsDiffer(i: nat, j: nat)
      requires i < j < |keys|
      ensures Root(i) != Root(j)
    {
      HeightOfRoot(i);
      HeightOfRoot(j);
    }

    // Nor are two chains.
    lemma ChainsDiffer(i: nat, j: nat)
      requires |keys| >= 2 && i < j < |keys|
      ensures Chain(i) != Chain(j)
    {
      if i >= 2 {
        RootsDiffer(i - 1, j - 1);
      } else if i == 0 && j > 1 {
        RootsDiffer(0, j - 1);
      }
    }

    lemma {:induction false} HeightOfRoot(i: nat)
      requires i < |keys|
      ensures Height(Root(i)) == Height(base) + i
    {
      if i > 0 {
        HeightOfRoot(i - 1);
      }
    }
  }

  ghost function Height(r: RootKey): nat {
    match r
    case RootOf(_) => 0
    case RootKdf(s, _) => Height(s) + 1
  }
}
