/** Guarantees over whole runs of two paired contacts. */
module Runs {
  import opened Crypto
  import opened Message
  import opened KeySchedule
  import opened SkippedKeys
  import opened TwoParty
  import opened Acceptance
  import opened Preservation
  import R = Ratchet
  import S = Session

  ghost predicate Run(sys: System, steps: seq<Step>)
    decreases |steps|
  {
    steps == [] || (Enabled(sys, steps[0]) && Run(Apply(sys, steps[0]), steps[1..]))
  }

  ghost function After(sys: System, steps: seq<Step>): System
    decreases |steps|
  {
    if steps == [] then sys else After(Apply(sys, steps[0]), steps[1..])
  }

  lemma {:induction false} RunJoin(sys: System, a: seq<Step>, b: seq<Step>)
    requires Run(sys, a) && Run(After(sys, a), b)
    ensures Run(sys, a + b) && After(sys, a + b) == After(After(sys, a), b)
    decreases |a|
  {
    if a == [] {
      assert a + b == b;
    } else {
      RunJoin(Apply(sys, a[0]), a[1..], b);
      assert (a + b)[1..] == a[1..] + b;
    }
  }

  lemma RunOne(sys: System, a: Step)
    requires Enabled(sys, a)
    ensures Run(sys, [a]) && After(sys, [a]) == Apply(sys, a)
  {
    assert [a][1..] == [] && Run(Apply(sys, a), []) && After(Apply(sys, a), []) == Apply(sys, a);
  }

  lemma RunTwo(sys: System, a: Step, b: Step)
    requires Enabled(sys, a) && Enabled(Apply(sys, a), b)
    ensures Run(sys, [a, b]) && After(sys, [a, b]) == Apply(Apply(sys, a), b)
  {
    RunOne(sys, a);
    RunOne(Apply(sys, a), b);
    RunJoin(sys, [a], [b]);
    assert [a] + [b] == [a, b];
  }

  // ---------- the state pairing leaves behind ----------

  ghost predicate FreshContact(c: S.Contact, conversation: string, ratchet: R.State) {
    && c.conversation == conversation && c.nextSendSeq == 1 && c.lastRecvSeq == 0 && c.ratchet == ratchet
  }

  // Both ratchets come from one master secret and the two ratchet keys exchanged.
  ghost predicate Paired(sys: System, master: Master, hybrid: bool, inviterKey: KeyId, joinerKey: KeyId,
                         conversation: string)
  {
    && inviterKey != joinerKey && inviterKey < sys.nextKey && joinerKey < sys.nextKey
    && sys.schedule == Schedule(RootOf(master), [inviterKey, joinerKey])
    && FreshContact(sys.inviter.contact, conversation,
                    R.FromMaster(master, true, hybrid, inviterKey).(pendingPeer := Some(joinerKey)))
    && FreshContact(sys.joiner.contact, conversation,
                    R.PairingRecvInit(R.FromMaster(master, false, hybrid, joinerKey), inviterKey))
    && sys.inviter.epoch == 0 && sys.joiner.epoch == 1
    && sys.inviter.log == [] && sys.joiner.log == [] && sys.inviter.accepted == [] && sys.joiner.accepted == []
  }

  lemma PairedInv(sys: System, master: Master, hybrid: bool, inviterKey: KeyId, joinerKey: KeyId, conversation: string)
    requires Paired(sys, master, hybrid, inviterKey, joinerKey, conversation)
    ensures Inv(sys)
  {
    var sch := sys.schedule;
    assert sch.keys[..0] == [] && sch.keys[..1] == [inviterKey];
    assert sch.DistinctTo(0) && sch.DistinctTo(1) && sch.DistinctTo(2);
    assert sch.Root(1) == RootKdf(RootOf(master), DH(inviterKey, joinerKey));
    assert SideInv(sys, Inviter);
    assert SideInv(sys, Joiner);
  }

  lemma {:induction false} RunKeepsInv(sys: System, steps: seq<Step>)
    requires Inv(sys) && Run(sys, steps)
    ensures Inv(After(sys, steps))
    decreases |steps|
  {
    if steps != [] {
      StepKeepsInv(sys, steps[0]);
      RunKeepsInv(Apply(sys, steps[0]), steps[1..]);
    }
  }

  // ---------- two-party correctness ----------

  // What a side has accepted is, message for message, the beginning of what the peer sent.
  ghost predicate AcceptedPrefix(sys: System, r: Role) {
    var got, sent := sys.Get(r).accepted, sys.Get(Other(r)).log;
    && |got| <= |sent|
    && forall i | 0 <= i < |got| :: sent[i].Sent? && got[i] == sent[i].payload.box.plaintext && got[i].seqNo == i + 1
  }

  lemma InvAcceptedPrefix(sys: System, r: Role)
    requires Inv(sys)
    ensures AcceptedPrefix(sys, r) && |sys.Get(r).accepted| == sys.Get(r).contact.lastRecvSeq
  {
    SeeSide(sys, r);
    SeeSide(sys, Other(r));
    var o := sys.Get(Other(r));
    forall i: nat | i < |sys.Get(r).accepted| && o.log[i].Sent? ensures o.log[i].payload.box.plaintext.seqNo == i + 1 {
      assert WellSealed(sys.schedule, sys.nextKey, Other(r), o, i);
    }
  }

  // In every run from a completed pairing, against every network, both sides have accepted a
  // beginning of what the other sent, and the next thing either accepts is exactly the
  // peer's next message, if it is unexpired and its backlog is within the limits.
  lemma TwoPartyCorrectness(sys: System, steps: seq<Step>, master: Master, hybrid: bool,
                            inviterKey: KeyId, joinerKey: KeyId, conversation: string,
                            r: Role, blob: Blob, now: int, newKey: KeyId)
    requires Paired(sys, master, hybrid, inviterKey, joinerKey, conversation) && Run(sys, steps)
    requires Presentable(After(sys, steps), blob)
    ensures var end := After(sys, steps);
            var res := S.DecryptInbound(end.Get(r).contact, blob, now, newKey);
            && AcceptedPrefix(end, Inviter) && AcceptedPrefix(end, Joiner)
            && (res.Success? <==> Acceptable(end, r, blob, now))
            && (res.Success? ==> res.value.1 == NextSlot(end, r).payload.box.plaintext)
  {
    PairedInv(sys, master, hybrid, inviterKey, joinerKey, conversation);
    RunKeepsInv(sys, steps);
    InvAcceptedPrefix(After(sys, steps), Inviter);
    InvAcceptedPrefix(After(sys, steps), Joiner);
    AcceptsExactlyNext(After(sys, steps), r, blob, now, newKey);
  }

  // ---------- skipped keys ----------

  // In every reachable state the receive chain is the ideal chain of one epoch advanced recvN
  // times. Of the at most 256 stored keys those under the peer key in use, or all while there is
  // none, are that chain's own, for positions passed or less than 128 ahead. Others no attempt
  // ever reads: a header key that is not in use clears the table first.
  lemma SkippedKeyRefinement(sys: System, steps: seq<Step>, master: Master, hybrid: bool,
                             inviterKey: KeyId, joinerKey: KeyId, conversation: string, r: Role)
    requires Paired(sys, master, hybrid, inviterKey, joinerKey, conversation) && Run(sys, steps)
    ensures var end := After(sys, steps);
            var q, e := end.Get(r).contact.ratchet, RecvEpoch(end.Get(r));
            && |end.schedule.keys| >= 2 && e < |end.schedule.keys|
            && (q.peerKey.Some? ==> q.peerKey.value == end.schedule.keys[e])
            && q.recvChain == Some(ChainKey(end.schedule.Chain(e), q.recvN))
            && |q.skipped| <= R.MAX_SKIPPED_KEYS
            && (forall id <- q.skipped :: InUse(q, id.dh) ==>
                  id.n < q.recvN + R.MAX_SKIP_GAP && q.skipped[id] == MessageKey(end.schedule.Chain(e), id.n))
            && (forall id <- q.skipped, newKey | !InUse(q, id.dh) :: R.Align(q, id.dh, newKey).skipped == map[])
  {
    PairedInv(sys, master, hybrid, inviterKey, joinerKey, conversation);
    RunKeepsInv(sys, steps);
    SeeSide(After(sys, steps), r);
  }

  // ---------- lock-step roots ----------

  lemma InvLockStep(sys: System)
    requires Inv(sys)
    ensures exists r :: OneStepAhead(sys, r)
  {
    SeeSide(sys, Inviter);
    SeeSide(sys, Joiner);
    var r := if sys.inviter.epoch == |sys.schedule.keys| - 1 then Inviter else Joiner;
    assert OneStepAhead(sys, r);
  }

  // In every reachable state one side holds the newest key of the schedule and the other the one
  // before it. The roots are one root step apart, by the agreement between these two keys. The
  // side ahead has seen the other's newest key; the side behind has seen every key of the other
  // but the newest.
  lemma LockStepRoots(sys: System, steps: seq<Step>, master: Master, hybrid: bool,
                      inviterKey: KeyId, joinerKey: KeyId, conversation: string)
    requires Paired(sys, master, hybrid, inviterKey, joinerKey, conversation) && Run(sys, steps)
    ensures exists r :: OneStepAhead(After(sys, steps), r)
    ensures After(sys, steps).schedule.Distinct()
  {
    PairedInv(sys, master, hybrid, inviterKey, joinerKey, conversation);
    RunKeepsInv(sys, steps);
    InvLockStep(After(sys, steps));
  }

  ghost predicate OneStepAhead(sys: System, r: Role) {
    var ahead, behind, keys := sys.Get(r).contact.ratchet, sys.Get(Other(r)).contact.ratchet, sys.schedule.keys;
    var n := |keys|;
    && n >= 2 && ahead.selfKey == keys[n - 1] && behind.selfKey == keys[n - 2]
    && ahead.rootKey == RootKdf(behind.rootKey, DH(behind.selfKey, ahead.selfKey))
    && ahead.peerKey == Some(behind.selfKey)
    && (n == 2 ==> behind.pendingPeer == Some(ahead.selfKey))
    && (n >= 3 ==> behind.peerKey == Some(keys[n - 3]) && behind.pendingPeer.None?)
  }
}
