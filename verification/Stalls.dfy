/** What the in-order gate costs: when a direction is open for good, when it is shut for good,
    and when a full table of stored keys shuts it until the table is cleared. */
module Stalls {
  import opened Crypto
  import opened Message
  import opened Log
  import opened TwoParty
  import opened Opening
  import opened SkippedKeys
  import opened Acceptance
  import opened Preservation
  import opened Runs
  import R = Ratchet
  import S = Session

  // ---------- without auxiliary messages the limits never bind ----------

  ghost predicate OnlyTextAndReceipts(log: seq<Slot>) {
    forall i | 0 <= i < |log| && log[i].Sent? :: !Auxiliary(log[i].payload.box.plaintext.kind)
  }

  lemma {:induction false} NoBacklog(first: nat, log: seq<Slot>, k: nat)
    requires OnlyTextAndReceipts(log) && k <= |log|
    ensures CursorAfter(first, log[..k]).sinceText == 0
  {
    if k > 0 {
      NoBacklog(first, log, k - 1);
      CursorStep(first, log, k - 1);
    }
  }

  // While the peer sends nothing but texts and receipts, its next message is accepted
  // whenever it is unexpired.
  lemma TextsAndReceiptsFlow(sys: System, r: Role, now: int, newKey: KeyId)
    requires Inv(sys) && HasNext(sys, r) && OnlyTextAndReceipts(sys.Get(Other(r)).log)
    requires now <= NextSlot(sys, r).payload.box.plaintext.validUntil
    ensures var p := NextSlot(sys, r).payload;
            var res := S.DecryptInbound(sys.Get(r).contact, Framed(p), now, newKey);
            res.Success? && res.value.1 == p.box.plaintext
  {
    NoBacklog(First(Other(r)), sys.Get(Other(r)).log, sys.Get(r).contact.lastRecvSeq);
    SeeSide(sys, r);
    NextIsAccepted(sys, r, now, newKey);
  }

  // ---------- a blocked head ----------

  // The next sequence number can never be accepted at or after this time: it was lost, it
  // is too far behind auxiliary messages, or it has expired.
  ghost predicate HeadBlocked(sys: System, r: Role, time: int) {
    var k, log := sys.Get(r).contact.lastRecvSeq, sys.Get(Other(r)).log;
    && k < |log|
    && (log[k].Hole?
        || NextBacklog(sys, r) > R.MAX_SKIP_GAP
        || time > log[k].payload.box.plaintext.validUntil)
  }

  ghost predicate ReceivesAfter(steps: seq<Step>, r: Role, time: int) {
    forall i | 0 <= i < |steps| && steps[i].Receive? && steps[i].role == r :: steps[i].now >= time
  }

  lemma LogsGrow(sys: System, step: Step, r: Role)
    ensures sys.Get(r).log <= Apply(sys, step).Get(r).log
  {
  }

  lemma OthersKeepPosition(sys: System, step: Step, r: Role)
    requires !(step.Receive? && step.role == r)
    ensures Apply(sys, step).Get(r).contact.lastRecvSeq == sys.Get(r).contact.lastRecvSeq
    ensures Apply(sys, step).Get(r).accepted == sys.Get(r).accepted
  {
  }

  // The head stays what it is while the position does and the log only grows.
  lemma StillBlocked(sys: System, next: System, r: Role, time: int)
    requires HeadBlocked(sys, r, time) && sys.Get(Other(r)).log <= next.Get(Other(r)).log
    requires next.Get(r).contact.lastRecvSeq == sys.Get(r).contact.lastRecvSeq
    ensures HeadBlocked(next, r, time)
  {
    var k := sys.Get(r).contact.lastRecvSeq;
    assert next.Get(Other(r)).log[..k] == sys.Get(Other(r)).log[..k];
  }

  lemma RejectedStays(sys: System, r: Role, blob: Blob, now: int, k: KeyId)
    requires S.DecryptInbound(sys.Get(r).contact, blob, now, k).Failure?
    ensures var next := Apply(sys, Receive(r, blob, now, k));
            next.Get(r).contact.lastRecvSeq == sys.Get(r).contact.lastRecvSeq
            && next.Get(r).accepted == sys.Get(r).accepted
  {
  }

  lemma BlockedReceive(sys: System, r: Role, blob: Blob, now: int, k: KeyId, time: int)
    requires Inv(sys) && Presentable(sys, blob) && HeadBlocked(sys, r, time) && now >= time
    ensures S.DecryptInbound(sys.Get(r).contact, blob, now, k).Failure?
  {
    AcceptsExactlyNext(sys, r, blob, now, k);
  }

  lemma BlockedStep(sys: System, step: Step, r: Role, time: int)
    requires Inv(sys) && Enabled(sys, step) && HeadBlocked(sys, r, time)
    requires step.Receive? && step.role == r ==> step.now >= time
    ensures HeadBlocked(Apply(sys, step), r, time)
    ensures Apply(sys, step).Get(r).accepted == sys.Get(r).accepted
  {
    LogsGrow(sys, step, Other(r));
    if step.Receive? && step.role == r {
      BlockedReceive(sys, r, step.blob, step.now, step.newKey, time);
      RejectedStays(sys, r, step.blob, step.now, step.newKey);
    } else {
      OthersKeepPosition(sys, step, r);
    }
    StillBlocked(sys, Apply(sys, step), r, time);
  }

  // A blocked head shuts its direction for good: in every later run nothing more is accepted.
  lemma {:induction false} BlockedForGood(sys: System, steps: seq<Step>, r: Role, time: int)
    requires Inv(sys) && Run(sys, steps) && HeadBlocked(sys, r, time) && ReceivesAfter(steps, r, time)
    ensures After(sys, steps).Get(r).accepted == sys.Get(r).accepted
    decreases |steps|
  {
    if steps != [] {
      BlockedStep(sys, steps[0], r, time);
      StepKeepsInv(sys, steps[0]);
      BlockedForGood(Apply(sys, steps[0]), steps[1..], r, time);
    }
  }

  // ---------- a full table ----------

  lemma ClearedTable(sys: System, r: Role, blob: Blob, now: int, k: KeyId)
    requires var q := sys.Get(r).contact.ratchet; blob.Framed? && !InUse(q, blob.payload.header.dh)
    requires S.DecryptInbound(sys.Get(r).contact, blob, now, k).Failure?
    ensures var next := Apply(sys, Receive(r, blob, now, k));
            && |next.Get(r).contact.ratchet.skipped| <= R.MAX_SKIP_GAP
            && next.Get(r).epoch == sys.Get(r).epoch && next.Get(Other(r)) == sys.Get(Other(r))
            && next.Get(r).contact.lastRecvSeq == sys.Get(r).contact.lastRecvSeq
            && Pending(next.Get(r)) == Pending(sys.Get(r))
  {
    LeftoverAhead(sys.Get(r).contact.ratchet, blob);
  }

  // Too many stored keys shut a direction only until a blob under any other header key comes by,
  // a forgery for one: the attempt to open it clears the table.
  lemma ForgeryUnblocks(sys: System, r: Role, blob: Blob, now: int, k: KeyId)
    requires Inv(sys) && HasNext(sys, r) && NextBacklog(sys, r) <= R.MAX_SKIP_GAP
    requires blob.Framed? && !InUse(sys.Get(r).contact.ratchet, blob.payload.header.dh)
    requires S.DecryptInbound(sys.Get(r).contact, blob, now, k).Failure?
    ensures var next := Apply(sys, Receive(r, blob, now, k));
            HasNext(next, r) && NextSlot(next, r) == NextSlot(sys, r)
            && WithinGap(NextBacklog(next, r), NextHeld(next, r))
  {
    ClearedTable(sys, r, blob, now, k);
  }
}
