/** Profile and presence messages move the sender's chain but not the receiver's. Enough of
    them in a row put the next text out of reach, and with it everything that follows. */
module Floods {
  import opened Crypto
  import opened Message
  import opened Log
  import opened TwoParty
  import opened Opening
  import opened Acceptance
  import opened Preservation
  import opened Stalls
  import opened Orderly
  import R = Ratchet
  import Runs
  import S = Session

  ghost predicate AuxiliaryIn(epoch: nat, slot: Slot) {
    slot.Sent? && Auxiliary(slot.payload.box.plaintext.kind) && slot.at.At? && slot.at.epoch == epoch
  }

  // n profile or presence messages in a row, of one epoch, put the cursor n past the last text.
  lemma {:induction false} AuxiliaryRun(first: nat, log: seq<Slot>, k: nat, n: nat, epoch: nat)
    requires n <= k <= |log| && forall i | k - n <= i < k :: AuxiliaryIn(epoch, log[i])
    ensures CursorAfter(first, log[..k]).sinceText >= n
    ensures n > 0 ==> CursorAfter(first, log[..k]).epoch == epoch
    decreases n
  {
    if n > 0 {
      assert AuxiliaryIn(epoch, log[k - 1]);
      AuxiliaryRun(first, log, k - 1, n - 1, epoch);
      CursorStep(first, log, k - 1);
    }
  }

  // Behind 129 of them, nothing of that epoch is ever accepted, whatever the network does.
  lemma FloodBlocks(sys: System, r: Role, n: nat, epoch: nat, time: int)
    requires Inv(sys) && R.MAX_SKIP_GAP < n <= sys.Get(r).contact.lastRecvSeq < |sys.Get(Other(r)).log|
    requires var k, log := sys.Get(r).contact.lastRecvSeq, sys.Get(Other(r)).log;
             && (forall i | k - n <= i < k :: AuxiliaryIn(epoch, log[i]))
             && (log[k].Sent? ==> log[k].at.At? && log[k].at.epoch == epoch)
    ensures HeadBlocked(sys, r, time)
  {
    AuxiliaryRun(First(Other(r)), sys.Get(Other(r)).log, sys.Get(r).contact.lastRecvSeq, n, epoch);
  }

  // ---------- such a state is reached ----------

  function Notice(until: int): S.Draft { S.Draft("device", Presence(""), 0, until) }

  // The inviter has accepted all the joiner has sent, in its first epoch and in order.
  ghost predicate Exchanging(sys: System) {
    && Inv(sys) && Tallied(sys, Inviter) && !sys.joiner.contact.hybrid && sys.joiner.epoch == 1
    && |sys.joiner.log| == sys.inviter.contact.lastRecvSeq
    && JoinerCursor(sys).epoch == 1
  }

  ghost function JoinerCursor(sys: System): Cursor {
    CursorAfter(1, sys.joiner.log)
  }

  function Counted(c: Cursor, k: Kind): Cursor {
    if k.Text? then c.(n := c.n + 1, sinceText := 0, probed := 0, begun := true)
    else c.(n := c.n + 1, sinceText := c.sinceText + 1, probed := c.sinceText, auxiliary := c.auxiliary + 1,
              begun := true)
  }

  lemma JoinerSends(sys: System, d: S.Draft, k: KeyId)
    requires Inv(sys) && !sys.joiner.contact.hybrid && !d.kind.Receipt? && k >= sys.nextKey
    ensures var next := Apply(sys, SendMessage(Joiner, d, 0, k));
            && Inv(next) && next.inviter == sys.inviter && next.nextKey == sys.nextKey
            && next.joiner.epoch == sys.joiner.epoch
            && !next.joiner.contact.hybrid && |next.joiner.log| == |sys.joiner.log| + 1
            && next.joiner.log[..|sys.joiner.log|] == sys.joiner.log
            && var slot := next.joiner.log[|sys.joiner.log|];
               slot.Sent? && slot.at.At? && slot.at.epoch == sys.joiner.epoch
               && slot.payload.box.plaintext.kind == d.kind && slot.payload.box.plaintext.validUntil == d.validUntil
  {
    SeeSide(sys, Joiner);
    StepKeepsInv(sys, SendMessage(Joiner, d, 0, k));
    SteadyEncrypt(sys.joiner.contact, d, 0, k);
    SteadySendIs(sys, Joiner, d, 0, k);
  }

  // The message sent is the inviter's next, and its orderly backlog is the joiner's cursor.
  ghost predicate Waiting(sys: System, d: S.Draft, c: Cursor) {
    && Inv(sys) && Tallied(sys, Inviter) && !sys.joiner.contact.hybrid && sys.joiner.epoch == 1
    && HasNext(sys, Inviter) && |sys.joiner.log| == sys.inviter.contact.lastRecvSeq + 1
    && PeerCursor(sys, Inviter) == c && c.epoch == 1
    && NextSlot(sys, Inviter).at.At? && NextSlot(sys, Inviter).at.epoch == 1
    && NextSlot(sys, Inviter).payload.box.plaintext.kind == d.kind
    && NextSlot(sys, Inviter).payload.box.plaintext.validUntil == d.validUntil
  }

  lemma SentWaits(sys: System, d: S.Draft, k: KeyId)
    requires Exchanging(sys) && !d.kind.Receipt? && k >= sys.nextKey
    ensures var next := Apply(sys, SendMessage(Joiner, d, 0, k));
            && Waiting(next, d, JoinerCursor(sys)) && next.nextKey == sys.nextKey && next.inviter == sys.inviter
            && |next.joiner.log| == |sys.joiner.log| + 1
  {
    var next := Apply(sys, SendMessage(Joiner, d, 0, k));
    JoinerSends(sys, d, k);
    OtherLeavesReceiver(sys, SendMessage(Joiner, d, 0, k), Inviter);
    SameTallied(sys, next, Inviter);
  }

  lemma WaitingIsSmooth(sys: System, d: S.Draft, c: Cursor, k: KeyId)
    requires Waiting(sys, d, c) && d.validUntil >= 0 && k >= sys.nextKey
             && WithinGap(c.sinceText, c.auxiliary + c.probed)
    ensures var step := Receive(Inviter, Framed(NextSlot(sys, Inviter).payload), 0, k);
            Enabled(sys, step) && Smooth(sys, step, Inviter)
  {
    assert SealedIn(sys.joiner.log, NextSlot(sys, Inviter).payload.box);
    OrderlyHeld(sys, Inviter);
    NextIsAccepted(sys, Inviter, 0, k);
  }

  lemma AcceptedExchanges(sys: System, next: System, d: S.Draft, c: Cursor)
    requires Waiting(sys, d, c) && !d.kind.Receipt?
    requires Inv(next) && Tallied(next, Inviter) && next.joiner == sys.joiner
    requires next.inviter.contact.lastRecvSeq == sys.inviter.contact.lastRecvSeq + 1
    ensures Exchanging(next) && JoinerCursor(next) == Counted(c, d.kind)
  {
    NextCursor(sys.joiner.log, sys.inviter.contact.lastRecvSeq, c, d.kind);
  }

  lemma NextCursor(log: seq<Slot>, k: nat, c: Cursor, kind: Kind)
    requires |log| == k + 1 && CursorAfter(1, log[..k]) == c && c.epoch == 1 && !kind.Receipt?
    requires log[k].Sent? && log[k].at.At? && log[k].at.epoch == 1 && log[k].payload.box.plaintext.kind == kind
    ensures CursorAfter(1, log) == Counted(c, kind)
  {
    CursorStep(1, log, k);
    assert log[..|log|] == log;
  }

  lemma WaitingIsAccepted(sys: System, d: S.Draft, c: Cursor, k: KeyId)
    requires Waiting(sys, d, c) && !d.kind.Receipt? && d.validUntil >= 0 && k >= sys.nextKey
    requires WithinGap(c.sinceText, c.auxiliary + c.probed)
    ensures var step := Receive(Inviter, Framed(NextSlot(sys, Inviter).payload), 0, k);
            && Enabled(sys, step) && Smooth(sys, step, Inviter)
            && Exchanging(Apply(sys, step)) && JoinerCursor(Apply(sys, step)) == Counted(c, d.kind)
            && Apply(sys, step).joiner == sys.joiner
  {
    var blob := Framed(NextSlot(sys, Inviter).payload);
    WaitingIsSmooth(sys, d, c, k);
    AcceptMovesOn(sys, Inviter, 0, k);
    StepKeepsInv(sys, Receive(Inviter, blob, 0, k));
    AcceptTallied(sys, Inviter, blob, 0, k);
    AcceptedExchanges(sys, Apply(sys, Receive(Inviter, blob, 0, k)), d, c);
  }

  // One more message, sent and accepted.
  lemma Deliver(sys: System, d: S.Draft) returns (steps: seq<Step>)
    requires Exchanging(sys) && !d.kind.Receipt? && d.validUntil >= 0
    requires WithinGap(JoinerCursor(sys).sinceText, JoinerCursor(sys).auxiliary + JoinerCursor(sys).probed)
    ensures Runs.Run(sys, steps) && SmoothRun(sys, steps, Inviter)
    ensures Exchanging(Runs.After(sys, steps))
            && JoinerCursor(Runs.After(sys, steps)) == Counted(JoinerCursor(sys), d.kind)
    ensures |Runs.After(sys, steps).joiner.log| == |sys.joiner.log| + 1
  {
    var send := SendMessage(Joiner, d, 0, sys.nextKey);
    var mid := Apply(sys, send);
    SentWaits(sys, d, sys.nextKey);
    WaitingIsAccepted(mid, d, JoinerCursor(sys), sys.nextKey);
    var receive := Receive(Inviter, Framed(NextSlot(mid, Inviter).payload), 0, sys.nextKey);
    Runs.RunTwo(sys, send, receive);
    SmoothTwo(sys, send, receive, Inviter);
    steps := [send, receive];
  }

  lemma SmoothTwo(sys: System, a: Step, b: Step, r: Role)
    requires Smooth(sys, a, r) && Smooth(Apply(sys, a), b, r)
    ensures SmoothRun(sys, [a, b], r)
  {
    assert [a, b][1..] == [b] && [b][1..] == [];
    assert SmoothRun(Apply(sys, a), [b], r);
  }

  lemma {:induction false} SmoothJoin(sys: System, a: seq<Step>, b: seq<Step>, r: Role)
    requires SmoothRun(sys, a, r) && SmoothRun(Runs.After(sys, a), b, r)
    ensures SmoothRun(sys, a + b, r)
    decreases |a|
  {
    if a == [] {
      assert a + b == b;
    } else {
      SmoothJoin(Apply(sys, a[0]), a[1..], b, r);
      assert (a + b)[1..] == a[1..] + b;
    }
  }

  // n notices in a row after a text, each accepted in its turn.
  lemma {:induction false} Notices(sys: System, n: nat, until: nat) returns (steps: seq<Step>)
    requires Exchanging(sys) && JoinerCursor(sys).sinceText == JoinerCursor(sys).probed == 0
    requires n <= R.MAX_SKIP_GAP + 1 && JoinerCursor(sys).auxiliary + 2 * n <= R.MAX_SKIPPED_KEYS + 3
    requires JoinerCursor(sys).auxiliary <= R.MAX_SKIPPED_KEYS
    ensures Runs.Run(sys, steps) && SmoothRun(sys, steps, Inviter) && Exchanging(Runs.After(sys, steps))
    ensures var c, d := JoinerCursor(sys), JoinerCursor(Runs.After(sys, steps));
            && |Runs.After(sys, steps).joiner.log| == |sys.joiner.log| + n
            && d.sinceText == n && d.probed == (if n == 0 then 0 else n - 1) && d.auxiliary == c.auxiliary + n
            && d.n == c.n + n
    decreases n
  {
    steps := [];
    if n > 0 {
      var first := Notices(sys, n - 1, until);
      var last := Deliver(Runs.After(sys, first), Notice(until));
      Runs.RunJoin(sys, first, last);
      SmoothJoin(sys, first, last, Inviter);
      steps := first + last;
    }
  }

  lemma PairedExchanging(sys: System, master: Master, inviterKey: KeyId, joinerKey: KeyId, conversation: string)
    requires Runs.Paired(sys, master, false, inviterKey, joinerKey, conversation) && !sys.joiner.contact.hybrid
    ensures Exchanging(sys) && JoinerCursor(sys) == Cursor(1, 0, 0, 0, 0, false)
  {
    Runs.PairedInv(sys, master, false, inviterKey, joinerKey, conversation);
    PairedTallied(sys, master, false, inviterKey, joinerKey, conversation, Inviter);
  }

  // ---------- a direction shut for good ----------

  lemma TextAfterFlood(sys: System, body: string, until: nat, time: int)
    requires Exchanging(sys) && JoinerCursor(sys).sinceText > R.MAX_SKIP_GAP && time <= until
    ensures var send := SendMessage(Joiner, S.Draft("device", Text(body), 0, until), 0, sys.nextKey);
            Enabled(sys, send) && Wedged(Apply(sys, send), body, time)
  {
    SentWaits(sys, S.Draft("device", Text(body), 0, until), sys.nextKey);
  }

  // From every completed classical pairing there is a run that leaves one direction shut for
  // good behind a text that was sent and is not expired.
  lemma NoticesWedge(sys: System, master: Master, inviterKey: KeyId, joinerKey: KeyId, conversation: string,
                     body: string, until: nat, time: int)
    requires Runs.Paired(sys, master, false, inviterKey, joinerKey, conversation) && !sys.joiner.contact.hybrid
    requires time <= until
    ensures exists steps :: Runs.Run(sys, steps) && Wedged(Runs.After(sys, steps), body, time)
  {
    PairedExchanging(sys, master, inviterKey, joinerKey, conversation);
    var first := Notices(sys, 129, until);
    var mid := Runs.After(sys, first);
    TextAfterFlood(mid, body, until, time);
    var send := SendMessage(Joiner, S.Draft("device", Text(body), 0, until), 0, mid.nextKey);
    Runs.RunOne(mid, send);
    Runs.RunJoin(sys, first, [send]);
    assert Wedged(Runs.After(sys, first + [send]), body, time);
  }

  // The joiner's last message, a text not yet expired, is the inviter's next, and can never be
  // accepted.
  ghost predicate Wedged(sys: System, body: string, time: int) {
    var n := |sys.joiner.log|;
    && n > 0 && sys.inviter.contact.lastRecvSeq == n - 1 && sys.joiner.log[n - 1].Sent?
    && sys.joiner.log[n - 1].payload.box.plaintext.kind == Text(body)
    && time <= sys.joiner.log[n - 1].payload.box.plaintext.validUntil
    && HeadBlocked(sys, Inviter, time)
  }

  // ---------- what the rollback leaves behind ----------

  lemma ExchangedTable(sys: System)
    requires Exchanging(sys)
    ensures var q, c := sys.inviter.contact.ratchet, JoinerCursor(sys);
            && |sys.schedule.keys| >= 2 && Tally(c, q.skipped, q.recvN, sys.schedule.keys[1])
            && c.n == q.recvN + c.sinceText
  {
    SeeSide(sys, Inviter);
    SeeSide(sys, Joiner);
    assert sys.joiner.log[..|sys.joiner.log|] == sys.joiner.log;
    assert sys.Get(Other(Inviter)) == sys.joiner;
  }

  // Two notices, sent and accepted in order, leave the key of the first stored, though the chain
  // has not moved and no position was ever passed.
  lemma TwoNoticesLeaveAKey(sys: System, master: Master, inviterKey: KeyId, joinerKey: KeyId, conversation: string,
                            until: nat)
    returns (steps: seq<Step>)
    requires Runs.Paired(sys, master, false, inviterKey, joinerKey, conversation) && !sys.joiner.contact.hybrid
    ensures Runs.Run(sys, steps) && SmoothRun(sys, steps, Inviter)
    ensures var end := Runs.After(sys, steps);
            && end.inviter.contact.lastRecvSeq == 2 == |end.joiner.log|
            && end.inviter.contact.ratchet.recvN == 0
            && |end.schedule.keys| >= 2 && R.SkipId(end.schedule.keys[1], 0) in end.inviter.contact.ratchet.skipped
  {
    PairedExchanging(sys, master, inviterKey, joinerKey, conversation);
    steps := Notices(sys, 2, until);
    ExchangedTable(Runs.After(sys, steps));
  }

  lemma RefusedByTable(sys: System, d: S.Draft, c: Cursor)
    requires Waiting(sys, d, c) && c.sinceText <= R.MAX_SKIP_GAP && c.auxiliary + c.probed > R.MAX_SKIPPED_KEYS
    ensures NextBacklog(sys, Inviter) == c.sinceText
    ensures forall now, k ::
              S.DecryptInbound(sys.inviter.contact, Framed(NextSlot(sys, Inviter).payload), now, k).Failure?
  {
    OrderlyHeld(sys, Inviter);
    forall now, k
      ensures S.DecryptInbound(sys.inviter.contact, Framed(NextSlot(sys, Inviter).payload), now, k).Failure?
    {
      NextIsAccepted(sys, Inviter, now, k);
    }
  }

  // The next notice is 97 positions on, the 162nd of its epoch, and refused with 160 keys stored.
  ghost predicate NoticeRefused(end: System, until: nat) {
    && HasNext(end, Inviter) && NextBacklog(end, Inviter) == 97 && PeerCursor(end, Inviter).auxiliary == 161
    && |end.inviter.contact.ratchet.skipped| == 160
    && NextSlot(end, Inviter).payload.box.plaintext.kind == Presence("")
    && NextSlot(end, Inviter).payload.box.plaintext.validUntil == until
    && forall now, k ::
         S.DecryptInbound(end.inviter.contact, Framed(NextSlot(end, Inviter).payload), now, k).Failure?
  }

  lemma LastNotice(sys: System, until: nat)
    requires Exchanging(sys)
    requires var c := JoinerCursor(sys); c.sinceText == 97 && c.probed == 96 && c.auxiliary == 161
    ensures var send := SendMessage(Joiner, Notice(until), 0, sys.nextKey);
            Enabled(sys, send) && NoticeRefused(Apply(sys, send), until)
  {
    ExchangedTable(sys);
    SentWaits(sys, Notice(until), sys.nextKey);
    RefusedByTable(Apply(sys, SendMessage(Joiner, Notice(until), 0, sys.nextKey)), Notice(until), JoinerCursor(sys));
  }

  // 64 notices, a text and 97 notices, each accepted in its turn: 160 keys are stored, and the next
  // notice, 97 positions on, is refused, though with the 161 notices of the epoch alone there
  // would have been room.
  lemma RollbackRefuses(sys: System, master: Master, inviterKey: KeyId, joinerKey: KeyId, conversation: string,
                        body: string, until: nat)
    returns (steps: seq<Step>)
    requires Runs.Paired(sys, master, false, inviterKey, joinerKey, conversation) && !sys.joiner.contact.hybrid
    ensures Runs.Run(sys, steps) && SmoothRun(sys, steps, Inviter)
    ensures NoticeRefused(Runs.After(sys, steps), until)
  {
    PairedExchanging(sys, master, inviterKey, joinerKey, conversation);
    var a := Notices(sys, 64, until);
    var s1 := Runs.After(sys, a);
    var b := Deliver(s1, S.Draft("device", Text(body), 0, until));
    var s2 := Runs.After(s1, b);
    var c := Notices(s2, 97, until);
    var s3 := Runs.After(s2, c);
    LastNotice(s3, until);
    steps := FourRuns(sys, a, b, c, SendMessage(Joiner, Notice(until), 0, s3.nextKey));
  }

  lemma FourRuns(sys: System, a: seq<Step>, b: seq<Step>, c: seq<Step>, send: Step) returns (steps: seq<Step>)
    requires Runs.Run(sys, a) && SmoothRun(sys, a, Inviter)
    requires var s1 := Runs.After(sys, a);
             && Runs.Run(s1, b) && SmoothRun(s1, b, Inviter)
             && var s2 := Runs.After(s1, b);
                && Runs.Run(s2, c) && SmoothRun(s2, c, Inviter)
                && Enabled(Runs.After(s2, c), send) && send.SendMessage?
    ensures Runs.Run(sys, steps) && SmoothRun(sys, steps, Inviter)
    ensures Runs.After(sys, steps) == Apply(Runs.After(Runs.After(Runs.After(sys, a), b), c), send)
  {
    var s1 := Runs.After(sys, a);
    var s2 := Runs.After(s1, b);
    var s3 := Runs.After(s2, c);
    Runs.RunOne(s3, send);
    assert [send][1..] == [] && SmoothRun(s3, [send], Inviter);
    Runs.RunJoin(s2, c, [send]);
    SmoothJoin(s2, c, [send], Inviter);
    Runs.RunJoin(s1, b, c + [send]);
    SmoothJoin(s1, b, c + [send], Inviter);
    Runs.RunJoin(sys, a, b + (c + [send]));
    SmoothJoin(sys, a, b + (c + [send]), Inviter);
    steps := a + (b + (c + [send]));
  }
}
