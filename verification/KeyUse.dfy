/** No message key seals two texts: over any run, the texts, profiles and presence messages
    of both sides carry pairwise different keys and header positions. */
module KeyUse {
  import opened Crypto
  import opened KeySchedule
  import opened Log
  import opened TwoParty
  import opened Acceptance

  predicate Advances(s: Slot) {
    s.Sent? && !s.payload.box.plaintext.kind.Receipt?
  }

  // Once such a message is sent the cursor is past its place for good.
  lemma {:induction false} CursorPasses(first: nat, log: seq<Slot>, i: nat)
    requires InOrder(first, log) && i < |log| && Advances(log[i]) && log[i].at.At?
    ensures var c := CursorAfter(first, log);
            c.epoch > log[i].at.epoch || (c.epoch == log[i].at.epoch && c.n > log[i].at.n)
    decreases |log|
  {
    var front := log[..|log| - 1];
    PrefixInOrder(first, log, |log| - 1);
    assert FitsAt(first, log, |log| - 1);
    if i < |front| {
      CursorPasses(first, front, i);
    }
  }

  lemma PrefixInOrder(first: nat, log: seq<Slot>, m: nat)
    requires InOrder(first, log) && m <= |log|
    ensures InOrder(first, log[..m])
  {
    forall k: nat | k < m ensures FitsAt(first, log[..m], k) {
      assert FitsAt(first, log, k) && log[..m][..k] == log[..k];
    }
  }

  lemma PlacesDiffer(first: nat, log: seq<Slot>, i: nat, j: nat)
    requires InOrder(first, log) && i < j < |log|
    requires Advances(log[i]) && Advances(log[j]) && log[i].at.At? && log[j].at.At?
    ensures log[i].at != log[j].at
  {
    PrefixInOrder(first, log, j);
    CursorPasses(first, log[..j], i);
    assert FitsAt(first, log, j);
  }

  // Sealed where its place in the schedule says.
  ghost predicate Placed(sch: Schedule, r: Role, slot: Slot)
    requires |sch.keys| >= 2 && slot.Sent?
  {
    && slot.at.At? && 1 <= slot.at.epoch < |sch.keys| && Owns(r, slot.at.epoch)
    && slot.payload.header.dh == sch.keys[slot.at.epoch] && slot.payload.header.n == slot.at.n
    && slot.payload.box.key == MessageKey(sch.Chain(slot.at.epoch), slot.at.n)
  }

  lemma PlaceOf(sys: System, r: Role, i: nat)
    requires Inv(sys) && i < |sys.Get(r).log| && Advances(sys.Get(r).log[i])
    ensures InOrder(First(r), sys.Get(r).log) && |sys.schedule.keys| >= 2 && sys.schedule.Distinct()
    ensures Placed(sys.schedule, r, sys.Get(r).log[i])
  {
    SeeSide(sys, r);
    assert WellSealed(sys.schedule, sys.nextKey, r, sys.Get(r), i);
  }

  lemma PlacesSeparate(sch: Schedule, r: Role, a: Slot, q: Role, b: Slot)
    requires |sch.keys| >= 2 && sch.Distinct() && a.Sent? && b.Sent? && Placed(sch, r, a) && Placed(sch, q, b)
    requires a.at != b.at
    ensures a.payload.box.key != b.payload.box.key
    ensures a.payload.header.dh != b.payload.header.dh || a.payload.header.n != b.payload.header.n
  {
    var i, j := a.at.epoch, b.at.epoch;
    if i < j {
      sch.ChainsDiffer(i, j);
      sch.KeysDiffer(i, j, |sch.keys|);
    } else if j < i {
      sch.ChainsDiffer(j, i);
      sch.KeysDiffer(j, i, |sch.keys|);
    }
  }

  // Any two such messages, of one side or of both, differ in message key and in the pair of
  // ratchet key and message number their headers show.
  lemma KeysUsedOnce(sys: System, r: Role, i: nat, q: Role, j: nat)
    requires Inv(sys)
    requires i < |sys.Get(r).log| && Advances(sys.Get(r).log[i])
    requires j < |sys.Get(q).log| && Advances(sys.Get(q).log[j])
    requires r != q || i != j
    ensures var a, b := sys.Get(r).log[i].payload, sys.Get(q).log[j].payload;
            a.box.key != b.box.key && (a.header.dh != b.header.dh || a.header.n != b.header.n)
  {
    PlaceOf(sys, r, i);
    PlaceOf(sys, q, j);
    if r == q {
      PlacesDiffer(First(r), sys.Get(r).log, if i < j then i else j, if i < j then j else i);
    }
    PlacesSeparate(sys.schedule, r, sys.Get(r).log[i], q, sys.Get(q).log[j]);
  }
}
