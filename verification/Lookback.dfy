/** Whole fetches over the mailbox tags of the lookback window (yakr_core/mailbox.py,
    yakr_core/privacy.py): newest epoch first, then the decoys. */
module Lookback {
  import opened Message
  import opened Log
  import opened TwoParty
  import opened Fetch
  import opened Hearing
  import opened Draining
  import opened Padding
  import opened Reach

  datatype Tag = Mailbox(epoch: int) | Decoy(epoch: int, index: nat)

  function CandidateEpochs(current: int, lookback: nat): seq<Tag> {
    seq(lookback + 1, offset => Mailbox(current - offset))
  }

  function DecoyCount(mode: Mode): nat {
    match mode case Fast => 0 case Balanced => 3 case High => 7
  }

  function DecoysFor(tags: seq<Tag>, count: nat): seq<Tag> {
    if tags == [] then [] else seq(count, (index: nat) => Decoy(tags[0].epoch, index)) + DecoysFor(tags[1..], count)
  }

  function FetchTags(current: int, lookback: nat, mode: Mode): seq<Tag> {
    var mailboxes := CandidateEpochs(current, lookback);
    mailboxes + DecoysFor(mailboxes, DecoyCount(mode))
  }

  // What a fetch asks for: the mailboxes of the window, newest first, and none, three or seven decoys
  // of each of their epochs.
  lemma TagsAreExact(current: int, lookback: nat, mode: Mode, tag: Tag)
    ensures |FetchTags(current, lookback, mode)| ==
            (lookback + 1) * (match mode case Fast => 1 case Balanced => 4 case High => 8)
    ensures forall i | 0 <= i <= lookback :: FetchTags(current, lookback, mode)[i] == Mailbox(current - i)
    ensures tag in FetchTags(current, lookback, mode) <==>
            && current - lookback <= tag.epoch <= current
            && (tag.Decoy? ==> tag.index < match mode case Fast => 0 case Balanced => 3 case High => 7)
  {
    var mailboxes := CandidateEpochs(current, lookback);
    DecoysAreExact(mailboxes, DecoyCount(mode), tag);
    if current - lookback <= tag.epoch <= current {
      assert mailboxes[current - tag.epoch] == Mailbox(tag.epoch);
    }
  }

  lemma {:induction false} DecoysAreExact(tags: seq<Tag>, count: nat, tag: Tag)
    ensures |DecoysFor(tags, count)| == |tags| * count
    ensures tag in DecoysFor(tags, count) <==>
            tag.Decoy? && tag.index < count && exists t <- tags :: t.epoch == tag.epoch
  {
    if tags != [] {
      DecoysAreExact(tags[1..], count, tag);
      var first := seq(count, (index: nat) => Decoy(tags[0].epoch, index));
      if tag.Decoy? && tag.index < count && tag.epoch == tags[0].epoch {
        assert first[tag.index] == tag;
      }
    }
  }

  function DrainAll(m: Mail, tags: seq<Tag>, shelf: Tag -> seq<Blob>, env: Env): Mail
    decreases |tags|
  {
    if tags == [] then m else DrainAll(Drain(m, shelf(tags[0]), env), tags[1..], shelf, env)
  }

  // One whole fetch: the contact is read, and each tag is drained in turn.
  function FetchAll(m: Mail, tags: seq<Tag>, shelf: Tag -> seq<Blob>, env: Env): Mail {
    DrainAll(Reread(m), tags, shelf, env)
  }

  function Fetching(tags: seq<Tag>, shelf: Tag -> seq<Blob>, env: Env): Mail -> Mail {
    m => FetchAll(m, tags, shelf, env)
  }

  // n whole fetches while the relay keeps what it has.
  function Fetches(m: Mail, n: nat, fetch: Mail -> Mail): Mail
    decreases n
  {
    if n == 0 then m else Fetches(fetch(m), n - 1, fetch)
  }

  // ---------- where the reader stands ----------

  ghost function Position(log: seq<Slot>, k: nat, tags: seq<Tag>, shelf: Tag -> seq<Blob>, now: int): nat
    decreases |tags|
  {
    if tags == [] then k else Position(log, RunEnd(log, k, shelf(tags[0]), now), tags[1..], shelf, now)
  }

  ghost predicate OldestFirst(k: nat, end: nat, epochOf: nat -> int)
    decreases end - k
  {
    k + 1 >= end || (epochOf(k) <= epochOf(k + 1) && OldestFirst(k + 1, end, epochOf))
  }

  lemma {:induction false} OldestFirstStays(k: nat, l: nat, end: nat, epochOf: nat -> int)
    requires OldestFirst(k, end, epochOf) && k <= l
    ensures OldestFirst(l, end, epochOf)
    decreases l - k
  {
    if k < l && k + 1 < end {
      OldestFirstStays(k + 1, l, end, epochOf);
    }
  }

  // Each slot from k to end lies in the one mailbox of its epoch, and older epochs hold
  // lower numbers; nothing else on the shelves can be taken.
  ghost predicate Shelved(log: seq<Slot>, k: nat, end: nat, epochOf: nat -> int, shelf: Tag -> seq<Blob>, now: int) {
    && OldestFirst(k, end, epochOf)
    && (forall j: nat, tag | j >= k :: ShelvedAt(log, j, tag, end, epochOf, shelf, now))
  }

  ghost predicate ShelvedAt(log: seq<Slot>, j: nat, tag: Tag, end: nat, epochOf: nat -> int, shelf: Tag -> seq<Blob>,
                            now: int)
  {
    Takeable(log, j, shelf(tag), now) <==> j < end && tag == Mailbox(epochOf(j))
  }

  // The first slot after k of a later epoch.
  function NextEpoch(k: nat, end: nat, epochOf: nat -> int): nat
    decreases end - k
  {
    if k + 1 < end && epochOf(k + 1) == epochOf(k) then NextEpoch(k + 1, end, epochOf)
    else if k < end then k + 1 else k
  }

  lemma {:induction false} NextEpochIsLater(k: nat, end: nat, epochOf: nat -> int)
    requires k < end && OldestFirst(k, end, epochOf)
    ensures var l := NextEpoch(k, end, epochOf);
            k < l <= end && (l < end ==> epochOf(l) > epochOf(k))
            && (forall j: nat | k <= j < l :: epochOf(j) == epochOf(k))
    decreases end - k
  {
    if k + 1 < end && epochOf(k + 1) == epochOf(k) {
      NextEpochIsLater(k + 1, end, epochOf);
    }
  }

  // Draining a tag clears its epoch if the reader stands there, and does nothing otherwise.
  lemma TagPosition(log: seq<Slot>, k: nat, end: nat, epochOf: nat -> int, shelf: Tag -> seq<Blob>, tag: Tag, now: int)
    requires Shelved(log, k, end, epochOf, shelf, now)
    ensures RunEnd(log, k, shelf(tag), now) ==
            if k < end && tag == Mailbox(epochOf(k)) then NextEpoch(k, end, epochOf) else k
  {
    if k < end && tag == Mailbox(epochOf(k)) {
      var l := NextEpoch(k, end, epochOf);
      NextEpochIsLater(k, end, epochOf);
      forall j: nat | k <= j < l ensures Takeable(log, j, shelf(tag), now) {
        assert ShelvedAt(log, j, tag, end, epochOf, shelf, now);
      }
      assert ShelvedAt(log, l, tag, end, epochOf, shelf, now);
      RunEndIs(log, k, l, shelf(tag), now);
    } else {
      assert ShelvedAt(log, k, tag, end, epochOf, shelf, now);
    }
  }

  lemma ShelvedStays(log: seq<Slot>, k: nat, l: nat, end: nat, epochOf: nat -> int, shelf: Tag -> seq<Blob>, now: int)
    requires Shelved(log, k, end, epochOf, shelf, now) && k <= l
    ensures Shelved(log, l, end, epochOf, shelf, now)
  {
    OldestFirstStays(k, l, end, epochOf);
  }

  // Tags of other epochs, and decoys, leave the reader where it is.
  lemma {:induction false} OthersIdle(log: seq<Slot>, k: nat, tags: seq<Tag>, end: nat, epochOf: nat -> int,
                                      shelf: Tag -> seq<Blob>, now: int)
    requires Shelved(log, k, end, epochOf, shelf, now)
    requires k < end ==> Mailbox(epochOf(k)) !in tags
    ensures Position(log, k, tags, shelf, now) == k
    decreases |tags|
  {
    if tags != [] {
      TagPosition(log, k, end, epochOf, shelf, tags[0], now);
      OthersIdle(log, k, tags[1..], end, epochOf, shelf, now);
    }
  }

  lemma {:induction false} PositionJoin(log: seq<Slot>, k: nat, a: seq<Tag>, b: seq<Tag>, shelf: Tag -> seq<Blob>,
                                        now: int)
    ensures Position(log, k, a + b, shelf, now) == Position(log, Position(log, k, a, shelf, now), b, shelf, now)
    decreases |a|
  {
    if a == [] {
      assert a + b == b;
    } else {
      PositionJoin(log, RunEnd(log, k, shelf(a[0]), now), a[1..], b, shelf, now);
      assert (a + b)[1..] == a[1..] + b;
    }
  }

  lemma {:induction false} DecoysAreDecoys(tags: seq<Tag>, count: nat)
    ensures forall tag <- DecoysFor(tags, count) :: tag.Decoy?
  {
    if tags != [] {
      DecoysAreDecoys(tags[1..], count);
    }
  }

  lemma TagAt(current: int, lookback: nat, mode: Mode, epoch: int, from: nat, upto: nat)
    requires from <= upto <= |FetchTags(current, lookback, mode)|
    requires upto <= current - epoch || from > current - epoch
    ensures Mailbox(epoch) !in FetchTags(current, lookback, mode)[from..upto]
  {
    var mailboxes, tags := CandidateEpochs(current, lookback), FetchTags(current, lookback, mode);
    DecoysAreDecoys(mailboxes, DecoyCount(mode));
    forall j | from <= j < upto ensures tags[j] != Mailbox(epoch) {
      if j > lookback {
        assert tags[j] in DecoysFor(mailboxes, DecoyCount(mode));
      }
    }
  }

  predicate InWindow(epoch: int, current: int, lookback: nat) {
    current - lookback <= epoch <= current
  }

  lemma RestIdle(log: seq<Slot>, l: nat, tags: seq<Tag>, i: nat, end: nat, epochOf: nat -> int,
                 shelf: Tag -> seq<Blob>, now: int,
                 current: int, lookback: nat, mode: Mode)
    requires tags == FetchTags(current, lookback, mode) && i <= |tags| && Shelved(log, l, end, epochOf, shelf, now)
    requires l < end ==> i > current - epochOf(l)
    ensures Position(log, l, tags[i..], shelf, now) == l
  {
    if l < end {
      assert tags[i..] == tags[i..|tags|];
      TagAt(current, lookback, mode, epochOf(l), i, |tags|);
    }
    OthersIdle(log, l, tags[i..], end, epochOf, shelf, now);
  }

  // A whole fetch clears exactly one epoch, the one the reader stands in: newer mailboxes were
  // visited too early, and older ones hold nothing more.
  lemma OneFetchOneEpoch(log: seq<Slot>, k: nat, end: nat, epochOf: nat -> int, shelf: Tag -> seq<Blob>, now: int,
                         current: int, lookback: nat, mode: Mode)
    requires Shelved(log, k, end, epochOf, shelf, now) && (k < end ==> InWindow(epochOf(k), current, lookback))
    ensures Position(log, k, FetchTags(current, lookback, mode), shelf, now) == OneOn(k, end, epochOf)
  {
    var tags := FetchTags(current, lookback, mode);
    if k < end {
      var i, l := current - epochOf(k), NextEpoch(k, end, epochOf);
      NextEpochIsLater(k, end, epochOf);
      assert tags[i] == Mailbox(epochOf(k)) && tags == tags[..i] + ([tags[i]] + tags[i + 1..]);
      TagAt(current, lookback, mode, epochOf(k), 0, i);
      OthersIdle(log, k, tags[..i], end, epochOf, shelf, now);
      PositionJoin(log, k, tags[..i], [tags[i]] + tags[i + 1..], shelf, now);
      TagPosition(log, k, end, epochOf, shelf, tags[i], now);
      assert ([tags[i]] + tags[i + 1..])[1..] == tags[i + 1..];
      ShelvedStays(log, k, l, end, epochOf, shelf, now);
      RestIdle(log, l, tags, i + 1, end, epochOf, shelf, now, current, lookback, mode);
    } else {
      OthersIdle(log, k, tags, end, epochOf, shelf, now);
    }
  }

  // One epoch further, if there is one.
  function OneOn(k: nat, end: nat, epochOf: nat -> int): nat {
    if k < end then NextEpoch(k, end, epochOf) else k
  }

  // Where n whole fetches bring the reader: n epochs further.
  function Cleared(k: nat, n: nat, end: nat, epochOf: nat -> int): nat
    decreases n
  {
    if n == 0 then k else Cleared(OneOn(k, end, epochOf), n - 1, end, epochOf)
  }

  lemma {:induction false} EachEpochCounts(k: nat, n: nat, end: nat, epochOf: nat -> int, oldest: int)
    requires k <= end && OldestFirst(k, end, epochOf)
    requires k < end ==> epochOf(k) >= oldest
    ensures var p := Cleared(k, n, end, epochOf);
            k <= p <= end && (p < end ==> epochOf(p) >= oldest + n)
    decreases n
  {
    if n > 0 {
      var l := OneOn(k, end, epochOf);
      if k < end {
        NextEpochIsLater(k, end, epochOf);
        OldestFirstStays(k, l, end, epochOf);
      }
      EachEpochCounts(l, n - 1, end, epochOf, oldest + 1);
    }
  }

  // ---------- the fetches themselves ----------

  ghost predicate OnShelves(shelf: Tag -> seq<Blob>, tags: seq<Tag>, all: seq<Blob>) {
    forall tag <- tags :: Among(shelf(tag), all)
  }

  // The messages of slots k..position-1, none left out or read twice, follow those before.
  ghost predicate ReadOn(log: seq<Slot>, k: nat, position: nat, before: seq<InnerMessage>, after: seq<InnerMessage>) {
    && k <= position <= |log| && after == before + Texts(log, k, position)
    && (forall j: nat | k <= j < position :: log[j].Sent?)
  }

  lemma AppendThen(a: seq<InnerMessage>, first: seq<InnerMessage>, second: seq<InnerMessage>)
    ensures (a + first) + second == a + (first + second)
  {
  }

  lemma ReadOnThen(log: seq<Slot>, k: nat, p: nat, q: nat, a: seq<InnerMessage>, b: seq<InnerMessage>,
                   c: seq<InnerMessage>)
    requires ReadOn(log, k, p, a, b) && ReadOn(log, p, q, b, c)
    ensures ReadOn(log, k, q, a, c)
  {
    TextsJoin(log, k, p, q);
    AppendThen(a, Texts(log, k, p), Texts(log, p, q));
  }

  // From one state to another by whole fetches.
  ghost predicate Read(sys: System, r: Role, m: Mail, next: System, n: Mail, position: nat) {
    && Onward(sys, next, r) && !n.halted && next.Get(r).contact.lastRecvSeq == position == n.disk.contact.lastRecvSeq
    && ReadOn(sys.Get(Other(r)).log, sys.Get(r).contact.lastRecvSeq, position, m.got, n.got)
  }

  // The session will seal a receipt for every text up to that position of the log.
  ghost predicate GoesTo(sys: System, r: Role, m: Mail, end: nat, env: Env) {
    !m.halted && Stop(sys, r, m, end, env) == (end, false)
  }

  // Enough for every message is enough; a classical session has any number.
  lemma EnoughToGo(sys: System, r: Role, m: Mail, end: nat, env: Env)
    requires var log, k, left := sys.Get(Other(r)).log, sys.Get(r).contact.lastRecvSeq, SealsLeft(m.contact, env.now);
             && !m.halted && k <= end <= |log| && (forall j: nat | k <= j < end :: log[j].Sent?)
             && (left.None? || left.value >= end - k)
    ensures GoesTo(sys, r, m, end, env)
  {
    EnoughSeals(sys.Get(Other(r)).log, sys.Get(r).contact.lastRecvSeq, end, SealsLeft(m.contact, env.now), m.tried,
                env.refused);
  }

  lemma StillGoes(sys: System, r: Role, m: Mail, next: System, n: Mail, end: nat, env: Env)
    requires OnCourse(sys, r, m, next, n, env) && GoesTo(sys, r, m, end, env)
    requires next.Get(r).contact.lastRecvSeq <= end
    ensures GoesTo(next, r, n, end, env)
  {
    assert Stop(next, r, n, end, env) == Stop(sys, r, m, end, env);
  }

  // There is room for the messages before that position of the log, and the session answers them.
  ghost predicate Set(sys: System, r: Role, m: Mail, all: seq<Blob>, end: nat, env: Env) {
    Drainable(sys, r, m, all, end) && GoesTo(sys, r, m, end, env)
  }

  ghost predicate Fetched(sys: System, r: Role, m: Mail, next: System, n: Mail, position: nat, all: seq<Blob>, end: nat,
                          env: Env)
  {
    Set(next, r, n, all, end, env) && Read(sys, r, m, next, n, position)
  }

  // Of the messages from position k on, the queue has only some before the end.
  ghost predicate Limited(log: seq<Slot>, k: nat, queue: seq<Blob>, end: nat, now: int) {
    k <= end && forall j: nat | j >= k && Takeable(log, j, queue, now) :: j < end
  }

  lemma LimitedRun(log: seq<Slot>, k: nat, l: nat, queue: seq<Blob>, end: nat, now: int)
    requires Limited(log, k, queue, end, now) && k <= l && forall j: nat | k <= j < l :: Takeable(log, j, queue, now)
    requires l < end ==> !Takeable(log, l, queue, now)
    ensures l <= end && RunEnd(log, k, queue, now) == l
    ensures k <= |log| ==> l <= |log| && forall j: nat | k <= j < l :: log[j].Sent?
  {
    assert l > k ==> Takeable(log, l - 1, queue, now);
    RunEndIs(log, k, l, queue, now);
    forall j: nat | k <= j < l ensures j < |log| && log[j].Sent? {
      assert Takeable(log, j, queue, now);
    }
  }

  lemma TagIsDrained(sys: System, r: Role, m: Mail, queue: seq<Blob>, all: seq<Blob>, end: nat, env: Env)
    returns (next: System)
    requires Set(sys, r, m, all, end, env) && Among(queue, all)
    requires Limited(sys.Get(Other(r)).log, sys.Get(r).contact.lastRecvSeq, queue, end, env.now)
    ensures Fetched(sys, r, m, next, Drain(m, queue, env),
                    RunEnd(sys.Get(Other(r)).log, sys.Get(r).contact.lastRecvSeq, queue, env.now), all, end, env)
    ensures next.Get(r).contact.lastRecvSeq <= end
  {
    var log, k := sys.Get(Other(r)).log, sys.Get(r).contact.lastRecvSeq;
    next := DrainCollects(sys, r, m, queue, queue, all, env, end);
    var l := next.Get(r).contact.lastRecvSeq;
    GatheredLimit(log, k, m.got, l, Drain(m, queue, env).got, queue, env.now, end);
    StillGoes(sys, r, m, next, Drain(m, queue, env), end, env);
    PositionInLog(sys, r);
    SavedPosition(next, r, Drain(m, queue, env));
    LimitedRun(log, k, l, queue, end, env.now);
  }

  lemma GatheredLimit(log: seq<Slot>, k: nat, got: seq<InnerMessage>, l: nat, more: seq<InnerMessage>, queue: seq<Blob>,
                      now: int, end: nat)
    requires Gathered(log, k, got, l, more, queue, now) && Limited(log, k, queue, end, now)
    ensures l <= end
  {
    assert l > k ==> Takeable(log, l - 1, queue, now);
  }

  lemma ReadThen(a: System, b: System, c: System, r: Role, m: Mail, n: Mail, o: Mail, p: nat, q: nat)
    requires Read(a, r, m, b, n, p) && Read(b, r, n, c, o, q)
    ensures Read(a, r, m, c, o, q)
  {
    ReadOnThen(a.Get(Other(r)).log, a.Get(r).contact.lastRecvSeq, p, q, m.got, n.got, o.got);
  }

  lemma FetchedThen(a: System, b: System, c: System, r: Role, m: Mail, n: Mail, o: Mail, p: nat, q: nat, all: seq<Blob>,
                    end: nat, env: Env)
    requires Read(a, r, m, b, n, p) && Fetched(b, r, n, c, o, q, all, end, env)
    ensures Fetched(a, r, m, c, o, q, all, end, env)
  {
    ReadThen(a, b, c, r, m, n, o, p, q);
  }

  lemma NotYetFetched(sys: System, r: Role, m: Mail, all: seq<Blob>, end: nat, env: Env)
    requires Set(sys, r, m, all, end, env)
    ensures Fetched(sys, r, m, sys, m, sys.Get(r).contact.lastRecvSeq, all, end, env)
  {
    PositionInLog(sys, r);
    assert m.got + [] == m.got;
  }

  ghost predicate AllLimited(log: seq<Slot>, k: nat, tags: seq<Tag>, shelf: Tag -> seq<Blob>, end: nat, now: int) {
    forall tag <- tags :: Limited(log, k, shelf(tag), end, now)
  }

  lemma LimitedStays(log: seq<Slot>, k: nat, l: nat, tags: seq<Tag>, shelf: Tag -> seq<Blob>, end: nat, now: int)
    requires AllLimited(log, k, tags, shelf, end, now) && k <= l <= end && tags != []
    ensures AllLimited(log, l, tags[1..], shelf, end, now)
  {
    forall tag | tag in tags[1..] ensures Limited(log, l, shelf(tag), end, now) {
      assert Limited(log, k, shelf(tag), end, now);
    }
  }

  lemma {:induction false} DrainAllIsFetched(sys: System, r: Role, m: Mail, tags: seq<Tag>, shelf: Tag -> seq<Blob>,
                                             all: seq<Blob>, end: nat, env: Env)
    returns (next: System)
    requires Set(sys, r, m, all, end, env) && OnShelves(shelf, tags, all)
    requires AllLimited(sys.Get(Other(r)).log, sys.Get(r).contact.lastRecvSeq, tags, shelf, end, env.now)
    ensures Fetched(sys, r, m, next, DrainAll(m, tags, shelf, env),
                    Position(sys.Get(Other(r)).log, sys.Get(r).contact.lastRecvSeq, tags, shelf, env.now), all, end,
                    env)
    decreases |tags|
  {
    if tags == [] {
      next := sys;
      NotYetFetched(sys, r, m, all, end, env);
    } else {
      assert tags[0] in tags;
      var mid := TagIsDrained(sys, r, m, shelf(tags[0]), all, end, env);
      var n := Drain(m, shelf(tags[0]), env);
      LimitedStays(sys.Get(Other(r)).log, sys.Get(r).contact.lastRecvSeq, mid.Get(r).contact.lastRecvSeq, tags, shelf,
                   end, env.now);
      next := DrainAllIsFetched(mid, r, n, tags[1..], shelf, all, end, env);
      ReadThen(sys, mid, next, r, m, n, DrainAll(m, tags, shelf, env), mid.Get(r).contact.lastRecvSeq,
               next.Get(r).contact.lastRecvSeq);
    }
  }

  // From k on, the shelves hold the messages up to end, in the window's mailboxes by epoch.
  ghost predicate Stocked(log: seq<Slot>, k: nat, end: nat, epochOf: nat -> int, shelf: Tag -> seq<Blob>, now: int,
                          current: int, lookback: nat)
  {
    && k <= end && Shelved(log, k, end, epochOf, shelf, now)
    && forall j: nat | k <= j < end :: InWindow(epochOf(j), current, lookback)
  }

  lemma StockedStays(log: seq<Slot>, k: nat, l: nat, end: nat, epochOf: nat -> int, shelf: Tag -> seq<Blob>, now: int,
                     current: int, lookback: nat)
    requires Stocked(log, k, end, epochOf, shelf, now, current, lookback) && k <= l <= end
    ensures Stocked(log, l, end, epochOf, shelf, now, current, lookback)
  {
    ShelvedStays(log, k, l, end, epochOf, shelf, now);
  }

  lemma RereadGoes(sys: System, r: Role, m: Mail, next: System, end: nat, env: Env)
    requires Synced(sys, r, m) && GoesTo(sys, r, m, end, env) && next.Get(Other(r)) == sys.Get(Other(r))
    requires next.Get(r).contact.lastRecvSeq == sys.Get(r).contact.lastRecvSeq
    ensures GoesTo(next, r, Reread(m), end, env)
  {
    assert SealsLeft(m.disk.contact, env.now) == SealsLeft(m.contact, env.now);
  }

  // Reading the contact keeps everything that a fetch needs.
  lemma ReadBegins(sys: System, r: Role, m: Mail, all: seq<Blob>, end: nat, env: Env) returns (next: System)
    requires Set(sys, r, m, all, end, env)
    ensures Set(next, r, Reread(m), all, end, env)
    ensures Read(sys, r, m, next, Reread(m), sys.Get(r).contact.lastRecvSeq)
    ensures next.Get(r).contact.lastRecvSeq == sys.Get(r).contact.lastRecvSeq && next.Get(Other(r)) == sys.Get(Other(r))
  {
    var table := m.disk.contact.ratchet.skipped;
    next := Apply(sys, Reload(r, table));
    RereadIsReload(sys, r, m);
    SameChainRoomy(sys, next, r, table, all, end);
    PresentablesStay(sys, next, r, all);
    RereadGoes(sys, r, m, next, end, env);
    PositionInLog(sys, r);
    assert m.got + [] == m.got;
  }

  lemma ShelvesAreLimited(log: seq<Slot>, k: nat, tags: seq<Tag>, end: nat, epochOf: nat -> int,
                          shelf: Tag -> seq<Blob>, now: int)
    requires k <= end && Shelved(log, k, end, epochOf, shelf, now)
    ensures AllLimited(log, k, tags, shelf, end, now)
  {
    forall tag | tag in tags ensures Limited(log, k, shelf(tag), end, now) {
      forall j: nat | j >= k && Takeable(log, j, shelf(tag), now) ensures j < end {
        assert ShelvedAt(log, j, tag, end, epochOf, shelf, now);
      }
    }
  }

  lemma FetchedOnce(sys: System, r: Role, m: Mail, shelf: Tag -> seq<Blob>, all: seq<Blob>, env: Env,
                    end: nat, epochOf: nat -> int, current: int, lookback: nat, mode: Mode)
    returns (next: System)
    requires Set(sys, r, m, all, end, env) && OnShelves(shelf, FetchTags(current, lookback, mode), all)
    requires Stocked(sys.Get(Other(r)).log, sys.Get(r).contact.lastRecvSeq, end, epochOf, shelf, env.now, current,
                     lookback)
    ensures Fetched(sys, r, m, next, FetchAll(m, FetchTags(current, lookback, mode), shelf, env),
                    OneOn(sys.Get(r).contact.lastRecvSeq, end, epochOf), all, end, env)
  {
    var log, k := sys.Get(Other(r)).log, sys.Get(r).contact.lastRecvSeq;
    var begun := ReadBegins(sys, r, m, all, end, env);
    ShelvesAreLimited(log, k, FetchTags(current, lookback, mode), end, epochOf, shelf, env.now);
    next := DrainAllIsFetched(begun, r, Reread(m), FetchTags(current, lookback, mode), shelf, all, end, env);
    FetchedThen(sys, begun, next, r, m, Reread(m), FetchAll(m, FetchTags(current, lookback, mode), shelf, env), k,
                Position(log, k, FetchTags(current, lookback, mode), shelf, env.now), all, end, env);
    assert k < end ==> InWindow(epochOf(k), current, lookback);
    OneFetchOneEpoch(log, k, end, epochOf, shelf, env.now, current, lookback, mode);
  }

  lemma StockedAfterOne(log: seq<Slot>, k: nat, end: nat, epochOf: nat -> int, shelf: Tag -> seq<Blob>, now: int,
                        current: int, lookback: nat)
    requires Stocked(log, k, end, epochOf, shelf, now, current, lookback)
    ensures Stocked(log, OneOn(k, end, epochOf), end, epochOf, shelf, now, current, lookback)
  {
    if k < end {
      NextEpochIsLater(k, end, epochOf);
    }
    StockedStays(log, k, OneOn(k, end, epochOf), end, epochOf, shelf, now, current, lookback);
  }

  // The mailboxes of a lookback window, and the messages up to end that lie in them.
  datatype Window = Window(current: int, lookback: nat, mode: Mode, shelf: Tag -> seq<Blob>, end: nat,
                           epochOf: nat -> int)
  {
    function Tags(): seq<Tag> { FetchTags(current, lookback, mode) }
  }

  ghost predicate ReadyIn(sys: System, r: Role, m: Mail, w: Window, all: seq<Blob>, env: Env) {
    && Set(sys, r, m, all, w.end, env) && OnShelves(w.shelf, w.Tags(), all)
    && Stocked(sys.Get(Other(r)).log, sys.Get(r).contact.lastRecvSeq, w.end, w.epochOf, w.shelf, env.now, w.current,
               w.lookback)
  }

  // All that whole fetches of a stocked window need, with that log to read and that far read.
  ghost predicate Ready(log: seq<Slot>, k: nat, r: Role, m: Mail, w: Window, all: seq<Blob>, env: Env) {
    exists sys :: ReadyIn(sys, r, m, w, all, env) && sys.Get(Other(r)).log == log && sys.Get(r).contact.lastRecvSeq == k
  }

  // What n whole fetches read, and where they leave the saved position.
  ghost predicate ReadUpTo(log: seq<Slot>, k: nat, position: nat, m: Mail, n: Mail) {
    ReadOn(log, k, position, m.got, n.got) && n.disk.contact.lastRecvSeq == position
  }

  lemma ReadUpToThen(log: seq<Slot>, k: nat, p: nat, q: nat, m: Mail, n: Mail, o: Mail)
    requires ReadUpTo(log, k, p, m, n) && ReadUpTo(log, p, q, n, o)
    ensures ReadUpTo(log, k, q, m, o)
  {
    ReadOnThen(log, k, p, q, m.got, n.got, o.got);
  }

  lemma ReadyAfterOne(log: seq<Slot>, k: nat, r: Role, m: Mail, w: Window, all: seq<Blob>, env: Env)
    requires Ready(log, k, r, m, w, all, env)
    ensures var l, o := OneOn(k, w.end, w.epochOf), FetchAll(m, w.Tags(), w.shelf, env);
            Ready(log, l, r, o, w, all, env) && ReadUpTo(log, k, l, m, o)
  {
    var sys :| ReadyIn(sys, r, m, w, all, env) && sys.Get(Other(r)).log == log
               && sys.Get(r).contact.lastRecvSeq == k;
    var next := FetchedOnce(sys, r, m, w.shelf, all, env, w.end, w.epochOf, w.current, w.lookback, w.mode);
    StockedAfterOne(log, k, w.end, w.epochOf, w.shelf, env.now, w.current, w.lookback);
    assert ReadyIn(next, r, FetchAll(m, w.Tags(), w.shelf, env), w, all, env);
  }

  lemma NoneRead(log: seq<Slot>, k: nat, r: Role, m: Mail, w: Window, all: seq<Blob>, env: Env)
    requires Ready(log, k, r, m, w, all, env)
    ensures ReadUpTo(log, k, k, m, m)
  {
    var sys :| ReadyIn(sys, r, m, w, all, env) && sys.Get(Other(r)).log == log && sys.Get(r).contact.lastRecvSeq == k;
    NotYetFetched(sys, r, m, all, w.end, env);
  }

  // Where a fetch finds what it needs, it reads one epoch and finds it again.
  ghost predicate ReadsOne(log: seq<Slot>, k: nat, m: Mail, fetch: Mail -> Mail, ready: (nat, Mail) -> bool,
                           end: nat, epochOf: nat -> int)
  {
    var l := OneOn(k, end, epochOf);
    ready(k, m) ==> ready(l, fetch(m)) && ReadUpTo(log, k, l, m, fetch(m)) && ReadUpTo(log, k, k, m, m)
  }

  lemma {:induction false} FetchesRead(log: seq<Slot>, k: nat, m: Mail, n: nat, fetch: Mail -> Mail,
                                       ready: (nat, Mail) -> bool, end: nat, epochOf: nat -> int)
    requires ready(k, m) && forall l: nat, o :: ReadsOne(log, l, o, fetch, ready, end, epochOf)
    ensures ReadUpTo(log, k, Cleared(k, n, end, epochOf), m, Fetches(m, n, fetch))
    decreases n
  {
    assert ReadsOne(log, k, m, fetch, ready, end, epochOf);
    if n > 0 {
      var l := OneOn(k, end, epochOf);
      FetchesRead(log, l, fetch(m), n - 1, fetch, ready, end, epochOf);
      ReadUpToThen(log, k, l, Cleared(l, n - 1, end, epochOf), m, fetch(m), Fetches(fetch(m), n - 1, fetch));
    }
  }

  lemma WindowIsRead(log: seq<Slot>, k: nat, r: Role, m: Mail, n: nat, w: Window, all: seq<Blob>, env: Env)
    requires Ready(log, k, r, m, w, all, env)
    ensures ReadUpTo(log, k, Cleared(k, n, w.end, w.epochOf), m, Fetches(m, n, Fetching(w.Tags(), w.shelf, env)))
  {
    var fetch, ready := Fetching(w.Tags(), w.shelf, env), (l: nat, o: Mail) => Ready(log, l, r, o, w, all, env);
    forall l: nat, o ensures ReadsOne(log, l, o, fetch, ready, w.end, w.epochOf) {
      if ready(l, o) {
        ReadyAfterOne(log, l, r, o, w, all, env);
        NoneRead(log, l, r, o, w, all, env);
      }
    }
    FetchesRead(log, k, m, n, fetch, ready, w.end, w.epochOf);
  }

  lemma ReadFromNothing(log: seq<Slot>, k: nat, position: nat, m: Mail, n: Mail)
    requires ReadUpTo(log, k, position, m, n) && m.got == []
    ensures n.got == Texts(log, k, position)
  {
    assert [] + Texts(log, k, position) == Texts(log, k, position);
  }

  // Messages without a gap, each text of which the session will still answer, spread over the
  // mailboxes of the lookback window with older epochs holding lower numbers: n whole fetches clear
  // exactly n of the epochs still occupied, and lookback + 1 of them collect everything, in order
  // and once.
  lemma BoundedDraining(sys: System, r: Role, m: Mail, shelf: Tag -> seq<Blob>, all: seq<Blob>, env: Env,
                        end: nat, epochOf: nat -> int, current: int, lookback: nat, mode: Mode, n: nat)
    requires Drainable(sys, r, m, all, end) && OnShelves(shelf, FetchTags(current, lookback, mode), all)
    requires GoesTo(sys, r, m, end, env) && m.got == []
    requires Stocked(sys.Get(Other(r)).log, sys.Get(r).contact.lastRecvSeq, end, epochOf, shelf, env.now, current,
                     lookback)
    ensures var log, k := sys.Get(Other(r)).log, sys.Get(r).contact.lastRecvSeq;
            var e := Fetches(m, n, Fetching(FetchTags(current, lookback, mode), shelf, env));
            && e.disk.contact.lastRecvSeq == Cleared(k, n, end, epochOf)
            && e.got == Texts(log, k, Cleared(k, n, end, epochOf))
            && (n > lookback ==> e.disk.contact.lastRecvSeq == end)
  {
    var log, k := sys.Get(Other(r)).log, sys.Get(r).contact.lastRecvSeq;
    var w := Window(current, lookback, mode, shelf, end, epochOf);
    assert ReadyIn(sys, r, m, w, all, env);
    WindowIsRead(log, k, r, m, n, w, all, env);
    EachEpochCounts(k, n, end, epochOf, current - lookback);
    ReadFromNothing(log, k, Cleared(k, n, end, epochOf), m, Fetches(m, n, Fetching(w.Tags(), shelf, env)));
  }
}
