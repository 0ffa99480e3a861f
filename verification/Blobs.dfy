/** The relay's blob table (yakr_relay/store.py): capped mailboxes and a sweeper. */
module Blobs {
  import opened Crypto

  const TAG_BYTES: nat := 32
  const MAX_BLOB_TTL_MS: nat := 24 * 60 * 60 * 1000

  type Tag = seq<nat>

  datatype Row = Row(tag: Tag, expiresAt: int, ciphertext: seq<nat>, storedAt: int)

  datatype Limits = Limits(maxBlobSize: nat, maxBlobsPerTag: nat)

  datatype Error = BadTagLength | TooLarge | AlreadyExpired | TtlTooLong | TagFull

  // Rows not yet expired, in the order they were stored.
  function Live(rows: seq<Row>, now: int): seq<Row> {
    if rows == [] then []
    else Live(rows[..|rows| - 1], now) + (if rows[|rows| - 1].expiresAt > now then [rows[|rows| - 1]] else [])
  }

  function OfTag(rows: seq<Row>, tag: Tag): seq<Row> {
    if rows == [] then []
    else OfTag(rows[..|rows| - 1], tag) + (if rows[|rows| - 1].tag == tag then [rows[|rows| - 1]] else [])
  }

  function Listing(rows: seq<Row>, tag: Tag, now: int): seq<Row> {
    OfTag(Live(rows, now), tag)
  }

  function Put(rows: seq<Row>, lim: Limits, tag: Tag, expiresAt: int, ciphertext: seq<nat>,
               now: int): Result<seq<Row>, Error> {
    if |tag| != TAG_BYTES then Failure(BadTagLength)
    else if |ciphertext| > lim.maxBlobSize then Failure(TooLarge)
    else if expiresAt <= now then Failure(AlreadyExpired)
    else if expiresAt > now + MAX_BLOB_TTL_MS then Failure(TtlTooLong)
    else if |Listing(rows, tag, now)| >= lim.maxBlobsPerTag then Failure(TagFull)
    else Success(rows + [Row(tag, expiresAt, ciphertext, now)])
  }

  // ---------- the table object ----------

  class BlobStore {
    const lim: Limits
    var rows: seq<Row>

    constructor (lim: Limits)
      ensures this.lim == lim && rows == []
    {
      this.lim, this.rows := lim, [];
    }

    method Store(tag: Tag, expiresAt: int, ciphertext: seq<nat>, now: int) returns (error: Option<Error>)
      modifies this
      ensures match Put(old(rows), lim, tag, expiresAt, ciphertext, now)
              case Success(r) => rows == r && error == None
              case Failure(e) => rows == old(rows) && error == Some(e)
    {
      if |tag| != TAG_BYTES {
        return Some(BadTagLength);
      }
      if |ciphertext| > lim.maxBlobSize {
        return Some(TooLarge);
      }
      if expiresAt <= now {
        return Some(AlreadyExpired);
      }
      if expiresAt > now + MAX_BLOB_TTL_MS {
        return Some(TtlTooLong);
      }
      var found := Fetch(tag, now);
      if |found| >= lim.maxBlobsPerTag {
        return Some(TagFull);
      }
      rows := rows + [Row(tag, expiresAt, ciphertext, now)];
      error := None;
    }

    // Rows of one tag not yet expired; rows are kept in the order they were stored.
    method Fetch(tag: Tag, now: int) returns (found: seq<Row>)
      ensures found == Listing(rows, tag, now)
    {
      found := [];
      for i := 0 to |rows|
        invariant found == Listing(rows[..i], tag, now)
      {
        ListingSnoc(rows[..i], rows[i], tag, now);
        assert rows[..i + 1] == rows[..i] + [rows[i]];
        if rows[i].tag == tag && rows[i].expiresAt > now {
          found := found + [rows[i]];
        }
      }
      assert rows[..|rows|] == rows;
    }

    method SweepExpired(now: int) returns (removed: nat)
      modifies this
      ensures rows == Live(old(rows), now) && removed == |old(rows)| - |rows|
    {
      var kept := [];
      for i := 0 to |rows|
        invariant kept == Live(rows[..i], now) && |kept| <= i
      {
        assert rows[..i + 1][..i] == rows[..i];
        if rows[i].expiresAt > now {
          kept := kept + [rows[i]];
        }
      }
      assert rows[..|rows|] == rows;
      removed := |rows| - |kept|;
      rows := kept;
    }
  }

  // ---------- live rows ----------

  lemma LiveSnoc(rows: seq<Row>, r: Row, now: int)
    ensures Live(rows + [r], now) == Live(rows, now) + if r.expiresAt > now then [r] else []
  {
    assert (rows + [r])[..|rows|] == rows;
  }

  lemma ListingSnoc(rows: seq<Row>, r: Row, tag: Tag, now: int)
    ensures Listing(rows + [r], tag, now) ==
            Listing(rows, tag, now) + if r.tag == tag && r.expiresAt > now then [r] else []
  {
    var live := Live(rows, now);
    LiveSnoc(rows, r, now);
    assert (live + [r])[..|live|] == live && live + [] == live;
  }

  // What is live later is live among what is live now: a sweep in between removes nothing else.
  lemma {:induction false} LiveLive(rows: seq<Row>, now: int, later: int)
    requires now <= later
    ensures Live(Live(rows, now), later) == Live(rows, later)
  {
    if rows != [] {
      var front, last := rows[..|rows| - 1], rows[|rows| - 1];
      LiveLive(front, now, later);
      LiveSnoc(Live(front, now), last, later);
      assert Live(front, now) + [] == Live(front, now) && Live(front, later) + [] == Live(front, later);
    }
  }

  lemma {:induction false} ListingShrinks(rows: seq<Row>, tag: Tag, now: int, later: int)
    requires now <= later
    ensures |Listing(rows, tag, later)| <= |Listing(rows, tag, now)|
  {
    if rows != [] {
      var front, last := rows[..|rows| - 1], rows[|rows| - 1];
      assert front + [last] == rows;
      ListingShrinks(front, tag, now, later);
      ListingSnoc(front, last, tag, now);
      ListingSnoc(front, last, tag, later);
    }
  }

  // ---------- runs ----------

  datatype Op =
    | Putting(tag: Tag, expiresAt: int, ciphertext: seq<nat>, now: int)
    | Fetching(tag: Tag, now: int)
    | Sweeping(now: int)

  datatype Answer = Stored | Refused(error: Error) | Listed(rows: seq<Row>)

  function Step(rows: seq<Row>, lim: Limits, op: Op): seq<Row> {
    match op
    case Putting(tag, e, c, now) => (match Put(rows, lim, tag, e, c, now) case Success(r) => r case Failure(_) => rows)
    case Fetching(_, _) => rows
    case Sweeping(now) => Live(rows, now)
  }

  // What the client sees; the sweeper has none.
  function AnswerTo(rows: seq<Row>, lim: Limits, op: Op): seq<Answer> {
    match op
    case Putting(tag, e, c, now) =>
      (match Put(rows, lim, tag, e, c, now) case Success(_) => [Stored] case Failure(err) => [Refused(err)])
    case Fetching(tag, now) => [Listed(Listing(rows, tag, now))]
    case Sweeping(_) => []
  }

  function Answers(rows: seq<Row>, lim: Limits, ops: seq<Op>): seq<Answer>
    decreases |ops|
  {
    if ops == [] then [] else AnswerTo(rows, lim, ops[0]) + Answers(Step(rows, lim, ops[0]), lim, ops[1..])
  }

  function WithoutSweeps(ops: seq<Op>): seq<Op> {
    if ops == [] then []
    else (if ops[0].Sweeping? then [] else [ops[0]]) + WithoutSweeps(ops[1..])
  }

  predicate Forward(ops: seq<Op>, from: int) {
    ops == [] || (from <= ops[0].now && Forward(ops[1..], ops[0].now))
  }

  lemma SameLive(a: seq<Row>, b: seq<Row>, now: int, later: int)
    requires now <= later && Live(a, now) == Live(b, now)
    ensures Live(a, later) == Live(b, later)
  {
    LiveLive(a, now, later);
    LiveLive(b, now, later);
  }

  // While the clock does not run backwards, no client can tell when, or whether, the table was
  // swept: every store is answered alike and every fetch lists the same blobs.
  lemma {:induction false} SweeperIsUnobservable(a: seq<Row>, b: seq<Row>, lim: Limits, ops: seq<Op>, from: int)
    requires Live(a, from) == Live(b, from) && Forward(ops, from)
    ensures Answers(a, lim, ops) == Answers(b, lim, WithoutSweeps(ops))
    decreases |ops|
  {
    if ops != [] {
      var op, now := ops[0], ops[0].now;
      SameLive(a, b, from, now);
      var next := if op.Sweeping? then b else Step(b, lim, op);
      StepsAgree(a, b, lim, op);
      SweeperIsUnobservable(Step(a, lim, op), next, lim, ops[1..], now);
      if op.Sweeping? {
        assert [] + WithoutSweeps(ops[1..]) == WithoutSweeps(ops[1..]);
      } else {
        assert ([op] + WithoutSweeps(ops[1..]))[1..] == WithoutSweeps(ops[1..]);
      }
    }
  }

  lemma StepsAgree(a: seq<Row>, b: seq<Row>, lim: Limits, op: Op)
    requires Live(a, op.now) == Live(b, op.now)
    ensures AnswerTo(a, lim, op) == if op.Sweeping? then [] else AnswerTo(b, lim, op)
    ensures Live(Step(a, lim, op), op.now) == Live(if op.Sweeping? then b else Step(b, lim, op), op.now)
  {
    match op
    case Putting(tag, e, c, now) =>
      LiveSnoc(a, Row(tag, e, c, now), now);
      LiveSnoc(b, Row(tag, e, c, now), now);
    case Fetching(_, _) =>
    case Sweeping(now) => LiveLive(a, now, now);
  }

  function After(rows: seq<Row>, lim: Limits, ops: seq<Op>): seq<Row>
    decreases |ops|
  {
    if ops == [] then rows else After(Step(rows, lim, ops[0]), lim, ops[1..])
  }

  function LastTime(ops: seq<Op>, from: int): int {
    if ops == [] then from else LastTime(ops[1..], ops[0].now)
  }

  ghost predicate Capped(rows: seq<Row>, lim: Limits, tag: Tag, from: int) {
    |Listing(rows, tag, from)| <= lim.maxBlobsPerTag
  }

  // Stored in order of their time, so that listing them in table order sorts them by it.
  ghost predicate Ordered(rows: seq<Row>, upto: int) {
    rows == [] || (rows[|rows| - 1].storedAt <= upto && Ordered(rows[..|rows| - 1], rows[|rows| - 1].storedAt))
  }

  lemma {:induction false} OrderedUntil(rows: seq<Row>, upto: int, later: int)
    requires Ordered(rows, upto) && upto <= later
    ensures Ordered(rows, later)
  {
  }

  lemma {:induction false} LiveOrdered(rows: seq<Row>, now: int, upto: int)
    requires Ordered(rows, upto)
    ensures Ordered(Live(rows, now), upto)
  {
    if rows != [] {
      var front, last := rows[..|rows| - 1], rows[|rows| - 1];
      LiveOrdered(front, now, last.storedAt);
      OrderedUntil(Live(front, now), last.storedAt, upto);
      assert (Live(front, now) + [last])[..|Live(front, now)|] == Live(front, now)
             && Live(front, now) + [] == Live(front, now);
    }
  }

  lemma StepKeepsCap(rows: seq<Row>, lim: Limits, op: Op, tag: Tag, from: int)
    requires Capped(rows, lim, tag, from) && from <= op.now
    ensures Capped(Step(rows, lim, op), lim, tag, op.now)
  {
    ListingShrinks(rows, tag, from, op.now);
    match op
    case Putting(t, e, c, now) => ListingSnoc(rows, Row(t, e, c, now), tag, now);
    case Fetching(_, _) =>
    case Sweeping(now) => LiveLive(rows, now, now);
  }

  // No mailbox ever holds more live blobs than the cap.
  lemma {:induction false} CapHolds(rows: seq<Row>, lim: Limits, ops: seq<Op>, tag: Tag, from: int)
    requires Capped(rows, lim, tag, from) && Forward(ops, from)
    ensures Capped(After(rows, lim, ops), lim, tag, LastTime(ops, from))
    decreases |ops|
  {
    if ops != [] {
      StepKeepsCap(rows, lim, ops[0], tag, from);
      CapHolds(Step(rows, lim, ops[0]), lim, ops[1..], tag, ops[0].now);
    }
  }

  lemma StepKeepsOrder(rows: seq<Row>, lim: Limits, op: Op, from: int)
    requires Ordered(rows, from) && from <= op.now
    ensures Ordered(Step(rows, lim, op), op.now)
  {
    OrderedUntil(rows, from, op.now);
    match op
    case Putting(t, e, c, now) => assert (rows + [Row(t, e, c, now)])[..|rows|] == rows;
    case Fetching(_, _) =>
    case Sweeping(now) => LiveOrdered(rows, now, now);
  }

  // And the table is always in order of time.
  lemma {:induction false} OrderHolds(rows: seq<Row>, lim: Limits, ops: seq<Op>, from: int)
    requires Ordered(rows, from) && Forward(ops, from)
    ensures Ordered(After(rows, lim, ops), LastTime(ops, from))
    decreases |ops|
  {
    if ops != [] {
      StepKeepsOrder(rows, lim, ops[0], from);
      OrderHolds(Step(rows, lim, ops[0]), lim, ops[1..], ops[0].now);
    }
  }

  // ---------- what a client gets back ----------

  // Taken if and only if the tag has 32 bytes, the ciphertext fits, it is to live, for a day at most,
  // and the mailbox has room; the first of these that fails is reported.
  lemma StoreIsExact(rows: seq<Row>, lim: Limits, tag: Tag, expiresAt: int, ciphertext: seq<nat>, now: int)
    ensures var res := Put(rows, lim, tag, expiresAt, ciphertext, now);
            && (res.Success? <==>
                && |tag| == 32 && |ciphertext| <= lim.maxBlobSize && now < expiresAt <= now + 24 * 60 * 60 * 1000
                && |Listing(rows, tag, now)| < lim.maxBlobsPerTag)
            && (res.Failure? ==>
                  res.error == if |tag| != 32 then BadTagLength
                               else if |ciphertext| > lim.maxBlobSize then TooLarge
                               else if expiresAt <= now then AlreadyExpired
                               else if expiresAt > now + 24 * 60 * 60 * 1000 then TtlTooLong else TagFull)
  {
  }

  lemma {:induction false} InLive(rows: seq<Row>, now: int, r: Row)
    ensures r in Live(rows, now) <==> r in rows && now < r.expiresAt
  {
    if rows != [] {
      var front, last := rows[..|rows| - 1], rows[|rows| - 1];
      assert rows == front + [last];
      InLive(front, now, r);
    }
  }

  lemma {:induction false} InOfTag(rows: seq<Row>, tag: Tag, r: Row)
    ensures r in OfTag(rows, tag) <==> r in rows && r.tag == tag
  {
    if rows != [] {
      var front, last := rows[..|rows| - 1], rows[|rows| - 1];
      assert rows == front + [last];
      InOfTag(front, tag, r);
    }
  }

  // Exactly the rows of the tag that have not run out are listed.
  lemma ListingIsExact(rows: seq<Row>, tag: Tag, now: int, r: Row)
    ensures r in Listing(rows, tag, now) <==> r in rows && r.tag == tag && now < r.expiresAt
  {
    InLive(rows, now, r);
    InOfTag(Live(rows, now), tag, r);
  }

  lemma StepKeepsRow(rows: seq<Row>, lim: Limits, op: Op, r: Row)
    requires r in rows && op.now < r.expiresAt
    ensures r in Step(rows, lim, op)
  {
    InLive(rows, op.now, r);
  }

  lemma {:induction false} RowStays(rows: seq<Row>, lim: Limits, ops: seq<Op>, from: int, r: Row)
    requires r in rows && Forward(ops, from) && LastTime(ops, from) < r.expiresAt
    ensures r in After(rows, lim, ops)
    decreases |ops|
  {
    if ops != [] {
      TimeGoesOn(ops[1..], ops[0].now);
      StepKeepsRow(rows, lim, ops[0], r);
      RowStays(Step(rows, lim, ops[0]), lim, ops[1..], ops[0].now, r);
    }
  }

  lemma {:induction false} TimeGoesOn(ops: seq<Op>, from: int)
    requires Forward(ops, from)
    ensures from <= LastTime(ops, from)
    decreases |ops|
  {
    if ops != [] {
      TimeGoesOn(ops[1..], ops[0].now);
    }
  }

  // What was taken is listed, byte for byte, whatever is asked for and swept in between, up to and not
  // from the time it was to expire.
  lemma StoredIsListed(rows: seq<Row>, lim: Limits, tag: Tag, expiresAt: int, ciphertext: seq<nat>, now: int,
                       ops: seq<Op>, later: int)
    requires Put(rows, lim, tag, expiresAt, ciphertext, now).Success?
    requires Forward(ops, now) && LastTime(ops, now) <= later
    ensures var end := After(Put(rows, lim, tag, expiresAt, ciphertext, now).value, lim, ops);
            Row(tag, expiresAt, ciphertext, now) in Listing(end, tag, later) <==> later < expiresAt
  {
    var r, t := Row(tag, expiresAt, ciphertext, now), Put(rows, lim, tag, expiresAt, ciphertext, now).value;
    ListingIsExact(After(t, lim, ops), tag, later, r);
    if later < expiresAt {
      RowStays(t, lim, ops, now, r);
    }
  }

  // And nothing is listed that was not stored so.
  lemma {:induction false} ListedWasStored(rows: seq<Row>, lim: Limits, ops: seq<Op>, r: Row)
    requires r in After(rows, lim, ops)
    ensures r in rows || Putting(r.tag, r.expiresAt, r.ciphertext, r.storedAt) in ops
    decreases |ops|
  {
    if ops != [] {
      ListedWasStored(Step(rows, lim, ops[0]), lim, ops[1..], r);
      InLive(rows, ops[0].now, r);
    }
  }
}
