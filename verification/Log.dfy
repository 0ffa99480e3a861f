/** What one side has sent, slot i holding sequence number i + 1, and where each message
    sits in the key schedule. */
module Log {
  import opened Crypto
  import opened Message

  datatype Position =
    | At(epoch: nat, n: nat)    // message n under key `epoch` of the schedule
    | Borrowed(key: KeyId)      // a receipt under a key that was generated and given back

  // A hole is a sequence number spent by a receipt that was lost to a crash.
  datatype Slot = Hole | Sent(payload: Payload, at: Position)

  // Where the sender stands: the next message number in its epoch, how many profile and
  // presence messages followed the last text there, how many of those came before the latest
  // message, and how many there are in the epoch.
  datatype Cursor = Cursor(epoch: nat, n: nat, sinceText: nat, probed: nat, auxiliary: nat, begun: bool)

  function Enter(c: Cursor, epoch: nat): Cursor {
    if epoch == c.epoch then c.(begun := true) else Cursor(epoch, 0, 0, 0, 0, true)
  }

  function Next(c: Cursor, s: Slot): Cursor {
    if s.Hole? || s.at.Borrowed? then c else
    var d := Enter(c, s.at.epoch);
    match s.payload.box.plaintext.kind
    case Receipt(_) => d.(probed := d.sinceText)
    case Text(_) => d.(n := d.n + 1, sinceText := 0, probed := 0)
    case _ => d.(n := d.n + 1, sinceText := d.sinceText + 1, probed := d.sinceText, auxiliary := d.auxiliary + 1)
  }

  function CursorAfter(first: nat, log: seq<Slot>): Cursor {
    if log == [] then Cursor(first, 0, 0, 0, 0, false)
    else Next(CursorAfter(first, log[..|log| - 1]), log[|log| - 1])
  }

  // A message continues its epoch or opens the sender's next one; keys are borrowed only
  // before the first epoch begins.
  predicate Fits(c: Cursor, s: Slot) {
    match s
    case Hole => true
    case Sent(_, Borrowed(_)) => !c.begun
    case Sent(_, At(j, n)) => (j == c.epoch && n == c.n) || (j == c.epoch + 2 && n == 0)
  }

  ghost predicate FitsAt(first: nat, log: seq<Slot>, k: nat)
    requires k < |log|
  {
    Fits(CursorAfter(first, log[..k]), log[k])
  }

  ghost predicate InOrder(first: nat, log: seq<Slot>) {
    forall k: nat | k < |log| :: FitsAt(first, log, k)
  }

  lemma AppendInOrder(first: nat, log: seq<Slot>, s: Slot)
    requires InOrder(first, log) && Fits(CursorAfter(first, log), s)
    ensures InOrder(first, log + [s])
    ensures CursorAfter(first, log + [s]) == Next(CursorAfter(first, log), s)
    ensures forall k | 0 <= k <= |log| :: (log + [s])[..k] == log[..k]
  {
    var ext := log + [s];
    assert forall k | 0 <= k <= |log| :: ext[..k] == log[..k];
    assert log[..|log|] == log && ext[..|ext| - 1] == log;
    forall k: nat | k < |ext| ensures FitsAt(first, ext, k) {
      assert k < |log| ==> FitsAt(first, log, k);
    }
  }

  lemma CursorStep(first: nat, log: seq<Slot>, k: nat)
    requires k < |log|
    ensures CursorAfter(first, log[..k + 1]) == Next(CursorAfter(first, log[..k]), log[k])
  {
    assert log[..k + 1][..k] == log[..k];
  }

  // The cursor never falls behind an epoch in which something was sent.
  lemma {:induction false} CursorReaches(first: nat, log: seq<Slot>, i: nat)
    requires InOrder(first, log) && i < |log| && log[i].Sent? && log[i].at.At?
    ensures CursorAfter(first, log).epoch >= log[i].at.epoch
    decreases |log|
  {
    var front := log[..|log| - 1];
    forall k: nat | k < |front| ensures FitsAt(first, front, k) {
      assert FitsAt(first, log, k) && front[..k] == log[..k];
    }
    assert FitsAt(first, log, |log| - 1);
    if i < |front| {
      CursorReaches(first, front, i);
    }
  }

  predicate NotBefore(c: Cursor, d: Cursor) {
    c.epoch <= d.epoch && (c.epoch == d.epoch ==> c.n <= d.n) && (c.begun ==> d.begun)
  }

  lemma {:induction false} CursorAdvances(first: nat, log: seq<Slot>, k: nat, i: nat)
    requires InOrder(first, log) && k <= i <= |log|
    ensures NotBefore(CursorAfter(first, log[..k]), CursorAfter(first, log[..i]))
  {
    if k < i {
      CursorAdvances(first, log, k, i - 1);
      CursorStep(first, log, i - 1);
      assert FitsAt(first, log, i - 1);
    }
  }

  // The receiver's backlog at a slot: the positions it must pass over.
  function Backlog(c: Cursor, s: Slot): nat
    requires s.Sent?
  {
    if s.at.At? && s.at.epoch == c.epoch then c.sinceText else 0
  }
}
