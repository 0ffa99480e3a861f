/** The fetch loop is made of the delivery events: an uninterrupted drain is one run of them,
    so what holds of every run, crashes included, holds at every point of a fetch. */
module FetchEvents {
  import opened Crypto
  import opened Message
  import opened TwoParty
  import opened LocalStore
  import opened Delivery
  import opened DeliverySteps
  import opened Fetch
  import DeliveryRuns
  import S = Session

  // ---------- runs of one device ----------

  ghost predicate Runs(t: Turn, r: Role, events: seq<Event>)
    decreases |events|
  {
    events == [] || (events[0].role == r && Allowed(t, events[0]) && Runs(Act(t, events[0]), r, events[1..]))
  }

  ghost function After(t: Turn, events: seq<Event>): Turn
    decreases |events|
  {
    if events == [] then t else After(Act(t, events[0]), events[1..])
  }

  lemma {:induction false} RunsAreRuns(w: World, r: Role, events: seq<Event>)
    requires Runs(w.TurnOf(r), r, events)
    ensures DeliveryRuns.Run(w, events) && DeliveryRuns.After(w, events) == w.EndTurn(r, After(w.TurnOf(r), events))
    decreases |events|
  {
    if events != [] {
      var v := Occur(w, events[0]);
      assert v.TurnOf(r) == Act(w.TurnOf(r), events[0]);
      RunsAreRuns(v, r, events[1..]);
    }
  }

  lemma {:induction false} RunsJoin(t: Turn, r: Role, a: seq<Event>, b: seq<Event>)
    requires Runs(t, r, a) && Runs(After(t, a), r, b)
    ensures Runs(t, r, a + b) && After(t, a + b) == After(After(t, a), b)
    decreases |a|
  {
    if a == [] {
      assert a + b == b;
    } else {
      RunsJoin(Act(t, a[0]), r, a[1..], b);
      assert (a + b)[1..] == a[1..] + b;
    }
  }

  // ---------- one blob ----------

  // An idle device with the same tables and the same contact in memory, and no key from m.key on
  // in use.
  ghost predicate InStep(t: Turn, m: Mail) {
    t.device.busy.Idle? && t.device.disk == m.disk && Memory(t.device) == m.contact && m.key >= t.sys.nextKey
  }

  // The events of a receipt: refused by the session, or spent, handed over and closed.
  ghost function ReceiptEvents(r: Role, m: Mail, id: MessageId, env: Env): seq<Event> {
    [ReceiptPersist(r, env.device, env.now, env.now + MESSAGE_TTL_MS, env.now, m.key)] +
    if S.EncryptReceipt(m.disk.contact, ReceiptDraft(id, env), env.now, m.key).Failure? then []
    else [ReceiptHandOff(r, m.tried !in env.refused), ReceiptClose(r)]
  }

  lemma One(t: Turn, r: Role, e: Event)
    requires e.role == r && Allowed(t, e)
    ensures Runs(t, r, [e]) && After(t, [e]) == Act(t, e)
  {
    assert [e][1..] == [];
  }

  lemma Cons(t: Turn, r: Role, e: Event, es: seq<Event>)
    requires e.role == r && Allowed(t, e) && Runs(Act(t, e), r, es)
    ensures Runs(t, r, [e] + es) && After(t, [e] + es) == After(Act(t, e), es)
  {
    One(t, r, e);
    RunsJoin(t, r, [e], es);
  }

  lemma ReceiptCloses(t: Turn, r: Role, m: Mail, id: MessageId, env: Env)
    requires t.device.busy == Owes(id) && t.device.disk == m.disk && JustRead(t.device) && m.key >= t.sys.nextKey
    requires S.EncryptReceipt(m.disk.contact, ReceiptDraft(id, env), env.now, m.key).Success?
    requires t.device.disk.contact == t.sys.Get(r).contact
    ensures var persist := ReceiptPersist(r, env.device, env.now, env.now + MESSAGE_TTL_MS, env.now, m.key);
            var t1 := Act(t, persist);
            var t2 := Act(t1, ReceiptHandOff(r, m.tried !in env.refused));
            && Allowed(t, persist) && Allowed(t1, ReceiptHandOff(r, m.tried !in env.refused))
            && Allowed(t2, ReceiptClose(r))
            && InStep(Act(t2, ReceiptClose(r)), Reread(SendDeliveryReceipt(m, id, env)))
  {
    SealKeepsTable(m.disk.contact, ReceiptDraft(id, env), env.now, m.key);
  }

  lemma ReceiptRuns(t: Turn, r: Role, m: Mail, id: MessageId, env: Env)
    requires t.device.busy == Owes(id) && t.device.disk == m.disk && JustRead(t.device) && m.key >= t.sys.nextKey
    requires t.device.disk.contact == t.sys.Get(r).contact
    ensures Runs(t, r, ReceiptEvents(r, m, id, env))
    ensures InStep(After(t, ReceiptEvents(r, m, id, env)), Reread(SendDeliveryReceipt(m, id, env)))
  {
    var persist := ReceiptPersist(r, env.device, env.now, env.now + MESSAGE_TTL_MS, env.now, m.key);
    var t1 := Act(t, persist);
    if S.EncryptReceipt(m.disk.contact, ReceiptDraft(id, env), env.now, m.key).Success? {
      var handOff := ReceiptHandOff(r, m.tried !in env.refused);
      ReceiptCloses(t, r, m, id, env);
      One(Act(t1, handOff), r, ReceiptClose(r));
      Cons(t1, r, handOff, [ReceiptClose(r)]);
      assert [handOff] + [ReceiptClose(r)] == [handOff, ReceiptClose(r)];
      Cons(t, r, persist, [handOff, ReceiptClose(r)]);
    } else {
      One(t, r, persist);
      assert [persist] + [] == [persist];
    }
  }

  ghost function TakeEvents(r: Role, m: Mail, blob: Blob, env: Env): seq<Event> {
    [Fetch(r, blob, env.now, m.key)] +
    match S.DecryptInbound(m.contact, blob, env.now, m.key)
    case Failure(_) => []
    case Success(cm) =>
      match cm.1.kind
      case Text(_) =>
        ReceiptEvents(r, StoreText(Got(m, cm.1), cm.0, cm.1, blob.payload, env), MessageId(blob.payload), env)
      case Receipt(_) => [SavePosition(r)]
      case _ => []
  }

  lemma TextTakeRuns(t: Turn, r: Role, m: Mail, blob: Blob, env: Env, c: S.Contact, inner: InnerMessage)
    requires InStep(t, m) && OnOffer(t.wire, blob) && m.contact == t.sys.Get(r).contact
    requires S.DecryptInbound(m.contact, blob, env.now, m.key) == Success((c, inner)) && inner.kind.Text?
    ensures Runs(t, r, TakeEvents(r, m, blob, env))
    ensures InStep(After(t, TakeEvents(r, m, blob, env)), Take(m, blob, env).0)
  {
    var fetch, stored := Event.Fetch(r, blob, env.now, m.key), StoreText(Got(m, inner), c, inner, blob.payload, env);
    var answer := ReceiptEvents(r, stored, MessageId(blob.payload), env);
    ReceiveMoves(t.sys, r, blob, env.now, m.key);
    ReceiptRuns(Act(t, fetch), r, stored, MessageId(blob.payload), env);
    Cons(t, r, fetch, answer);
    assert TakeEvents(r, m, blob, env) == [fetch] + answer;
  }

  // A receipt takes its row away before the position is saved.
  lemma ReceiptIsRead(t: Turn, r: Role, m: Mail, blob: Blob, env: Env, c: S.Contact, id: MessageId)
    requires InStep(t, m) && OnOffer(t.wire, blob)
    requires var res := S.DecryptInbound(m.contact, blob, env.now, m.key);
             res.Success? && res.value.0 == c && res.value.1.kind == Receipt(id)
    ensures var fetch := Event.Fetch(r, blob, env.now, m.key);
            && Allowed(t, fetch)
            && Act(t, fetch) == t.(device := t.device.(disk := MarkDelivered(m.disk, id),
                                                       busy := ReceiptRead(c, blob, env.now)))
  {
  }

  lemma PositionIsSaved(t: Turn, r: Role, m: Mail, blob: Blob, env: Env, c: S.Contact, inner: InnerMessage,
                        id: MessageId)
    requires blob.Framed? && t.device.busy == ReceiptRead(c, blob, env.now)
             && t.device.disk == MarkDelivered(m.disk, id)
    requires Apply(t.sys, Receive(r, blob, env.now, t.sys.nextKey)).nextKey <= m.key && inner.kind == Receipt(id)
    ensures Allowed(t, SavePosition(r))
    ensures InStep(Act(t, SavePosition(r)), Settle(Got(m, inner), c, inner, blob.payload, env))
  {
  }

  lemma QuietReceive(sys: System, r: Role, blob: Blob, now: int, k: KeyId)
    requires S.DecryptInbound(sys.Get(r).contact, blob, now, k).Success?
    requires !S.DecryptInbound(sys.Get(r).contact, blob, now, k).value.1.kind.Text?
    ensures Apply(sys, Receive(r, blob, now, sys.nextKey)).nextKey == sys.nextKey
  {
  }

  lemma ReceiptTakeRuns(t: Turn, r: Role, m: Mail, blob: Blob, env: Env)
    requires InStep(t, m) && OnOffer(t.wire, blob) && m.contact == t.sys.Get(r).contact
    requires S.DecryptInbound(m.contact, blob, env.now, m.key).Success?
    requires S.DecryptInbound(m.contact, blob, env.now, m.key).value.1.kind.Receipt?
    ensures Runs(t, r, TakeEvents(r, m, blob, env))
    ensures InStep(After(t, TakeEvents(r, m, blob, env)), Take(m, blob, env).0)
  {
    var fetch := Event.Fetch(r, blob, env.now, m.key);
    var (c, inner) := S.DecryptInbound(m.contact, blob, env.now, m.key).value;
    ReceiptIsRead(t, r, m, blob, env, c, inner.kind.messageId);
    QuietReceive(t.sys, r, blob, env.now, m.key);
    PositionIsSaved(Act(t, fetch), r, m, blob, env, c, inner, inner.kind.messageId);
    One(Act(t, fetch), r, SavePosition(r));
    Cons(t, r, fetch, [SavePosition(r)]);
    assert TakeEvents(r, m, blob, env) == [fetch] + [SavePosition(r)];
  }

  // Turned away, or neither text nor receipt: one event.
  lemma SingleTakeRuns(t: Turn, r: Role, m: Mail, blob: Blob, env: Env)
    requires InStep(t, m) && OnOffer(t.wire, blob) && m.contact == t.sys.Get(r).contact
    requires var res := S.DecryptInbound(m.contact, blob, env.now, m.key);
             res.Success? ==> !res.value.1.kind.Text? && !res.value.1.kind.Receipt?
    ensures Runs(t, r, TakeEvents(r, m, blob, env))
    ensures InStep(After(t, TakeEvents(r, m, blob, env)), Take(m, blob, env).0)
  {
    var fetch := Event.Fetch(r, blob, env.now, m.key);
    One(t, r, fetch);
    if S.DecryptInbound(m.contact, blob, env.now, m.key).Success? {
      ReceiveMoves(t.sys, r, blob, env.now, m.key);
    } else {
      TrialMoves(t.sys, r, blob, env.now, m.key);
    }
    assert TakeEvents(r, m, blob, env) == [fetch];
  }

  // Trying one blob is fetching it, and what follows when it is accepted.
  lemma TakeRuns(t: Turn, r: Role, m: Mail, blob: Blob, env: Env)
    requires InStep(t, m) && OnOffer(t.wire, blob) && m.contact == t.sys.Get(r).contact
    ensures Runs(t, r, TakeEvents(r, m, blob, env))
    ensures InStep(After(t, TakeEvents(r, m, blob, env)), Take(m, blob, env).0)
  {
    var res := S.DecryptInbound(m.contact, blob, env.now, m.key);
    if res.Success? && res.value.1.kind.Text? {
      TextTakeRuns(t, r, m, blob, env, res.value.0, res.value.1);
    } else if res.Success? && res.value.1.kind.Receipt? {
      ReceiptTakeRuns(t, r, m, blob, env);
    } else {
      SingleTakeRuns(t, r, m, blob, env);
    }
  }

  // ---------- the whole drain ----------

  ghost predicate AllOnOffer(wire: set<Payload>, queue: seq<Blob>) {
    forall b <- queue :: OnOffer(wire, b)
  }

  lemma {:induction false} WireGrows(t: Turn, events: seq<Event>)
    ensures t.wire <= After(t, events).wire
    decreases |events|
  {
    if events != [] {
      WireGrows(Act(t, events[0]), events[1..]);
    }
  }

  lemma OffersStay(wire: set<Payload>, more: set<Payload>, queue: seq<Blob>)
    requires wire <= more && AllOnOffer(wire, queue)
    ensures AllOnOffer(more, queue)
  {
    forall b | b in queue ensures OnOffer(more, b) {
      assert OnOffer(wire, b);
    }
  }

  ghost function PassEvents(r: Role, m: Mail, pending: seq<Blob>, env: Env): seq<Event>
    decreases |pending|
  {
    if m.halted || pending == [] then []
    else TakeEvents(r, m, pending[0], env) + PassEvents(r, Take(m, pending[0], env).0, pending[1..], env)
  }

  ghost function DrainEvents(r: Role, m: Mail, pending: seq<Blob>, env: Env): seq<Event>
    decreases |pending|
  {
    if m.halted || pending == [] then [] else
    var s := Pass(m, pending, env);
    PassEvents(r, m, pending, env) + if s.progressed then DrainEvents(r, s.mail, s.still, env) else []
  }

  // A world that satisfies the invariant, with r idle and in step with the mail, and the
  // queue on offer.
  ghost predicate Fetching(w: World, r: Role, m: Mail, queue: seq<Blob>) {
    WorldInv(w) && InStep(w.TurnOf(r), m) && AllOnOffer(w.wire, queue)
  }

  // Events that leave the world so again, for the mail n.
  ghost predicate Serves(w: World, r: Role, events: seq<Event>, n: Mail, queue: seq<Blob>) {
    Runs(w.TurnOf(r), r, events) && Fetching(w.EndTurn(r, After(w.TurnOf(r), events)), r, n, queue)
  }

  lemma Settled(w: World, r: Role)
    requires WorldInv(w) && w.Dev(r).busy.Idle?
    ensures Memory(w.Dev(r)) == w.sys.Get(r).contact
  {
    Look(w, r);
  }

  lemma WorldStays(w: World, r: Role, events: seq<Event>, n: Mail, queue: seq<Blob>)
    requires WorldInv(w) && AllOnOffer(w.wire, queue) && Runs(w.TurnOf(r), r, events)
             && InStep(After(w.TurnOf(r), events), n)
    ensures Serves(w, r, events, n, queue)
  {
    RunsAreRuns(w, r, events);
    DeliveryRuns.RunKeepsWorld(w, events);
    WireGrows(w.TurnOf(r), events);
    OffersStay(w.wire, After(w.TurnOf(r), events).wire, queue);
  }

  lemma TakeServes(w: World, r: Role, m: Mail, blob: Blob, env: Env, queue: seq<Blob>)
    requires Fetching(w, r, m, queue) && blob in queue
    ensures Serves(w, r, TakeEvents(r, m, blob, env), Take(m, blob, env).0, queue)
  {
    Settled(w, r);
    TakeRuns(w.TurnOf(r), r, m, blob, env);
    WorldStays(w, r, TakeEvents(r, m, blob, env), Take(m, blob, env).0, queue);
  }

  lemma ServesThen(w: World, r: Role, a: seq<Event>, n: Mail, b: seq<Event>, o: Mail, queue: seq<Blob>)
    requires Serves(w, r, a, n, queue) && Serves(w.EndTurn(r, After(w.TurnOf(r), a)), r, b, o, queue)
    ensures Serves(w, r, a + b, o, queue)
  {
    RunsJoin(w.TurnOf(r), r, a, b);
  }

  lemma {:induction false} PassServes(w: World, r: Role, m: Mail, pending: seq<Blob>, env: Env, queue: seq<Blob>)
    requires Fetching(w, r, m, queue) && Among(pending, queue)
    ensures Serves(w, r, PassEvents(r, m, pending, env), Pass(m, pending, env).mail, queue)
    decreases |pending|
  {
    if !m.halted && pending != [] {
      var first, n := TakeEvents(r, m, pending[0], env), Take(m, pending[0], env).0;
      TakeServes(w, r, m, pending[0], env, queue);
      PassServes(w.EndTurn(r, After(w.TurnOf(r), first)), r, n, pending[1..], env, queue);
      ServesThen(w, r, first, n, PassEvents(r, n, pending[1..], env), Pass(m, pending, env).mail, queue);
    }
  }

  // A pass, and what follows it if it made progress.
  lemma PassThenServes(w: World, r: Role, m: Mail, pending: seq<Blob>, env: Env, queue: seq<Blob>)
    requires !m.halted && pending != [] && Pass(m, pending, env).progressed
    requires Serves(w, r, PassEvents(r, m, pending, env), Pass(m, pending, env).mail, queue)
    requires var s := Pass(m, pending, env);
             Serves(w.EndTurn(r, After(w.TurnOf(r), PassEvents(r, m, pending, env))), r,
                    DrainEvents(r, s.mail, s.still, env),
                    Drain(s.mail, s.still, env), queue)
    ensures Serves(w, r, DrainEvents(r, m, pending, env), Drain(m, pending, env), queue)
  {
    var s, events := Pass(m, pending, env), PassEvents(r, m, pending, env);
    ServesThen(w, r, events, s.mail, DrainEvents(r, s.mail, s.still, env), Drain(m, pending, env), queue);
  }

  lemma LastPassServes(w: World, r: Role, m: Mail, pending: seq<Blob>, env: Env, queue: seq<Blob>)
    requires !m.halted && pending != [] && !Pass(m, pending, env).progressed
    requires Serves(w, r, PassEvents(r, m, pending, env), Pass(m, pending, env).mail, queue)
    ensures Serves(w, r, DrainEvents(r, m, pending, env), Drain(m, pending, env), queue)
  {
    assert PassEvents(r, m, pending, env) + [] == PassEvents(r, m, pending, env);
  }

  lemma {:induction false} DrainServes(w: World, r: Role, m: Mail, pending: seq<Blob>, env: Env, queue: seq<Blob>)
    requires Fetching(w, r, m, queue) && Among(pending, queue)
    ensures Serves(w, r, DrainEvents(r, m, pending, env), Drain(m, pending, env), queue)
    decreases |pending|
  {
    if !m.halted && pending != [] {
      var s, events := Pass(m, pending, env), PassEvents(r, m, pending, env);
      PassServes(w, r, m, pending, env, queue);
      if s.progressed {
        StillAmong(m, pending, env);
        DrainServes(w.EndTurn(r, After(w.TurnOf(r), events)), r, s.mail, s.still, env, queue);
        PassThenServes(w, r, m, pending, env, queue);
      } else {
        LastPassServes(w, r, m, pending, env, queue);
      }
    }
  }

  lemma ReadInStep(t: Turn, r: Role, m: Mail)
    requires t.device.busy.Idle? && t.device.disk == m.disk && m.key >= t.sys.nextKey
    ensures Allowed(t, Read(r)) && InStep(Act(t, Read(r)), Reread(m)) && Act(t, Read(r)).wire == t.wire
  {
  }

  lemma TurnAfter(w: World, e: Event)
    ensures Occur(w, e).TurnOf(e.role) == Act(w.TurnOf(e.role), e) && Occur(w, e).wire == Act(w.TurnOf(e.role), e).wire
  {
  }

  // A fetch begins by reading the contact, whatever attempts have made of the one in memory.
  lemma FetchBegins(w: World, r: Role, m: Mail, queue: seq<Blob>)
    requires WorldInv(w) && w.Dev(r).busy.Idle? && w.Dev(r).disk == m.disk && m.key >= w.sys.nextKey
    requires AllOnOffer(w.wire, queue)
    ensures Allowed(w.TurnOf(r), Read(r)) && Fetching(Occur(w, Read(r)), r, Reread(m), queue)
  {
    ReadInStep(w.TurnOf(r), r, m);
    TurnAfter(w, Read(r));
    EventKeepsWorld(w, Read(r));
  }

  // A fetch that is not interrupted is a run, and saves what the drain computes.
  lemma DrainIsARun(w: World, r: Role, m: Mail, queue: seq<Blob>, env: Env)
    requires Fetching(w, r, m, queue)
    ensures var events := DrainEvents(r, m, queue, env);
            && DeliveryRuns.Run(w, events)
            && DeliveryRuns.After(w, events).Dev(r).disk == Drain(m, queue, env).disk
            && WorldInv(DeliveryRuns.After(w, events))
  {
    DrainServes(w, r, m, queue, env, queue);
    RunsAreRuns(w, r, DrainEvents(r, m, queue, env));
  }

  lemma {:induction false} RunPrefix(w: World, events: seq<Event>, n: nat)
    requires DeliveryRuns.Run(w, events) && n <= |events|
    ensures DeliveryRuns.Run(w, events[..n])
    decreases n
  {
    if n > 0 {
      RunPrefix(Occur(w, events[0]), events[1..], n - 1);
      assert events[..n][1..] == events[1..][..n - 1];
    }
  }

  lemma CrashIsSafe(w: World, r: Role)
    requires WorldInv(w)
    ensures var v := Occur(w, Crash(r)); WorldInv(v) && v.Dev(r).busy.Idle? && DeliveryRuns.SavedUpToPosition(v, r)
  {
    EventKeepsWorld(w, Crash(r));
    DeliveryRuns.WorldIsSaved(Occur(w, Crash(r)), r);
  }

  // Cut short by a crash at any point, it leaves every text up to the saved position stored
  // and answered or owed, and the invariant ready for the next fetch.
  lemma FetchMayCrashAnywhere(w: World, r: Role, m: Mail, queue: seq<Blob>, env: Env, n: nat)
    requires Fetching(w, r, m, queue) && n <= |DrainEvents(r, m, queue, env)|
    ensures var v := Occur(DeliveryRuns.After(w, DrainEvents(r, m, queue, env)[..n]), Crash(r));
            WorldInv(v) && v.Dev(r).busy.Idle? && DeliveryRuns.SavedUpToPosition(v, r)
  {
    var events := DrainEvents(r, m, queue, env)[..n];
    DrainIsARun(w, r, m, queue, env);
    RunPrefix(w, DrainEvents(r, m, queue, env), n);
    DeliveryRuns.RunKeepsWorld(w, events);
    CrashIsSafe(DeliveryRuns.After(w, events), r);
  }
}
