/** The durable tables of one contact (yakr_core/store.py). Each function is one committed
    transaction; the class performs it in place, or rolls back and changes nothing. */
module LocalStore {
  import opened Message
  import S = Session

  datatype OutboundRow = OutboundRow(seqNo: nat, body: string, createdAt: int, validUntil: int, payload: Payload)

  datatype InboundRow = InboundRow(inner: InnerMessage, validUntil: int, receivedAt: int)

  datatype Tables = Tables(
    contact: S.Contact,
    outbound: map<MessageId, OutboundRow>,
    inbound: map<nat, InboundRow>,
    receipts: set<MessageId>)

  function PersistContact(t: Tables, c: S.Contact): Tables {
    t.(contact := c)
  }

  function CommitSend(t: Tables, c: S.Contact, p: Payload, body: string, now: int): Tables {
    t.(contact := c,
       outbound := t.outbound[MessageId(p) := OutboundRow(p.box.plaintext.seqNo, body, now, now + MESSAGE_TTL_MS, p)])
  }

  // The contact, the message and the debt of a receipt, all or nothing. A row already there
  // is left alone.
  function CommitReceiveText(t: Tables, c: S.Contact, m: InnerMessage, id: MessageId, now: int): Tables {
    t.(contact := c,
       inbound := if m.seqNo in t.inbound then t.inbound else t.inbound[m.seqNo := InboundRow(m, m.validUntil, now)],
       receipts := t.receipts + {id})
  }

  function MarkDelivered(t: Tables, id: MessageId): Tables {
    t.(outbound := t.outbound - {id})
  }

  function SaveReceipt(t: Tables, id: MessageId): Tables {
    t.(receipts := t.receipts + {id})
  }

  function DeleteReceipt(t: Tables, id: MessageId): Tables {
    t.(receipts := t.receipts - {id})
  }

  predicate InboundDue(row: InboundRow, now: int) {
    row.validUntil <= now || row.receivedAt <= now - MESSAGE_TTL_MS
  }

  predicate OutboundDue(row: OutboundRow, now: int) {
    row.validUntil <= now || row.createdAt <= now - MESSAGE_TTL_MS
  }

  function SweepMessages(t: Tables, now: int): Tables {
    t.(inbound := map s | s in t.inbound && !InboundDue(t.inbound[s], now) :: t.inbound[s])
  }

  function SweepOutbound(t: Tables, now: int): Tables {
    t.(outbound := map id | id in t.outbound && !OutboundDue(t.outbound[id], now) :: t.outbound[id])
  }

  // The database file. `fault` stands for any exception inside the transaction.
  class Store {
    var contact: S.Contact
    var outbound: map<MessageId, OutboundRow>
    var inbound: map<nat, InboundRow>
    var receipts: set<MessageId>

    ghost function Value(): Tables
      reads this
    {
      Tables(contact, outbound, inbound, receipts)
    }

    constructor (c: S.Contact)
      ensures Value() == Tables(c, map[], map[], {})
    {
      contact, outbound, inbound, receipts := c, map[], map[], {};
    }

    method AtomicPersistContact(c: S.Contact, fault: bool) returns (ok: bool)
      modifies this
      ensures ok == !fault
      ensures Value() == if fault then old(Value()) else PersistContact(old(Value()), c)
    {
      var before := contact;
      contact := c;
      if fault {
        contact := before;
      }
      ok := !fault;
    }

    method AtomicCommitSend(c: S.Contact, p: Payload, body: string, now: int, fault: bool) returns (ok: bool)
      modifies this
      ensures ok == !fault
      ensures Value() == if fault then old(Value()) else CommitSend(old(Value()), c, p, body, now)
    {
      var before := contact;
      contact := c;
      if fault {
        contact := before;
        return false;
      }
      outbound := outbound[MessageId(p) := OutboundRow(p.box.plaintext.seqNo, body, now, now + MESSAGE_TTL_MS, p)];
      ok := true;
    }

    // faultAt: 0 for none, 1 before the message row, 2 before the receipt row.
    method AtomicCommitReceiveText(c: S.Contact, m: InnerMessage, id: MessageId, now: int,
                                   faultAt: nat) returns (ok: bool)
      modifies this
      ensures ok == (faultAt !in {1, 2})
      ensures Value() == if ok then CommitReceiveText(old(Value()), c, m, id, now) else old(Value())
    {
      var contactBefore, inboundBefore := contact, inbound;
      contact := c;
      if faultAt == 1 {
        contact := contactBefore;
        return false;
      }
      if m.seqNo !in inbound {
        inbound := inbound[m.seqNo := InboundRow(m, m.validUntil, now)];
      }
      if faultAt == 2 {
        contact, inbound := contactBefore, inboundBefore;
        return false;
      }
      receipts := receipts + {id};
      ok := true;
    }

    method MarkOutboundDelivered(id: MessageId) returns (removed: bool)
      modifies this
      ensures Value() == MarkDelivered(old(Value()), id)
      ensures removed == (id in old(outbound))
    {
      removed := id in outbound;
      outbound := outbound - {id};
    }

    method SavePendingReceipt(id: MessageId)
      modifies this
      ensures Value() == SaveReceipt(old(Value()), id)
    {
      receipts := receipts + {id};
    }

    method DeletePendingReceipt(id: MessageId)
      modifies this
      ensures Value() == DeleteReceipt(old(Value()), id)
    {
      receipts := receipts - {id};
    }

    method SweepExpiredMessages(now: int)
      modifies this
      ensures Value() == SweepMessages(old(Value()), now)
    {
      inbound := map s | s in inbound && !InboundDue(inbound[s], now) :: inbound[s];
    }

    method SweepExpiredOutbound(now: int)
      modifies this
      ensures Value() == SweepOutbound(old(Value()), now)
    {
      outbound := map id | id in outbound && !OutboundDue(outbound[id], now) :: outbound[id];
    }
  }

  // ---------- what the tables hold ----------

  // A committed text is in the outbox under the id of its payload, with its number and body, for a day;
  // the other rows are as they were.
  lemma SentIsKept(t: Tables, c: S.Contact, p: Payload, body: string, now: int)
    ensures var u := CommitSend(t, c, p, body, now);
            && MessageId(p) in u.outbound
            && u.outbound[MessageId(p)] == OutboundRow(p.box.plaintext.seqNo, body, now, now + 24 * 60 * 60 * 1000, p)
            && (forall id | id != MessageId(p) :: id in u.outbound <==> id in t.outbound)
            && (forall id <- t.outbound | id != MessageId(p) :: u.outbound[id] == t.outbound[id])
            && u.contact == c && u.inbound == t.inbound && u.receipts == t.receipts
  {
  }

  // A received text is in the inbox as it was read, unless its number was there before, and is owed a
  // receipt.
  lemma ReceivedIsKept(t: Tables, c: S.Contact, m: InnerMessage, id: MessageId, now: int)
    ensures var u := CommitReceiveText(t, c, m, id, now);
            && m.seqNo in u.inbound && id in u.receipts && u.contact == c && u.outbound == t.outbound
            && u.inbound[m.seqNo] == (if m.seqNo in t.inbound then t.inbound[m.seqNo]
                                      else InboundRow(m, m.validUntil, now))
            && (forall n | n != m.seqNo :: n in u.inbound <==> n in t.inbound)
            && (forall n <- t.inbound :: u.inbound[n] == t.inbound[n])
            && (forall other | other != id :: other in u.receipts <==> other in t.receipts)
  {
  }

  // A receipt takes the row of its own text, and no other.
  lemma DeliveredIsGone(t: Tables, id: MessageId)
    ensures var u := MarkDelivered(t, id);
            && id !in u.outbound && (forall other | other != id :: other in u.outbound <==> other in t.outbound)
            && (forall other <- u.outbound :: u.outbound[other] == t.outbound[other])
            && u.contact == t.contact && u.inbound == t.inbound && u.receipts == t.receipts
  {
  }

  // Sweeping takes exactly the rows whose message has expired or that are a day old.
  lemma SweepsAreExact(t: Tables, now: int)
    ensures var u := SweepOutbound(SweepMessages(t, now), now);
            && (forall n :: n in u.inbound <==>
                            n in t.inbound && now < t.inbound[n].validUntil
                            && now < t.inbound[n].receivedAt + 24 * 60 * 60 * 1000)
            && (forall n <- u.inbound :: u.inbound[n] == t.inbound[n])
            && (forall id :: id in u.outbound <==>
                             id in t.outbound && now < t.outbound[id].validUntil
                             && now < t.outbound[id].createdAt + 24 * 60 * 60 * 1000)
            && (forall id <- u.outbound :: u.outbound[id] == t.outbound[id])
            && u.contact == t.contact && u.receipts == t.receipts
  {
  }

  // What is owed is what was put there and not taken.
  lemma OwedIsExact(t: Tables, id: MessageId, other: MessageId)
    ensures other in SaveReceipt(t, id).receipts <==> other == id || other in t.receipts
    ensures other in DeleteReceipt(t, id).receipts <==> other != id && other in t.receipts
    ensures SaveReceipt(t, id).(receipts := t.receipts) == t && DeleteReceipt(t, id).(receipts := t.receipts) == t
  {
  }
}
