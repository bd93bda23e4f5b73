/** The document store as the checkout sees it: the ticket collection, the
    per-user purchase collections, the two queries the checkout runs, and a
    write batch whose queued writes reach the store only when it commits. */
module TicketStore {
  import opened Tickets

  /** A purchase document, stored at `users/{userId}/purchases/{id}`. */
  datatype Purchase = Purchase(
    id: string,
    raffleId: string,
    userId: string,
    purchaseDate: string,
    numberOfTickets: int,
    totalAmount: int,
    paymentMethod: string,
    paymentStatus: string)

  /** The fields a sale writes onto a ticket document. */
  datatype SaleFields = SaleFields(purchaseId: string, userId: string, userName: string, userPhoto: Option<string>)

  /** One queued batch operation. */
  datatype Write =
    | SetPurchase(ownerId: string, purchase: Purchase)
    | UpdateTicket(ticketId: string, fields: SaleFields)

  /** A ticket after a sale's update has been applied to it. */
  function Sell(t: Ticket, f: SaleFields): (r: Ticket)
    ensures r.id == t.id && r.raffleId == t.raffleId && r.ticketNumber == t.ticketNumber
    ensures r.isSold && r.purchaseId == Some(f.purchaseId) && r.userId == Some(f.userId)
    ensures r.userName == Some(f.userName) && r.userPhoto == f.userPhoto
  {
    t.(isSold := true, purchaseId := Some(f.purchaseId), userId := Some(f.userId),
       userName := Some(f.userName), userPhoto := f.userPhoto)
  }

  /** `batch.update(doc(..., id), f)` applied to the ticket collection. */
  function UpdateById(ts: seq<Ticket>, id: string, f: SaleFields): seq<Ticket> {
    seq(|ts|, i requires 0 <= i < |ts| => if ts[i].id == id then Sell(ts[i], f) else ts[i])
  }

  function ApplyWrite(ts: seq<Ticket>, w: Write): seq<Ticket> {
    match w
    case SetPurchase(_, _) => ts
    case UpdateTicket(id, f) => UpdateById(ts, id, f)
  }

  /** The ticket collection after a batch of writes, applied in order. */
  function ApplyTickets(ts: seq<Ticket>, ws: seq<Write>): seq<Ticket>
    decreases |ws|
  {
    if ws == [] then ts else ApplyTickets(ApplyWrite(ts, ws[0]), ws[1..])
  }

  /** The purchase collections after a batch of writes, applied in order. */
  function ApplyPurchases(ps: map<(string, string), Purchase>, ws: seq<Write>): map<(string, string), Purchase>
    decreases |ws|
  {
    if ws == [] then ps
    else
      var next := match ws[0]
        case SetPurchase(owner, p) => ps[(owner, p.id) := p]
        case UpdateTicket(_, _) => ps;
      ApplyPurchases(next, ws[1..])
  }

  /** The store: ticket documents in the order queries return them, and
      purchase documents keyed by (owner, purchase id). */
  class Store {
    var tickets: seq<Ticket>
    var purchases: map<(string, string), Purchase>

    constructor (tickets: seq<Ticket>, purchases: map<(string, string), Purchase>)
      ensures this.tickets == tickets && this.purchases == purchases
    {
      this.tickets := tickets;
      this.purchases := purchases;
    }
  }

  /** `writeBatch(firestore)`: writes are queued and applied together at commit. */
  class WriteBatch {
    var pending: seq<Write>

    constructor ()
      ensures pending == []
    {
      pending := [];
    }

    method Set(ownerId: string, p: Purchase)
      modifies this
      ensures pending == old(pending) + [SetPurchase(ownerId, p)]
    {
      pending := pending + [SetPurchase(ownerId, p)];
    }

    method Update(ticketId: string, f: SaleFields)
      modifies this
      ensures pending == old(pending) + [UpdateTicket(ticketId, f)]
    {
      pending := pending + [UpdateTicket(ticketId, f)];
    }

    /** All queued writes reach the store in one step. */
    method Commit(store: Store)
      modifies store
      ensures store.tickets == ApplyTickets(old(store.tickets), pending)
      ensures store.purchases == ApplyPurchases(old(store.purchases), pending)
    {
      store.tickets, store.purchases := ApplyTickets(store.tickets, pending), ApplyPurchases(store.purchases, pending);
    }
  }

  /** A ticket of the main raffle that is not sold. */
  predicate Available(t: Ticket) {
    t.raffleId == MainRaffle && !t.isSold
  }

  /** The query `raffleId == "main-raffle" && isSold == false`, in store order. */
  function UnsoldQuery(ts: seq<Ticket>): (r: seq<Ticket>)
    ensures |r| <= |ts|
    ensures forall t :: t in r <==> t in ts && Available(t)
  {
    if ts == [] then []
    else
      assert ts == [ts[0]] + ts[1..];
      (if Available(ts[0]) then [ts[0]] else []) + UnsoldQuery(ts[1..])
  }

  /** The query keeps store order: over two stretches of the store it gives
      the first stretch's results, then the second's. */
  lemma {:induction false} UnsoldQueryAppend(a: seq<Ticket>, b: seq<Ticket>)
    ensures UnsoldQuery(a + b) == UnsoldQuery(a) + UnsoldQuery(b)
  {
    if a == [] {
      assert a + b == b;
    } else {
      var ab := a + b;
      var head := if Available(a[0]) then [a[0]] else [];
      assert ab[0] == a[0] && ab[1..] == a[1..] + b;
      assert UnsoldQuery(ab) == head + UnsoldQuery(a[1..] + b);
      UnsoldQueryAppend(a[1..], b);
      assert UnsoldQuery(a) == head + UnsoldQuery(a[1..]);
    }
  }

  /** The first results of the query are the unsold tickets of any leading
      stretch of the store, in store order. */
  lemma UnsoldQueryPrefix(ts: seq<Ticket>, j: nat)
    requires j <= |ts|
    ensures |UnsoldQuery(ts[..j])| <= |UnsoldQuery(ts)|
    ensures UnsoldQuery(ts)[..|UnsoldQuery(ts[..j])|] == UnsoldQuery(ts[..j])
  {
    UnsoldQueryAppend(ts[..j], ts[j..]);
    assert ts[..j] + ts[j..] == ts;
  }

  /** The query that adds `ticketNumber == n` to the unsold query. */
  function NumberQuery(ts: seq<Ticket>, n: int): (r: seq<Ticket>)
    ensures |r| <= |ts|
    ensures forall t :: t in r <==> t in ts && Available(t) && t.ticketNumber == n
  {
    if ts == [] then []
    else
      assert ts == [ts[0]] + ts[1..];
      (if Available(ts[0]) && ts[0].ticketNumber == n then [ts[0]] else []) + NumberQuery(ts[1..], n)
  }

  /** The first result of the number query is the first matching ticket in store order. */
  lemma {:induction false} NumberQueryFirst(ts: seq<Ticket>, n: int)
    requires NumberQuery(ts, n) != []
    ensures exists j :: 0 <= j < |ts| && ts[j] == NumberQuery(ts, n)[0]
              && (forall k :: 0 <= k < j ==> !(Available(ts[k]) && ts[k].ticketNumber == n))
  {
    if Available(ts[0]) && ts[0].ticketNumber == n {
      assert ts[0] == NumberQuery(ts, n)[0];
    } else {
      NumberQueryFirst(ts[1..], n);
      var j :| 0 <= j < |ts[1..]| && ts[1..][j] == NumberQuery(ts[1..], n)[0]
                && (forall k :: 0 <= k < j ==> !(Available(ts[1..][k]) && ts[1..][k].ticketNumber == n));
      assert ts[j + 1] == NumberQuery(ts, n)[0];
      forall k | 0 <= k < j + 1 ensures !(Available(ts[k]) && ts[k].ticketNumber == n) {
        if k > 0 {
          assert ts[k] == ts[1..][k - 1];
        }
      }
    }
  }

  /** Document ids are unique within the collection. */
  predicate UniqueIds(ts: seq<Ticket>) {
    forall i, j :: 0 <= i < j < |ts| ==> ts[i].id != ts[j].id
  }

  function IdsOf(ts: seq<Ticket>): set<string> {
    set t | t in ts :: t.id
  }

  /** Every ticket whose id is in `ids` is sold with `f`; every other ticket is unchanged. */
  function MarkSold(ts: seq<Ticket>, ids: set<string>, f: SaleFields): seq<Ticket> {
    seq(|ts|, i requires 0 <= i < |ts| => if ts[i].id in ids then Sell(ts[i], f) else ts[i])
  }

  /** The updates a sale queues, one per selected ticket, in selection order. */
  function TicketUpdates(sel: seq<Ticket>, f: SaleFields): seq<Write> {
    seq(|sel|, k requires 0 <= k < |sel| => UpdateTicket(sel[k].id, f))
  }

  /** The writes a sale commits: the purchase, then the ticket updates. */
  function SaleWrites(ownerId: string, p: Purchase, sel: seq<Ticket>, f: SaleFields): seq<Write> {
    [SetPurchase(ownerId, p)] + TicketUpdates(sel, f)
  }

  lemma UpdateThenMark(ts: seq<Ticket>, id: string, ids: set<string>, f: SaleFields)
    ensures MarkSold(UpdateById(ts, id, f), ids, f) == MarkSold(ts, ids + {id}, f)
  {
  }

  lemma IdsOfCons(sel: seq<Ticket>)
    requires sel != []
    ensures IdsOf(sel) == IdsOf(sel[1..]) + {sel[0].id}
  {
    assert sel == [sel[0]] + sel[1..];
  }

  lemma {:induction false} UpdatesMarkSold(ts: seq<Ticket>, sel: seq<Ticket>, f: SaleFields)
    ensures ApplyTickets(ts, TicketUpdates(sel, f)) == MarkSold(ts, IdsOf(sel), f)
    decreases |sel|
  {
    if sel == [] {
      assert MarkSold(ts, {}, f) == ts;
    } else {
      var ws := TicketUpdates(sel, f);
      assert ws[1..] == TicketUpdates(sel[1..], f);
      assert ApplyTickets(ts, ws) == ApplyTickets(UpdateById(ts, sel[0].id, f), ws[1..]);
      UpdatesMarkSold(UpdateById(ts, sel[0].id, f), sel[1..], f);
      UpdateThenMark(ts, sel[0].id, IdsOf(sel[1..]), f);
      IdsOfCons(sel);
    }
  }

  lemma {:induction false} UpdatesKeepPurchases(ps: map<(string, string), Purchase>, sel: seq<Ticket>, f: SaleFields)
    ensures ApplyPurchases(ps, TicketUpdates(sel, f)) == ps
    decreases |sel|
  {
    if sel != [] {
      assert TicketUpdates(sel, f)[1..] == TicketUpdates(sel[1..], f);
      UpdatesKeepPurchases(ps, sel[1..], f);
    }
  }

  /** Committing a sale's batch creates exactly the purchase document and sells
      exactly the tickets whose ids were selected; nothing else changes. */
  lemma CommitSale(ts: seq<Ticket>, ps: map<(string, string), Purchase>, ownerId: string, p: Purchase, sel: seq<Ticket>, f: SaleFields)
    ensures ApplyTickets(ts, SaleWrites(ownerId, p, sel, f)) == MarkSold(ts, IdsOf(sel), f)
    ensures ApplyPurchases(ps, SaleWrites(ownerId, p, sel, f)) == ps[(ownerId, p.id) := p]
  {
    var ws := SaleWrites(ownerId, p, sel, f);
    assert ws[1..] == TicketUpdates(sel, f);
    UpdatesMarkSold(ts, sel, f);
    UpdatesKeepPurchases(ps[(ownerId, p.id) := p], sel, f);
  }

  /** Positions of the tickets whose id is in `ids`. */
  ghost function PositionsOf(ts: seq<Ticket>, ids: set<string>): set<int> {
    set i | 0 <= i < |ts| && ts[i].id in ids
  }

  /** Removing one present id removes exactly its one position. */
  lemma PositionsRemove(ts: seq<Ticket>, ids: set<string>, x: string, i: int)
    requires UniqueIds(ts) && x in ids && 0 <= i < |ts| && ts[i].id == x
    ensures i !in PositionsOf(ts, ids - {x})
    ensures PositionsOf(ts, ids) == PositionsOf(ts, ids - {x}) + {i}
  {
    var rest := PositionsOf(ts, ids - {x});
    forall j ensures j in PositionsOf(ts, ids) <==> j in rest + {i} {
    }
  }

  /** With unique ids, each id present in the collection names exactly one position. */
  lemma {:induction false} PositionsCount(ts: seq<Ticket>, ids: set<string>)
    requires UniqueIds(ts)
    requires forall id :: id in ids ==> exists i :: 0 <= i < |ts| && ts[i].id == id
    ensures |PositionsOf(ts, ids)| == |ids|
    decreases ids
  {
    if ids == {} {
      assert PositionsOf(ts, ids) == {};
    } else {
      var x :| x in ids;
      var i :| 0 <= i < |ts| && ts[i].id == x;
      PositionsCount(ts, ids - {x});
      PositionsRemove(ts, ids, x, i);
    }
  }

  /** A sale of available tickets with distinct ids raises the number of sold
      tickets by exactly the number of ids sold. */
  lemma SaleSoldCount(ts: seq<Ticket>, ids: set<string>, f: SaleFields)
    requires UniqueIds(ts)
    requires forall id :: id in ids ==> exists i :: 0 <= i < |ts| && ts[i].id == id && !ts[i].isSold
    ensures |SoldIndices(MarkSold(ts, ids, f))| == |SoldIndices(ts)| + |ids|
  {
    var after := MarkSold(ts, ids, f);
    var hit := PositionsOf(ts, ids);
    PositionsCount(ts, ids);
    assert SoldIndices(after) == SoldIndices(ts) + hit;
    assert SoldIndices(ts) !! hit by {
      forall i | i in hit ensures i !in SoldIndices(ts) {
        var j :| 0 <= j < |ts| && ts[j].id == ts[i].id && !ts[j].isSold;
      }
    }
  }

  /** Distinct ids in a list give a set of ids of the same size. */
  lemma {:induction false} IdsOfUnique(sel: seq<Ticket>)
    requires UniqueIds(sel)
    ensures |IdsOf(sel)| == |sel|
  {
    if sel != [] {
      IdsOfUnique(sel[1..]);
      assert sel == [sel[0]] + sel[1..];
      assert IdsOf(sel) == IdsOf(sel[1..]) + {sel[0].id};
      assert sel[0].id !in IdsOf(sel[1..]);
    }
  }

  /** The unsold query keeps the collection's ids unique. */
  lemma {:induction false} UnsoldQueryUnique(ts: seq<Ticket>)
    requires UniqueIds(ts)
    ensures UniqueIds(UnsoldQuery(ts))
  {
    if ts != [] {
      UnsoldQueryUnique(ts[1..]);
      var rest := UnsoldQuery(ts[1..]);
      forall t | t in rest ensures t.id != ts[0].id {
        var j :| 0 <= j < |ts[1..]| && ts[1..][j] == t;
        assert ts[j + 1] == t;
      }
    }
  }
}
