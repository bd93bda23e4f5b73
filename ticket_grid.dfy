/** The home page's grid of the 500 raffle numbers, coloured by the status of
    each number's ticket. */
module TicketGrid {
  import opened Tickets
  import opened Format

  /** `allNumbers`: 1..500 in order. */
  function AllNumbers(): (r: seq<int>)
    ensures |r| == TotalNumbers
    ensures forall i :: 0 <= i < |r| ==> r[i] == i + 1
  {
    OneTo(TotalNumbers)
  }

  /** Position of the last ticket with number `n`, if any. */
  function LastWith(ts: seq<Ticket>, n: int): (r: Option<nat>)
    ensures r.Some? ==> r.value < |ts| && ts[r.value].ticketNumber == n
    ensures r.Some? ==> forall j :: r.value < j < |ts| ==> ts[j].ticketNumber != n
    ensures r.None? <==> forall j :: 0 <= j < |ts| ==> ts[j].ticketNumber != n
  {
    if ts == [] then None
    else if ts[|ts| - 1].ticketNumber == n then Some(|ts| - 1)
    else LastWith(ts[..|ts| - 1], n)
  }

  /** `m` is the `ticketStatusMap` of `ts`: one key per ticket number, mapped
      to the last ticket in input order with that number. */
  ghost predicate IsStatusMapOf(m: map<int, Ticket>, ts: seq<Ticket>) {
    (forall n :: n in m <==> LastWith(ts, n).Some?)
    && (forall n :: n in m ==> m[n] == ts[LastWith(ts, n).value])
  }

  lemma LastWithSnoc(p: seq<Ticket>, t: Ticket, n: int)
    ensures LastWith(p + [t], n) == if t.ticketNumber == n then Some(|p|) else LastWith(p, n)
  {
    assert (p + [t])[..|p|] == p;
  }

  /** The `ticketStatusMap` memo: `map.set(ticket.ticketNumber, ticket)` for
      every ticket in turn, so a later ticket replaces an earlier one. */
  method BuildStatusMap(tickets: seq<Ticket>) returns (m: map<int, Ticket>)
    ensures IsStatusMapOf(m, tickets)
  {
    m := map[];
    for i := 0 to |tickets|
      invariant IsStatusMapOf(m, tickets[..i])
    {
      var ticket := tickets[i];
      assert tickets[..i + 1] == tickets[..i] + [ticket];
      forall n ensures LastWith(tickets[..i + 1], n) ==
        if ticket.ticketNumber == n then Some(i) else LastWith(tickets[..i], n)
      {
        LastWithSnoc(tickets[..i], ticket, n);
      }
      m := m[ticket.ticketNumber := ticket];
    }
    assert tickets[..|tickets|] == tickets;
  }

  /** `ticketStatusMap.get(number)?.isSold || false`. */
  function CellSold(m: map<int, Ticket>, number: int): bool {
    if number in m then m[number].isSold else false
  }

  /** Last write wins: a number shows as sold exactly when its last ticket is
      sold, and a number without a ticket shows as free. */
  lemma CellSoldIsLastTicket(m: map<int, Ticket>, ts: seq<Ticket>, n: int)
    requires IsStatusMapOf(m, ts)
    ensures CellSold(m, n) <==> LastWith(ts, n).Some? && ts[LastWith(ts, n).value].isSold
    ensures (forall j :: 0 <= j < |ts| ==> ts[j].ticketNumber != n) ==> !CellSold(m, n)
  {
  }

  /** No two tickets share a number. */
  predicate UniqueNumbers(ts: seq<Ticket>) {
    forall i, j :: 0 <= i < j < |ts| ==> ts[i].ticketNumber != ts[j].ticketNumber
  }

  /** With one ticket per number the grid agrees with the sold set of the
      statistics. */
  lemma GridAgreesWithSoldNumbers(m: map<int, Ticket>, ts: seq<Ticket>, n: int)
    requires IsStatusMapOf(m, ts) && UniqueNumbers(ts)
    ensures CellSold(m, n) <==> n in SoldNumbers(ts)
  {
    if n in SoldNumbers(ts) {
      var i :| 0 <= i < |ts| && ts[i].isSold && ts[i].ticketNumber == n;
      assert LastWith(ts, n) == Some(i);
    }
  }

  /** While loading: one placeholder per number in `allNumbers.slice(0, 100)`. */
  function Placeholders(): (r: seq<int>)
    ensures |r| == 100
    ensures forall i :: 0 <= i < 100 ==> r[i] == i + 1
  {
    AllNumbers()[..100]
  }

  /** One grid cell: its number, the three-digit text and the tooltip. */
  datatype Cell = Cell(number: int, sold: bool, text: string, title: string)

  /** The cell of `number`: the text is the number padded to three digits,
      which reads back as the number; the tooltip is "Vendido" exactly when
      the number is sold, and otherwise names the number. */
  function GridCell(m: map<int, Ticket>, number: nat): (c: Cell)
    requires number < 1000
    ensures c.number == number && (c.sold <==> CellSold(m, number))
    ensures |c.text| == 3 && AllDigits(c.text) && ParseInt(c.text) == Some(number)
    ensures c.title == "Vendido" <==> c.sold
    ensures !c.sold ==> c.title == "Número " + c.text
  {
    var isSold := CellSold(m, number);
    var text := Label(number);
    Cell(number, isSold, text, if isSold then "Vendido" else "Número " + text)
  }

  /** The grid once loaded: one cell per number 1..500, in order. */
  function Grid(m: map<int, Ticket>): (r: seq<Cell>)
    ensures |r| == TotalNumbers
    ensures forall i :: 0 <= i < |r| ==> r[i].number == i + 1 && (r[i].sold <==> CellSold(m, i + 1))
    ensures forall i :: 0 <= i < |r| ==> |r[i].text| == 3 && ParseInt(r[i].text) == Some(i + 1)
    ensures forall i :: 0 <= i < |r| ==> (r[i].title == "Vendido" <==> r[i].sold)
  {
    var all := AllNumbers();
    seq(|all|, i requires 0 <= i < |all| => GridCell(m, i + 1))
  }
}
