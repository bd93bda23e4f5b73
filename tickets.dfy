/** Ticket records as the storefront's components read them from the
    "raffleTickets" collection, and the derivations several components share. */
module Tickets {

  datatype Option<+T> = None | Some(value: T)

  /** A JavaScript `string | undefined` is truthy when it is present and non-empty. */
  predicate Truthy(s: Option<string>) {
    s.Some? && s.value != ""
  }

  /** One raffle ticket document; optional fields are `None` when undefined. */
  datatype Ticket = Ticket(
    id: string,
    raffleId: string,
    ticketNumber: int,
    isSold: bool,
    purchaseId: Option<string>,
    userId: Option<string>,
    userName: Option<string>,
    userPhoto: Option<string>)

  /** Number of tickets in the raffle. */
  const TotalNumbers: nat := 500

  /** The only raffle the storefront queries. */
  const MainRaffle: string := "main-raffle"

  /** `tickets.filter(t => t.isSold)`: the sold tickets, in input order. */
  function SoldTickets(ts: seq<Ticket>): (r: seq<Ticket>)
    ensures |r| <= |ts|
    ensures forall t :: t in r <==> t in ts && t.isSold
  {
    if ts == [] then []
    else
      var rest := SoldTickets(ts[..|ts| - 1]);
      assert ts == ts[..|ts| - 1] + [ts[|ts| - 1]];
      if ts[|ts| - 1].isSold then rest + [ts[|ts| - 1]] else rest
  }

  /** Positions of the sold tickets: an independent count of them. */
  ghost function SoldIndices(ts: seq<Ticket>): set<int> {
    set i | 0 <= i < |ts| && ts[i].isSold
  }

  /** The filtered list has exactly one entry per sold position. */
  lemma {:induction false} SoldTicketsLength(ts: seq<Ticket>)
    ensures |SoldTickets(ts)| == |SoldIndices(ts)|
  {
    if ts != [] {
      var p := ts[..|ts| - 1];
      SoldTicketsLength(p);
      SoldIndicesSnoc(p, ts[|p|]);
      assert p + [ts[|p|]] == ts;
    }
  }

  lemma SoldIndicesSnoc(p: seq<Ticket>, t: Ticket)
    ensures |SoldIndices(p + [t])| == |SoldIndices(p)| + (if t.isSold then 1 else 0)
  {
    var ts := p + [t];
    var extra: set<int> := if t.isSold then {|p|} else {};
    assert SoldIndices(ts) == SoldIndices(p) + extra by {
      forall i | 0 <= i < |p| ensures ts[i] == p[i] { }
    }
    assert |p| !in SoldIndices(p);
  }

  /** `new Set(tickets.filter(t => t.isSold).map(t => t.ticketNumber))`. */
  function SoldNumbers(ts: seq<Ticket>): (r: set<int>)
    ensures forall n :: n in r <==> exists i :: 0 <= i < |ts| && ts[i].isSold && ts[i].ticketNumber == n
  {
    var r := set t | t in SoldTickets(ts) :: t.ticketNumber;
    assert forall n :: (exists i :: 0 <= i < |ts| && ts[i].isSold && ts[i].ticketNumber == n) ==> n in r by {
      forall n, i | 0 <= i < |ts| && ts[i].isSold && ts[i].ticketNumber == n ensures n in r {
        assert ts[i] in SoldTickets(ts);
      }
    }
    r
  }

  /** `Array.from({ length: n }, (_, i) => i + 1)`: the numbers 1..n in order. */
  function OneTo(n: nat): (r: seq<int>)
    ensures |r| == n
    ensures forall i :: 0 <= i < n ==> r[i] == i + 1
  {
    if n == 0 then [] else OneTo(n - 1) + [n]
  }
}
