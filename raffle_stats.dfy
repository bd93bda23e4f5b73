/** The home page's sold/available statistics. */
module RaffleStats {
  import opened Tickets

  datatype Stats = Stats(soldCount: int, availableCount: int, soldNumbers: set<int>)

  /** The statistics memo; `tickets` is `None` until the subscription has data.
      The percentage (a floating-point value) is not part of the model. */
  function ComputeStats(tickets: Option<seq<Ticket>>): (s: Stats)
    ensures s.soldCount + s.availableCount == TotalNumbers
    ensures tickets.None? ==> s == Stats(0, TotalNumbers, {})
    ensures tickets.Some? ==>
      forall n :: n in s.soldNumbers <==>
        exists i :: 0 <= i < |tickets.value| && tickets.value[i].isSold && tickets.value[i].ticketNumber == n
  {
    match tickets
    case None => Stats(0, TotalNumbers, {})
    case Some(ts) =>
      var sold := SoldTickets(ts);
      Stats(|sold|, TotalNumbers - |sold|, SoldNumbers(ts))
  }

  /** `soldCount` is the number of positions holding a sold ticket. */
  lemma SoldCountIsSoldTickets(ts: seq<Ticket>)
    ensures ComputeStats(Some(ts)).soldCount == |SoldIndices(ts)|
    ensures ComputeStats(Some(ts)).availableCount == TotalNumbers - |SoldIndices(ts)|
  {
    SoldTicketsLength(ts);
  }

  /** Positions of the unsold tickets. */
  ghost function UnsoldIndices(ts: seq<Ticket>): set<int> {
    set i | 0 <= i < |ts| && !ts[i].isSold
  }

  /** When the collection holds exactly one ticket per raffle number, the
      available count is the number of unsold tickets. */
  lemma AvailableIsUnsold(ts: seq<Ticket>)
    requires |ts| == TotalNumbers
    ensures ComputeStats(Some(ts)).availableCount == |UnsoldIndices(ts)|
  {
    SoldTicketsLength(ts);
    SoldUnsoldPartition(ts);
  }

  /** Every position is either sold or unsold. */
  lemma {:induction false} SoldUnsoldPartition(ts: seq<Ticket>)
    ensures |SoldIndices(ts)| + |UnsoldIndices(ts)| == |ts|
  {
    if ts != [] {
      var p := ts[..|ts| - 1];
      SoldUnsoldPartition(p);
      SoldIndicesSnoc(p, ts[|p|]);
      assert p + [ts[|p|]] == ts;
      var extra: set<int> := if ts[|p|].isSold then {} else {|p|};
      assert UnsoldIndices(ts) == UnsoldIndices(p) + extra by {
        forall i | 0 <= i < |p| ensures ts[i] == p[i] { }
      }
      assert |p| !in UnsoldIndices(p);
    }
  }
}
