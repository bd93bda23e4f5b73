/** The "Top Compradores" panel: the five buyers with the most tickets. */
module TopBuyers {
  import opened Tickets
  import opened Leaderboard

  /** Entries shown on the panel. */
  const TopCount: nat := 5

  /** The `topBuyers` memo. The Map is the pair `index` (user id to position)
      and `values` (entries in insertion order); an increment rewrites the
      entry at the user's position. */
  method ComputeTopBuyers(tickets: seq<Ticket>) returns (topBuyers: seq<Buyer>)
    ensures topBuyers == Top(tickets, TopCount)
    ensures tickets == [] ==> topBuyers == []
  {
    if |tickets| == 0 {
      return [];
    }
    var index: map<string, nat> := map[];
    var values: seq<Buyer> := [];
    for i := 0 to |tickets|
      invariant values == Tally(tickets[..i])
      invariant Indexes(index, values)
    {
      var ticket := tickets[i];
      TallySnoc(tickets[..i], ticket);
      assert tickets[..i + 1] == tickets[..i] + [ticket];
      if ticket.isSold && Truthy(ticket.userId) && Truthy(ticket.userName) {
        var uid := ticket.userId.value;
        if uid in index {
          var k := index[uid];
          TallyUsers(tickets[..i]);
          RecordPresent(values, ticket, k);
          IncrementKeepsIndex(index, values, k);
          values := values[k := values[k].(ticketCount := values[k].ticketCount + 1)];
        } else {
          RecordAbsent(values, ticket);
          InsertKeepsIndex(index, values, Buyer(uid, ticket.userName.value, ticket.userPhoto, 1));
          index := index[uid := |values|];
          values := values + [Buyer(uid, ticket.userName.value, ticket.userPhoto, 1)];
        }
      }
    }
    assert tickets[..|tickets|] == tickets;
    topBuyers := Rank(values, TopCount);
  }

  /** What the panel shows. */
  datatype Panel =
    | FirstBuyerInvitation              // no tickets at all
    | Ranking(entries: seq<Buyer>)      // an empty ranking shows "no buyers yet"

  function TopBuyersPanel(tickets: seq<Ticket>): (p: Panel)
    ensures p.FirstBuyerInvitation? <==> tickets == []
    ensures p.Ranking? ==> p.entries == Top(tickets, TopCount)
  {
    var top := Top(tickets, TopCount);
    if |tickets| == 0 && |top| == 0 then FirstBuyerInvitation else Ranking(top)
  }
}
