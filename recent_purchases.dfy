/** The "Ranking de Compradores" panel: the three biggest buyers, each with a
    trophy. */
module RecentPurchases {
  import opened Tickets
  import opened Leaderboard

  /** Entries shown on the panel. */
  const PodiumSize: nat := 3

  /** `tickets.filter(t => t.isSold && t.userId && t.userName)`. */
  function Qualifying(ts: seq<Ticket>): (r: seq<Ticket>)
    ensures |r| <= |ts|
    ensures forall t :: t in r <==> t in ts && Counts(t)
  {
    if ts == [] then []
    else
      var p := Qualifying(ts[..|ts| - 1]);
      var t := ts[|ts| - 1];
      assert forall u :: u in ts <==> u in ts[..|ts| - 1] || u == t by {
        assert ts == ts[..|ts| - 1] + [t];
      }
      if Counts(t) then p + [t] else p
  }

  /** Filtering first does not change the Map: the loop skips exactly the
      tickets the filter removes. */
  lemma {:induction false} TallyQualifying(ts: seq<Ticket>)
    ensures Tally(Qualifying(ts)) == Tally(ts)
  {
    if ts != [] {
      var p, t := ts[..|ts| - 1], ts[|ts| - 1];
      TallyQualifying(p);
      assert p + [t] == ts;
      TallySnoc(p, t);
      if Counts(t) {
        TallySnoc(Qualifying(p), t);
      }
    }
  }

  /** The `topBuyers` memo: the Map is built over the filtered tickets, so
      every step either increments or inserts. */
  method ComputeTopBuyers(tickets: seq<Ticket>) returns (topBuyers: seq<Buyer>)
    ensures topBuyers == Top(tickets, PodiumSize)
    ensures tickets == [] ==> topBuyers == []
  {
    if |tickets| == 0 {
      return [];
    }
    var index: map<string, nat> := map[];
    var values: seq<Buyer> := [];
    var soldTickets := Qualifying(tickets);
    for i := 0 to |soldTickets|
      invariant values == Tally(soldTickets[..i])
      invariant Indexes(index, values)
    {
      var ticket := soldTickets[i];
      assert ticket in soldTickets;
      TallySnoc(soldTickets[..i], ticket);
      assert soldTickets[..i + 1] == soldTickets[..i] + [ticket];
      var uid := ticket.userId.value;
      if uid in index {
        var k := index[uid];
        TallyUsers(soldTickets[..i]);
        RecordPresent(values, ticket, k);
        IncrementKeepsIndex(index, values, k);
        values := values[k := values[k].(ticketCount := values[k].ticketCount + 1)];
      } else {
        RecordAbsent(values, ticket);
        InsertKeepsIndex(index, values, Buyer(uid, ticket.userName.value, ticket.userPhoto, 1));
        index := index[uid := |values|];
        values := values + [Buyer(uid, ticket.userName.value, ticket.userPhoto, 1)];
      }
    }
    assert soldTickets[..|soldTickets|] == soldTickets;
    TallyQualifying(tickets);
    topBuyers := Rank(values, PodiumSize);
  }

  /** The render guard: the panel is hidden when nothing is sold or nobody
      qualifies. */
  function ShowsPanel(tickets: seq<Ticket>): bool {
    var soldTicketsCount := |SoldTickets(tickets)|;
    !(soldTicketsCount == 0 || |Top(tickets, PodiumSize)| == 0)
  }

  /** The panel shows exactly when some sold ticket has a user id and a name. */
  lemma ShowsPanelIff(tickets: seq<Ticket>)
    ensures ShowsPanel(tickets) <==> exists i :: 0 <= i < |tickets| && Counts(tickets[i])
  {
    TopEmpty(tickets, PodiumSize);
    if exists i :: 0 <= i < |tickets| && Counts(tickets[i]) {
      var i :| 0 <= i < |tickets| && Counts(tickets[i]);
      assert tickets[i] in SoldTickets(tickets);
    }
  }

  datatype Trophy = Gold | Silver | Bronze

  /** `getTrophy`: gold, silver and bronze for ranks 0, 1 and 2, none otherwise. */
  function GetTrophy(rank: int): (r: Option<Trophy>)
    ensures r.Some? <==> 0 <= rank < PodiumSize
    ensures rank == 0 ==> r == Some(Gold)
  {
    match rank
    case 0 => Some(Gold)
    case 1 => Some(Silver)
    case 2 => Some(Bronze)
    case _ => None
  }

  /** Every entry of the panel carries its own trophy, gold for the first. */
  lemma EveryEntryHasTrophy(tickets: seq<Ticket>)
    ensures forall i :: 0 <= i < |Top(tickets, PodiumSize)| ==> GetTrophy(i).Some?
    ensures forall i, j :: 0 <= i < j < |Top(tickets, PodiumSize)| ==> GetTrophy(i) != GetTrophy(j)
  {
    TopRanked(tickets, PodiumSize);
  }
}
