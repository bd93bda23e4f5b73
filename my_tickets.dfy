/** The "Seus Números da Sorte" panel: the signed-in user's tickets, sorted by
    number. */
module MyTickets {
  import opened Tickets

  /** Ordered by ticket number, lowest first. */
  predicate NumberSorted(s: seq<Ticket>) {
    forall i, j :: 0 <= i < j < |s| ==> s[i].ticketNumber <= s[j].ticketNumber
  }

  /** Exchanges the tickets at `j - 1` and `j`. */
  method SwapDown(a: array<Ticket>, j: int)
    requires 0 < j < a.Length
    modifies a
    ensures a[..] == old(a[..])[j - 1 := old(a[j])][j := old(a[j - 1])]
    ensures a[j - 1] == old(a[j]) && a[j] == old(a[j - 1])
    ensures forall k :: 0 <= k < a.Length && k != j - 1 && k != j ==> a[k] == old(a[k])
    ensures multiset(a[..]) == multiset(old(a[..]))
  {
    a[j - 1], a[j] := a[j], a[j - 1];
  }

  /** Moves the ticket at `i` down into the sorted prefix `a[..i]`. */
  method InsertAt(a: array<Ticket>, i: int)
    requires 0 < i < a.Length
    requires forall p, q :: 0 <= p < q < i ==> a[p].ticketNumber <= a[q].ticketNumber
    modifies a
    ensures forall p, q :: 0 <= p < q <= i ==> a[p].ticketNumber <= a[q].ticketNumber
    ensures multiset(a[..]) == multiset(old(a[..]))
    ensures forall k :: i < k < a.Length ==> a[k] == old(a[k])
  {
    var j := i;
    while j > 0 && a[j - 1].ticketNumber > a[j].ticketNumber
      invariant 0 <= j <= i
      invariant forall p, q :: 0 <= p < q <= i && p != j && q != j ==> a[p].ticketNumber <= a[q].ticketNumber
      invariant forall q :: j < q <= i ==> a[j].ticketNumber < a[q].ticketNumber
      invariant multiset(a[..]) == multiset(old(a[..]))
      invariant forall k :: i < k < a.Length ==> a[k] == old(a[k])
    {
      SwapDown(a, j);
      j := j - 1;
    }
  }

  /** `myTickets.sort((a, b) => a.ticketNumber - b.ticketNumber)`: reorders
      the array in place by ticket number, as an insertion sort. */
  method SortByNumber(a: array<Ticket>)
    modifies a
    ensures NumberSorted(a[..])
    ensures multiset(a[..]) == multiset(old(a[..]))
  {
    if a.Length == 0 {
      return;
    }
    for i := 1 to a.Length
      invariant forall p, q :: 0 <= p < q < i ==> a[p].ticketNumber <= a[q].ticketNumber
      invariant multiset(a[..]) == multiset(old(a[..]))
    {
      InsertAt(a, i);
    }
  }

  /** What the panel renders. */
  datatype View =
    | LoadingCard                    // "Carregando seus números..."
    | NothingShown                   // no tickets: the panel renders nothing
    | TicketList(tickets: seq<Ticket>)

  /** The component: `sortedTickets` is the fetched array itself, sorted in
      place (an absent result gives a new empty array), then the loading and
      empty cases are checked before the list is shown. */
  method RenderMyTickets(isLoading: bool, myTickets: Option<array<Ticket>>) returns (view: View, sortedTickets: array<Ticket>)
    modifies if myTickets.Some? then {myTickets.value} else {}
    ensures myTickets.Some? ==> sortedTickets == myTickets.value
    ensures myTickets.None? ==> fresh(sortedTickets) && sortedTickets.Length == 0
    ensures NumberSorted(sortedTickets[..])
    ensures myTickets.Some? ==> multiset(sortedTickets[..]) == multiset(old(myTickets.value[..]))
    ensures view.LoadingCard? <==> isLoading
    ensures view.NothingShown? <==> !isLoading && (myTickets.None? || myTickets.value.Length == 0)
    ensures view.TicketList? ==> view.tickets == sortedTickets[..]
  {
    if myTickets.Some? {
      SortByNumber(myTickets.value);
      sortedTickets := myTickets.value;
    } else {
      sortedTickets := new Ticket[0];
    }
    if isLoading {
      view := LoadingCard;
    } else if myTickets.None? || myTickets.value.Length == 0 {
      view := NothingShown;
    } else {
      view := TicketList(sortedTickets[..]);
    }
  }
}
