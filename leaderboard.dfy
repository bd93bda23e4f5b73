/** The buyer leaderboard both ranking panels compute: count the counted
    tickets per user in a Map (insertion order = order of first appearance),
    sort the entries by count, highest first, with a stable sort, and keep the
    first k. */
module Leaderboard {
  import opened Tickets

  /** One entry of the per-user Map. */
  datatype Buyer = Buyer(userId: string, userName: string, userPhoto: Option<string>, ticketCount: int)

  /** A ticket counts when it is sold and has a non-empty user id and user name. */
  predicate Counts(t: Ticket) {
    t.isSold && Truthy(t.userId) && Truthy(t.userName)
  }

  predicate CountsFor(t: Ticket, uid: string) {
    Counts(t) && t.userId.value == uid
  }

  /** The user ids of the entries, in order. */
  function Users(bs: seq<Buyer>): (r: seq<string>)
    ensures |r| == |bs| && forall i :: 0 <= i < |bs| ==> r[i] == bs[i].userId
  {
    seq(|bs|, i requires 0 <= i < |bs| => bs[i].userId)
  }

  predicate DistinctUsers(bs: seq<Buyer>) {
    forall i, j :: 0 <= i < j < |bs| ==> bs[i].userId != bs[j].userId
  }

  /** Position of the entry for `uid`, or `|bs|` when there is none. */
  function IndexOfUser(bs: seq<Buyer>, uid: string): (i: nat)
    ensures i <= |bs|
    ensures i < |bs| ==> bs[i].userId == uid
    ensures forall j :: 0 <= j < i ==> bs[j].userId != uid
  {
    if bs == [] then 0
    else if bs[0].userId == uid then 0
    else 1 + IndexOfUser(bs[1..], uid)
  }

  /** One ticket's effect on the Map: a counted ticket adds one to its user's
      entry, or inserts a new entry with count one at the end. */
  function Record(bs: seq<Buyer>, t: Ticket): seq<Buyer> {
    if !Counts(t) then bs
    else
      var i := IndexOfUser(bs, t.userId.value);
      if i < |bs| then bs[i := bs[i].(ticketCount := bs[i].ticketCount + 1)]
      else bs + [Buyer(t.userId.value, t.userName.value, t.userPhoto, 1)]
  }

  /** The Map's values after the loop over `ts`, in insertion order. */
  function Tally(ts: seq<Ticket>): seq<Buyer> {
    if ts == [] then [] else Record(Tally(ts[..|ts| - 1]), ts[|ts| - 1])
  }

  /** How many counted tickets `uid` holds. */
  function CountFor(ts: seq<Ticket>, uid: string): nat {
    if ts == [] then 0
    else CountFor(ts[..|ts| - 1], uid) + (if CountsFor(ts[|ts| - 1], uid) then 1 else 0)
  }

  /** How many tickets count at all. */
  function CountedTotal(ts: seq<Ticket>): nat {
    if ts == [] then 0
    else CountedTotal(ts[..|ts| - 1]) + (if Counts(ts[|ts| - 1]) then 1 else 0)
  }

  /** Position of the first counted ticket of `uid`, or `|ts|` when it has none. */
  function FirstTicketOf(ts: seq<Ticket>, uid: string): (r: nat)
    ensures r <= |ts|
    ensures r < |ts| ==> CountsFor(ts[r], uid)
    ensures forall j :: 0 <= j < r ==> !CountsFor(ts[j], uid)
  {
    if ts == [] then 0
    else if CountsFor(ts[0], uid) then 0
    else 1 + FirstTicketOf(ts[1..], uid)
  }

  function Sum(bs: seq<Buyer>): int {
    if bs == [] then 0 else bs[0].ticketCount + Sum(bs[1..])
  }

  // ---------------------------------------------------------------------------
  // Facts about one step of the loop

  lemma FirstTicketSnoc(p: seq<Ticket>, t: Ticket, uid: string)
    ensures FirstTicketOf(p + [t], uid) ==
      if FirstTicketOf(p, uid) < |p| then FirstTicketOf(p, uid)
      else if CountsFor(t, uid) then |p| else |p| + 1
  {
    var ts := p + [t];
    var r := FirstTicketOf(ts, uid);
    var r' := FirstTicketOf(p, uid);
    assert forall j :: 0 <= j < |p| ==> ts[j] == p[j];
    if r' < |p| {
      assert CountsFor(ts[r'], uid);
    } else if CountsFor(t, uid) {
      assert CountsFor(ts[|p|], uid);
    }
  }

  lemma CountForSnoc(p: seq<Ticket>, t: Ticket, uid: string)
    ensures CountFor(p + [t], uid) == CountFor(p, uid) + (if CountsFor(t, uid) then 1 else 0)
    ensures CountedTotal(p + [t]) == CountedTotal(p) + (if Counts(t) then 1 else 0)
  {
    assert (p + [t])[..|p|] == p;
  }

  lemma TallySnoc(p: seq<Ticket>, t: Ticket)
    ensures Tally(p + [t]) == Record(Tally(p), t)
  {
    assert (p + [t])[..|p|] == p;
  }

  /** A user has counted tickets exactly when it has a first counted ticket. */
  lemma {:induction false} CountForPositive(ts: seq<Ticket>, uid: string)
    ensures CountFor(ts, uid) > 0 <==> FirstTicketOf(ts, uid) < |ts|
  {
    if ts != [] {
      var p := ts[..|ts| - 1];
      CountForPositive(p, uid);
      assert p + [ts[|p|]] == ts;
      FirstTicketSnoc(p, ts[|p|], uid);
      CountForSnoc(p, ts[|p|], uid);
    }
  }

  /** A counted ticket of a user already in the Map adds one to that entry. */
  lemma RecordPresent(bs: seq<Buyer>, t: Ticket, k: nat)
    requires DistinctUsers(bs) && Counts(t)
    requires k < |bs| && bs[k].userId == t.userId.value
    ensures Record(bs, t) == bs[k := bs[k].(ticketCount := bs[k].ticketCount + 1)]
  {
  }

  /** A counted ticket of a user not yet in the Map appends a new entry. */
  lemma RecordAbsent(bs: seq<Buyer>, t: Ticket)
    requires Counts(t) && t.userId.value !in Users(bs)
    ensures Record(bs, t) == bs + [Buyer(t.userId.value, t.userName.value, t.userPhoto, 1)]
  {
  }

  /** `index` gives, for every user id in the Map, the position of its entry
      in `values`; together they are a JS Map with its insertion order. */
  ghost predicate Indexes(index: map<string, nat>, values: seq<Buyer>) {
    (forall u :: u in index <==> u in Users(values))
    && (forall u :: u in index ==> index[u] < |values| && values[index[u]].userId == u)
  }

  lemma IncrementKeepsIndex(index: map<string, nat>, values: seq<Buyer>, k: nat)
    requires Indexes(index, values) && k < |values|
    ensures Indexes(index, values[k := values[k].(ticketCount := values[k].ticketCount + 1)])
  {
    assert Users(values[k := values[k].(ticketCount := values[k].ticketCount + 1)]) == Users(values);
  }

  lemma InsertKeepsIndex(index: map<string, nat>, values: seq<Buyer>, b: Buyer)
    requires Indexes(index, values) && b.userId !in index
    ensures Indexes(index[b.userId := |values|], values + [b])
  {
    assert Users(values + [b]) == Users(values) + [b.userId];
  }

  // ---------------------------------------------------------------------------
  // What the Map holds after the loop

  /** The Map has an entry for exactly the users with a counted ticket, and
      no user twice. */
  lemma {:induction false} TallyUsers(ts: seq<Ticket>)
    ensures DistinctUsers(Tally(ts))
    ensures forall uid :: uid in Users(Tally(ts)) <==> FirstTicketOf(ts, uid) < |ts|
  {
    if ts != [] {
      var p, t := ts[..|ts| - 1], ts[|ts| - 1];
      assert p + [t] == ts;
      TallyUsers(p);
      TallySnoc(p, t);
      var T' := Tally(p);
      forall uid ensures uid in Users(Tally(ts)) <==> FirstTicketOf(ts, uid) < |ts| {
        FirstTicketSnoc(p, t, uid);
        if Counts(t) {
          var i := IndexOfUser(T', t.userId.value);
          if i < |T'| {
            assert Users(Tally(ts)) == Users(T');
          } else {
            assert Users(Tally(ts)) == Users(T') + [t.userId.value];
          }
        }
      }
    }
  }

  /** Each entry's count is the number of counted tickets of its user. */
  lemma {:induction false} TallyCounts(ts: seq<Ticket>)
    ensures forall i :: 0 <= i < |Tally(ts)| ==> Tally(ts)[i].ticketCount == CountFor(ts, Tally(ts)[i].userId)
  {
    if ts != [] {
      var p, t := ts[..|ts| - 1], ts[|ts| - 1];
      assert p + [t] == ts;
      TallyCounts(p);
      TallyUsers(p);
      TallySnoc(p, t);
      var T' := Tally(p);
      forall i | 0 <= i < |Tally(ts)| ensures Tally(ts)[i].ticketCount == CountFor(ts, Tally(ts)[i].userId) {
        CountForSnoc(p, t, Tally(ts)[i].userId);
        if Counts(t) && IndexOfUser(T', t.userId.value) == |T'| && i == |T'| {
          FirstTicketSnoc(p, t, t.userId.value);
          CountForPositive(p, t.userId.value);
        }
      }
    }
  }

  /** Each entry's name and photo are those of its user's first counted ticket. */
  lemma {:induction false} TallyFirstTicket(ts: seq<Ticket>)
    ensures forall i :: 0 <= i < |Tally(ts)| ==>
      var f := FirstTicketOf(ts, Tally(ts)[i].userId);
      f < |ts| && Tally(ts)[i].userName == ts[f].userName.value && Tally(ts)[i].userPhoto == ts[f].userPhoto
  {
    if ts != [] {
      var p, t := ts[..|ts| - 1], ts[|ts| - 1];
      assert p + [t] == ts;
      TallyFirstTicket(p);
      TallyUsers(p);
      TallySnoc(p, t);
      var T' := Tally(p);
      forall i | 0 <= i < |Tally(ts)|
        ensures var f := FirstTicketOf(ts, Tally(ts)[i].userId);
          f < |ts| && Tally(ts)[i].userName == ts[f].userName.value && Tally(ts)[i].userPhoto == ts[f].userPhoto
      {
        var u := Tally(ts)[i].userId;
        FirstTicketSnoc(p, t, u);
        if i < |T'| {
          assert u == T'[i].userId;
          assert u in Users(T');
        }
      }
    }
  }

  /** Entries are in the order of their users' first counted tickets. */
  predicate FirstOrdered(bs: seq<Buyer>, ts: seq<Ticket>) {
    forall i, j :: 0 <= i < j < |bs| ==> FirstTicketOf(ts, bs[i].userId) < FirstTicketOf(ts, bs[j].userId)
  }

  /** Recording one more ticket keeps the entries in first-purchase order. */
  lemma RecordOrdered(bs: seq<Buyer>, p: seq<Ticket>, t: Ticket)
    requires FirstOrdered(bs, p)
    requires forall i :: 0 <= i < |bs| ==> FirstTicketOf(p, bs[i].userId) < |p|
    requires Counts(t) && IndexOfUser(bs, t.userId.value) == |bs| ==> FirstTicketOf(p, t.userId.value) == |p|
    ensures FirstOrdered(Record(bs, t), p + [t])
  {
    var ts := p + [t];
    var T := Record(bs, t);
    forall i | 0 <= i < |bs|
      ensures FirstTicketOf(ts, bs[i].userId) == FirstTicketOf(p, bs[i].userId)
    {
      FirstTicketSnoc(p, t, bs[i].userId);
    }
    if Counts(t) {
      var u := t.userId.value;
      if IndexOfUser(bs, u) == |bs| {
        FirstTicketSnoc(p, t, u);
        assert T == bs + [T[|bs|]] && T[|bs|].userId == u;
        forall i, j | 0 <= i < j < |T|
          ensures FirstTicketOf(ts, T[i].userId) < FirstTicketOf(ts, T[j].userId)
        {
          assert T[i] == bs[i];
          if j < |bs| {
            assert T[j] == bs[j];
          }
        }
      } else {
        forall i, j | 0 <= i < j < |T|
          ensures FirstTicketOf(ts, T[i].userId) < FirstTicketOf(ts, T[j].userId)
        {
          assert T[i].userId == bs[i].userId && T[j].userId == bs[j].userId;
        }
      }
    }
  }

  lemma TallyOrderStep(p: seq<Ticket>, t: Ticket)
    requires FirstOrdered(Tally(p), p)
    ensures FirstOrdered(Record(Tally(p), t), p + [t])
  {
    var T' := Tally(p);
    TallyUsers(p);
    forall i | 0 <= i < |T'| ensures FirstTicketOf(p, T'[i].userId) < |p| {
      assert T'[i].userId in Users(T');
    }
    if Counts(t) && IndexOfUser(T', t.userId.value) == |T'| {
      assert t.userId.value !in Users(T');
    }
    RecordOrdered(T', p, t);
  }

  lemma {:induction false} TallyOrder(ts: seq<Ticket>)
    ensures FirstOrdered(Tally(ts), ts)
  {
    if ts != [] {
      var p, t := ts[..|ts| - 1], ts[|ts| - 1];
      assert p + [t] == ts;
      TallyOrder(p);
      TallySnoc(p, t);
      TallyOrderStep(p, t);
    }
  }

  lemma {:induction false} SumAppend(a: seq<Buyer>, b: seq<Buyer>)
    ensures Sum(a + b) == Sum(a) + Sum(b)
  {
    if a != [] {
      SumAppend(a[1..], b);
      assert (a + b)[1..] == a[1..] + b;
    } else {
      assert a + b == b;
    }
  }

  lemma {:induction false} SumUpdate(bs: seq<Buyer>, i: nat, x: Buyer)
    requires i < |bs|
    ensures Sum(bs[i := x]) == Sum(bs) - bs[i].ticketCount + x.ticketCount
  {
    if i > 0 {
      SumUpdate(bs[1..], i - 1, x);
      assert bs[i := x][1..] == bs[1..][i - 1 := x];
    }
  }

  /** The counts add up to the number of counted tickets. */
  lemma {:induction false} TallySum(ts: seq<Ticket>)
    ensures Sum(Tally(ts)) == CountedTotal(ts)
  {
    if ts != [] {
      var p, t := ts[..|ts| - 1], ts[|ts| - 1];
      assert p + [t] == ts;
      TallySum(p);
      TallySnoc(p, t);
      CountForSnoc(p, t, "");
      var T' := Tally(p);
      if Counts(t) {
        var i := IndexOfUser(T', t.userId.value);
        if i < |T'| {
          SumUpdate(T', i, T'[i].(ticketCount := T'[i].ticketCount + 1));
        } else {
          SumAppend(T', [Buyer(t.userId.value, t.userName.value, t.userPhoto, 1)]);
        }
      }
    }
  }

  /** Only sold tickets count. */
  lemma {:induction false} CountedAtMostSold(ts: seq<Ticket>)
    ensures CountedTotal(ts) <= |SoldTickets(ts)|
  {
    if ts != [] {
      CountedAtMostSold(ts[..|ts| - 1]);
    }
  }

  // ---------------------------------------------------------------------------
  // The stable sort by count, highest first

  /** Insert `b` after every entry whose count is at least `b`'s. */
  function Insert(s: seq<Buyer>, b: Buyer): (r: seq<Buyer>)
    ensures |r| == |s| + 1
  {
    if s == [] then [b]
    else if s[0].ticketCount >= b.ticketCount then [s[0]] + Insert(s[1..], b)
    else [b] + s
  }

  /** `.sort((a, b) => b.ticketCount - a.ticketCount)`, a stable sort. */
  function SortByCount(s: seq<Buyer>): (r: seq<Buyer>)
    ensures |r| == |s|
  {
    if s == [] then [] else Insert(SortByCount(s[..|s| - 1]), s[|s| - 1])
  }

  /** Insertion keeps every entry and adds the new one. */
  lemma {:induction false} InsertPermutes(s: seq<Buyer>, b: Buyer)
    ensures multiset(Insert(s, b)) == multiset(s) + multiset{b}
  {
    if s != [] && s[0].ticketCount >= b.ticketCount {
      InsertPermutes(s[1..], b);
      assert s == [s[0]] + s[1..];
    }
  }

  /** The sort is a permutation of the entries. */
  lemma {:induction false} SortPermutes(s: seq<Buyer>)
    ensures multiset(SortByCount(s)) == multiset(s)
  {
    if s != [] {
      var p, x := s[..|s| - 1], s[|s| - 1];
      SortPermutes(p);
      InsertPermutes(SortByCount(p), x);
      assert s == p + [x];
    }
  }

  /** `.slice(0, k)` of the sorted entries. */
  function Rank(bs: seq<Buyer>, k: nat): seq<Buyer> {
    var s := SortByCount(bs);
    s[..if k < |s| then k else |s|]
  }

  /** The leaderboard of the first `k` buyers. */
  function Top(ts: seq<Ticket>, k: nat): seq<Buyer> {
    Rank(Tally(ts), k)
  }

  /** `x` ranks before `y`: a higher count, or the same count and an earlier
      first counted ticket. */
  predicate Precedes(x: Buyer, y: Buyer, ts: seq<Ticket>) {
    x.ticketCount > y.ticketCount
    || (x.ticketCount == y.ticketCount && FirstTicketOf(ts, x.userId) < FirstTicketOf(ts, y.userId))
  }

  predicate RankedBy(s: seq<Buyer>, ts: seq<Ticket>) {
    forall i, j :: 0 <= i < j < |s| ==> Precedes(s[i], s[j], ts)
  }

  /** Every entry of `s` first bought before `b`. */
  predicate AllFirstBefore(s: seq<Buyer>, ts: seq<Ticket>, b: Buyer) {
    forall x :: x in s ==> FirstTicketOf(ts, x.userId) < FirstTicketOf(ts, b.userId)
  }

  /** Dropping the head of a ranked sequence leaves it ranked. */
  lemma RankedTail(s: seq<Buyer>, ts: seq<Ticket>)
    requires s != [] && RankedBy(s, ts)
    ensures RankedBy(s[1..], ts)
    ensures forall y :: y in s[1..] ==> Precedes(s[0], y, ts)
  {
    var rest := s[1..];
    forall i, j | 0 <= i < j < |rest| ensures Precedes(rest[i], rest[j], ts) {
      assert rest[i] == s[i + 1] && rest[j] == s[j + 1];
    }
    forall y | y in rest ensures Precedes(s[0], y, ts) {
      var k :| 0 <= k < |rest| && rest[k] == y;
      assert s[k + 1] == y;
    }
  }

  /** An entry that ranks before every entry of a ranked sequence may head it. */
  lemma RankedCons(x: Buyer, s: seq<Buyer>, ts: seq<Ticket>)
    requires RankedBy(s, ts)
    requires forall y :: y in s ==> Precedes(x, y, ts)
    ensures RankedBy([x] + s, ts)
  {
    var r := [x] + s;
    forall i, j | 0 <= i < j < |r| ensures Precedes(r[i], r[j], ts) {
      assert r[j] == s[j - 1];
      if i > 0 {
        assert r[i] == s[i - 1];
      } else {
        assert s[j - 1] in s;
      }
    }
  }

  /** Inserting an entry that first bought after all others keeps the ranking. */
  lemma {:induction false} InsertRanked(s: seq<Buyer>, b: Buyer, ts: seq<Ticket>)
    requires RankedBy(s, ts)
    requires AllFirstBefore(s, ts, b)
    ensures RankedBy(Insert(s, b), ts)
  {
    if s == [] {
      assert Insert(s, b) == [b];
    } else if s[0].ticketCount >= b.ticketCount {
      var rest := s[1..];
      RankedTail(s, ts);
      assert AllFirstBefore(rest, ts, b) by {
        forall x | x in rest ensures FirstTicketOf(ts, x.userId) < FirstTicketOf(ts, b.userId) {
          assert x in s;
        }
      }
      InsertRanked(rest, b, ts);
      InsertPermutes(rest, b);
      var tail := Insert(rest, b);
      forall y | y in tail ensures Precedes(s[0], y, ts) {
        assert y in multiset(tail);
        if y != b {
          assert y in multiset(rest);
        } else {
          assert s[0] in s;
        }
      }
      RankedCons(s[0], tail, ts);
      assert Insert(s, b) == [s[0]] + tail;
    } else {
      RankedTail(s, ts);
      forall y | y in s ensures Precedes(b, y, ts) {
        if y != s[0] {
          assert y in s[1..] by {
            var k :| 0 <= k < |s| && s[k] == y;
            assert k > 0;
            assert s[1..][k - 1] == y;
          }
        }
      }
      RankedCons(b, s, ts);
    }
  }

  /** Every entry of the sorted first `m` entries first bought before entry `m`. */
  lemma SortedPrefixBefore(bs: seq<Buyer>, ts: seq<Ticket>, m: nat)
    requires FirstOrdered(bs, ts) && m < |bs|
    ensures AllFirstBefore(SortByCount(bs[..m]), ts, bs[m])
  {
    SortPermutes(bs[..m]);
    forall x | x in SortByCount(bs[..m]) ensures FirstTicketOf(ts, x.userId) < FirstTicketOf(ts, bs[m].userId) {
      assert x in multiset(bs[..m]);
      var a :| 0 <= a < m && bs[..m][a] == x;
      assert bs[a] == x;
    }
  }

  lemma SortPrefixSnoc(bs: seq<Buyer>, m: nat)
    requires 0 < m <= |bs|
    ensures SortByCount(bs[..m]) == Insert(SortByCount(bs[..m - 1]), bs[m - 1])
  {
    assert bs[..m][..m - 1] == bs[..m - 1];
  }

  /** One insertion step keeps the sorted prefix ranked. */
  lemma SortStepRanked(bs: seq<Buyer>, ts: seq<Ticket>, m: nat)
    requires 0 < m <= |bs|
    requires RankedBy(SortByCount(bs[..m - 1]), ts)
    requires AllFirstBefore(SortByCount(bs[..m - 1]), ts, bs[m - 1])
    ensures RankedBy(SortByCount(bs[..m]), ts)
  {
    InsertRanked(SortByCount(bs[..m - 1]), bs[m - 1], ts);
    SortPrefixSnoc(bs, m);
  }

  /** Sorting entries listed in first-purchase order ranks them by count,
      ties by first purchase. */
  lemma {:induction false} SortPrefixRanked(bs: seq<Buyer>, ts: seq<Ticket>, m: nat)
    requires FirstOrdered(bs, ts) && m <= |bs|
    ensures RankedBy(SortByCount(bs[..m]), ts)
  {
    if m > 0 {
      SortPrefixRanked(bs, ts, m - 1);
      SortedPrefixBefore(bs, ts, m - 1);
      SortStepRanked(bs, ts, m);
    }
  }

  /** The sorted entries rank by count, highest first, and ties keep the
      order of their users' first counted tickets. */
  lemma SortTallyRanked(ts: seq<Ticket>)
    ensures RankedBy(SortByCount(Tally(ts)), ts)
  {
    var T := Tally(ts);
    TallyOrder(ts);
    SortPrefixRanked(T, ts, |T|);
    assert T[..|T|] == T;
  }

  // ---------------------------------------------------------------------------
  // The leaderboard

  /** The leaderboard holds `min(k, buyers)` entries, ranked by count, highest
      first, ties in order of first purchase, and no user twice. */
  lemma TopRanked(ts: seq<Ticket>, k: nat)
    ensures |Top(ts, k)| == if k < |Tally(ts)| then k else |Tally(ts)|
    ensures RankedBy(Top(ts, k), ts)
    ensures forall i, j :: 0 <= i < j < |Top(ts, k)| ==> Top(ts, k)[i].ticketCount >= Top(ts, k)[j].ticketCount
    ensures DistinctUsers(Top(ts, k))
  {
    SortTallyRanked(ts);
    var top := Top(ts, k);
    TallyCounts(ts);
    forall i, j | 0 <= i < j < |top| ensures top[i].userId != top[j].userId {
      assert Precedes(top[i], top[j], ts);
      if top[i].userId == top[j].userId {
        TopEntry(ts, k, top[i]);
        TopEntry(ts, k, top[j]);
      }
    }
  }

  /** Every entry is one of the Map's: its count is its user's number of
      counted tickets (at least one) and its name and photo come from that
      user's first counted ticket. */
  lemma TopEntry(ts: seq<Ticket>, k: nat, b: Buyer)
    requires b in Top(ts, k)
    ensures b in Tally(ts)
    ensures b.ticketCount == CountFor(ts, b.userId) >= 1
    ensures var f := FirstTicketOf(ts, b.userId);
      f < |ts| && b.userName == ts[f].userName.value && b.userPhoto == ts[f].userPhoto
  {
    SortPermutes(Tally(ts));
    assert b in multiset(SortByCount(Tally(ts)));
    TallyCounts(ts);
    TallyFirstTicket(ts);
    TallyUsers(ts);
    var i :| 0 <= i < |Tally(ts)| && Tally(ts)[i] == b;
    assert b.userId in Users(Tally(ts));
    CountForPositive(ts, b.userId);
  }

  /** Every buyer left off the leaderboard ranks after every buyer on it. */
  lemma TopOmitted(ts: seq<Ticket>, k: nat, b: Buyer)
    requires b in Tally(ts) && b !in Top(ts, k)
    ensures forall x :: x in Top(ts, k) ==> Precedes(x, b, ts)
    ensures |Top(ts, k)| == k
  {
    var s := SortByCount(Tally(ts));
    SortTallyRanked(ts);
    SortPermutes(Tally(ts));
    assert b in multiset(s);
    var p :| 0 <= p < |s| && s[p] == b;
    var top := Top(ts, k);
    assert p >= |top|;
    forall x | x in top ensures Precedes(x, b, ts) {
      var i :| 0 <= i < |top| && top[i] == x;
      assert s[i] == x;
    }
  }

  /** A buyer appears in the Map exactly when it holds a counted ticket. */
  lemma TallyMembers(ts: seq<Ticket>, uid: string)
    ensures uid in Users(Tally(ts)) <==> CountFor(ts, uid) > 0
  {
    TallyUsers(ts);
    CountForPositive(ts, uid);
  }

  lemma {:induction false} SumPrefix(s: seq<Buyer>, m: nat)
    requires m <= |s|
    requires forall x :: x in s ==> x.ticketCount >= 0
    ensures Sum(s[..m]) <= Sum(s)
  {
    if m > 0 {
      SumPrefix(s[1..], m - 1);
      assert s[..m][1..] == s[1..][..m - 1];
    } else {
      SumNonNegative(s);
    }
  }

  lemma {:induction false} SumNonNegative(s: seq<Buyer>)
    requires forall x :: x in s ==> x.ticketCount >= 0
    ensures Sum(s) >= 0
  {
    if s != [] {
      SumNonNegative(s[1..]);
    }
  }

  lemma {:induction false} SumInsert(s: seq<Buyer>, b: Buyer)
    ensures Sum(Insert(s, b)) == Sum(s) + b.ticketCount
  {
    if s != [] && s[0].ticketCount >= b.ticketCount {
      SumInsert(s[1..], b);
    }
  }

  lemma {:induction false} SumSort(s: seq<Buyer>)
    ensures Sum(SortByCount(s)) == Sum(s)
  {
    if s != [] {
      var p, x := s[..|s| - 1], s[|s| - 1];
      SumSort(p);
      SumInsert(SortByCount(p), x);
      assert SortByCount(s) == Insert(SortByCount(p), x);
      SumAppend(p, [x]);
      assert Sum([x]) == x.ticketCount;
      assert p + [x] == s;
    }
  }

  /** The leaderboard's counts add up to at most the number of sold tickets. */
  lemma TopSum(ts: seq<Ticket>, k: nat)
    ensures Sum(Top(ts, k)) <= CountedTotal(ts) <= |SoldTickets(ts)|
  {
    var s := SortByCount(Tally(ts));
    TallyCounts(ts);
    SortPermutes(Tally(ts));
    forall x | x in s ensures x.ticketCount >= 0 {
      assert x in multiset(Tally(ts));
    }
    SumPrefix(s, |Top(ts, k)|);
    SumSort(Tally(ts));
    TallySum(ts);
    CountedAtMostSold(ts);
  }

  /** A leaderboard of positive size is empty exactly when no ticket counts. */
  lemma TopEmpty(ts: seq<Ticket>, k: nat)
    requires k > 0
    ensures Top(ts, k) == [] <==> forall i :: 0 <= i < |ts| ==> !Counts(ts[i])
  {
    TallyUsers(ts);
    TopRanked(ts, k);
    if exists i :: 0 <= i < |ts| && Counts(ts[i]) {
      var i :| 0 <= i < |ts| && Counts(ts[i]);
      var uid := ts[i].userId.value;
      assert FirstTicketOf(ts, uid) <= i;
      assert uid in Users(Tally(ts));
    } else if Tally(ts) != [] {
      var uid := Tally(ts)[0].userId;
      assert uid in Users(Tally(ts));
    }
  }
}
