/** The "Análise da Preguiça" panel: the free numbers, and a lucky number
    drawn from them with a made-up probability. */
module SlothAnalysis {
  import opened Tickets

  predicate StrictlyAscending(s: seq<int>) {
    forall i, j :: 0 <= i < j < |s| ==> s[i] < s[j]
  }

  /** `s.filter(num => !sold.has(num))`. */
  function Without(s: seq<int>, sold: set<int>): (r: seq<int>)
    ensures |r| <= |s|
    ensures forall n :: n in r <==> n in s && n !in sold
    ensures StrictlyAscending(s) ==> StrictlyAscending(r)
  {
    if s == [] then []
    else
      var p, x := s[..|s| - 1], s[|s| - 1];
      assert s == p + [x];
      var rest := Without(p, sold);
      if x in sold then rest
      else
        assert StrictlyAscending(s) ==> StrictlyAscending(rest + [x]) by {
          if StrictlyAscending(s) {
            assert StrictlyAscending(p);
            var r := rest + [x];
            forall i, j | 0 <= i < j < |r| ensures r[i] < r[j] {
              assert r[i] == rest[i] && r[i] in rest;
              var k :| 0 <= k < |p| && p[k] == r[i];
              if j < |rest| {
                assert r[j] == rest[j];
              }
            }
          }
        }
        rest + [x]
  }

  /** The `availableNumbers` memo: 1..500 without the numbers of sold tickets. */
  function AvailableNumbers(tickets: seq<Ticket>): (r: seq<int>)
    ensures forall n :: n in r <==> 1 <= n <= TotalNumbers && n !in SoldNumbers(tickets)
    ensures StrictlyAscending(r)
  {
    var all := OneTo(TotalNumbers);
    assert forall n :: n in all <==> 1 <= n <= TotalNumbers by {
      forall n | 1 <= n <= TotalNumbers ensures n in all {
        assert all[n - 1] == n;
      }
    }
    Without(all, SoldNumbers(tickets))
  }

  /** The numbers 1..n as a set. */
  function Range(n: nat): set<int> {
    Elements(OneTo(n))
  }

  /** The elements of `s` as a set. */
  function Elements(s: seq<int>): set<int> {
    set x | x in s
  }

  lemma ElementsSnoc(p: seq<int>, x: int)
    ensures Elements(p + [x]) == Elements(p) + {x}
  {
  }

  lemma LastIsNew(s: seq<int>)
    requires StrictlyAscending(s) && s != []
    ensures s[|s| - 1] !in Elements(s[..|s| - 1])
  {
  }

  lemma WithoutSnoc(p: seq<int>, x: int, sold: set<int>)
    ensures Without(p + [x], sold) == if x in sold then Without(p, sold) else Without(p, sold) + [x]
  {
    assert (p + [x])[..|p|] == p;
  }

  lemma SoldElementsSnoc(p: seq<int>, x: int, sold: set<int>)
    requires x !in Elements(p)
    ensures |sold * Elements(p + [x])| == |sold * Elements(p)| + if x in sold then 1 else 0
  {
    ElementsSnoc(p, x);
    if x in sold {
      assert sold * Elements(p + [x]) == sold * Elements(p) + {x};
    } else {
      assert sold * Elements(p + [x]) == sold * Elements(p);
    }
  }

  lemma {:induction false} WithoutLength(s: seq<int>, sold: set<int>)
    requires StrictlyAscending(s)
    ensures |Without(s, sold)| + |sold * Elements(s)| == |s|
  {
    if s != [] {
      var p, x := s[..|s| - 1], s[|s| - 1];
      assert s == p + [x];
      assert StrictlyAscending(p);
      WithoutLength(p, sold);
      LastIsNew(s);
      WithoutSnoc(p, x, sold);
      SoldElementsSnoc(p, x, sold);
    }
  }

  /** There are 500 free numbers less one per distinct sold number in 1..500. */
  lemma AvailableCount(tickets: seq<Ticket>)
    ensures |AvailableNumbers(tickets)| == TotalNumbers - |SoldNumbers(tickets) * Range(TotalNumbers)|
  {
    var all := OneTo(TotalNumbers);
    assert StrictlyAscending(all);
    WithoutLength(all, SoldNumbers(tickets));
  }

  lemma {:induction false} WithoutSameOnS(s: seq<int>, a: set<int>, b: set<int>)
    requires forall x :: x in s ==> (x in a <==> x in b)
    ensures Without(s, a) == Without(s, b)
  {
    if s != [] {
      var p := s[..|s| - 1];
      assert s == p + [s[|s| - 1]];
      WithoutSameOnS(p, a, b);
    }
  }

  /** Only sold numbers in 1..500 matter: two ticket lists with the same such
      numbers give the same free numbers, whatever their unsold tickets. */
  lemma AvailableDependsOnSoldInRange(t1: seq<Ticket>, t2: seq<Ticket>)
    requires SoldNumbers(t1) * Range(TotalNumbers) == SoldNumbers(t2) * Range(TotalNumbers)
    ensures AvailableNumbers(t1) == AvailableNumbers(t2)
  {
    var all := OneTo(TotalNumbers);
    forall x | x in all ensures x in SoldNumbers(t1) <==> x in SoldNumbers(t2) {
      assert x in Range(TotalNumbers);
      assert x in SoldNumbers(t1) * Range(TotalNumbers) <==> x in SoldNumbers(t2) * Range(TotalNumbers);
    }
    WithoutSameOnS(all, SoldNumbers(t1), SoldNumbers(t2));
  }

  /** `Math.floor(Math.random() * len)` for a draw `r` in [0, 1). */
  function DrawIndex(len: nat, r: real): (i: int)
    requires 0.0 <= r < 1.0
    ensures len > 0 ==> 0 <= i < len
    ensures len == 0 ==> i == 0
  {
    assert r * len as real <= len as real;
    assert len > 0 ==> r * len as real < len as real;
    (r * len as real).Floor
  }

  /** `Math.floor(Math.random() * (60 - 40 + 1)) + 40` for a draw `r` in [0, 1). */
  function DrawProbability(r: real): (p: int)
    requires 0.0 <= r < 1.0
    ensures 40 <= p <= 60
  {
    assert r * 21.0 < 21.0;
    (r * (60 - 40 + 1) as real).Floor + 40
  }

  /** The drawn lucky number is a free number of the raffle. */
  lemma LuckyNumberIsFree(tickets: seq<Ticket>, r: real)
    requires 0.0 <= r < 1.0 && |AvailableNumbers(tickets)| > 0
    ensures var n := AvailableNumbers(tickets)[DrawIndex(|AvailableNumbers(tickets)|, r)];
      1 <= n <= TotalNumbers && n !in SoldNumbers(tickets)
  {
    var a := AvailableNumbers(tickets);
    assert a[DrawIndex(|a|, r)] in a;
  }

  /** The panel's state. */
  class SlothPanel {
    var isAnalyzing: bool
    var luckyNumber: Option<int>
    var probability: Option<int>

    constructor()
      ensures !isAnalyzing && luckyNumber == None && probability == None
    {
      isAnalyzing := false;
      luckyNumber := None;
      probability := None;
    }

    /** The synchronous part of `handleAnalyze`. */
    method StartAnalysis()
      modifies this
      ensures isAnalyzing && luckyNumber == None && probability == None
    {
      isAnalyzing := true;
      luckyNumber := None;
      probability := None;
    }

    /** The timer callback, with its two `Math.random()` draws as inputs. */
    method FinishAnalysis(availableNumbers: seq<int>, indexDraw: real, probabilityDraw: real)
      requires 0.0 <= indexDraw < 1.0 && 0.0 <= probabilityDraw < 1.0
      modifies this
      ensures !isAnalyzing
      ensures |availableNumbers| > 0 ==>
        luckyNumber == Some(availableNumbers[DrawIndex(|availableNumbers|, indexDraw)])
        && probability == Some(DrawProbability(probabilityDraw))
      ensures |availableNumbers| == 0 ==>
        luckyNumber == old(luckyNumber) && probability == old(probability)
    {
      if |availableNumbers| > 0 {
        var randomIndex := DrawIndex(|availableNumbers|, indexDraw);
        luckyNumber := Some(availableNumbers[randomIndex]);
        var randomProb := DrawProbability(probabilityDraw);
        probability := Some(randomProb);
      }
      isAnalyzing := false;
    }

    /** A click followed by its timer: the lucky number, when there is one, is
        free, the probability is in 40..60, and with no free number both stay
        empty. */
    method HandleAnalyze(tickets: seq<Ticket>, indexDraw: real, probabilityDraw: real)
      requires 0.0 <= indexDraw < 1.0 && 0.0 <= probabilityDraw < 1.0
      modifies this
      ensures !isAnalyzing
      ensures luckyNumber.Some? <==> |AvailableNumbers(tickets)| > 0
      ensures luckyNumber.Some? ==>
        1 <= luckyNumber.value <= TotalNumbers && luckyNumber.value !in SoldNumbers(tickets)
      ensures probability.Some? <==> luckyNumber.Some?
      ensures probability.Some? ==> 40 <= probability.value <= 60
    {
      var availableNumbers := AvailableNumbers(tickets);
      StartAnalysis();
      FinishAnalysis(availableNumbers, indexDraw, probabilityDraw);
      if |availableNumbers| > 0 {
        LuckyNumberIsFree(tickets, indexDraw);
      }
    }
  }
}
