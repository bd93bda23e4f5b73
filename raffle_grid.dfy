/** A stand-alone grid of `totalNumbers` numbers, given the sold numbers as a
    list. */
module RaffleGrid {
  import opened Tickets
  import opened Format

  /** `Array.from({ length: totalNumbers }, (_, i) => i + 1)`; a length of
      zero or less gives no numbers. */
  function Numbers(totalNumbers: int): (r: seq<int>)
    ensures |r| == if totalNumbers > 0 then totalNumbers else 0
    ensures forall i :: 0 <= i < |r| ==> r[i] == i + 1
  {
    OneTo(if totalNumbers > 0 then totalNumbers else 0)
  }

  /** One cell: the number, whether it is sold, its text and its aria-label. */
  datatype Cell = Cell(number: int, sold: bool, text: string, ariaLabel: string)

  const SoldSuffix: string := " - Vendido"
  const FreeSuffix: string := " - Disponível"

  /** The cell of `num`: sold when `soldNumbers.includes(num)`; the text is the
      decimal number left-padded with '0' to three characters, and a longer
      number keeps all its digits. */
  function RaffleCell(soldNumbers: seq<int>, num: nat): (c: Cell)
    ensures c.number == num && (c.sold <==> num in soldNumbers)
    ensures AllDigits(c.text) && ParseInt(c.text) == Some(num)
    ensures |c.text| == if num < 1000 then 3 else |DecimalString(num)|
    ensures |c.text| >= |DecimalString(num)| && c.text[|c.text| - |DecimalString(num)|..] == DecimalString(num)
    ensures c.ariaLabel == "Número " + c.text + (if c.sold then SoldSuffix else FreeSuffix)
  {
    var isSold := num in soldNumbers;
    var formattedNum := Label(num);
    Cell(num, isSold, formattedNum,
      if isSold then "Número " + formattedNum + SoldSuffix else "Número " + formattedNum + FreeSuffix)
  }

  /** The rendered grid: one cell per number 1..totalNumbers, in order. */
  function Cells(soldNumbers: seq<int>, totalNumbers: int): (r: seq<Cell>)
    ensures |r| == |Numbers(totalNumbers)|
    ensures forall i :: 0 <= i < |r| ==> r[i].number == i + 1 && (r[i].sold <==> i + 1 in soldNumbers)
  {
    var numbers := Numbers(totalNumbers);
    seq(|numbers|, i requires 0 <= i < |numbers| => RaffleCell(soldNumbers, i + 1))
  }

  /** The aria-label tells the two states apart: it ends in " - Vendido"
      exactly when the cell is sold. */
  lemma AriaLabelTellsSold(soldNumbers: seq<int>, num: nat)
    ensures var c := RaffleCell(soldNumbers, num);
      |c.ariaLabel| >= |SoldSuffix|
      && (c.ariaLabel[|c.ariaLabel| - |SoldSuffix|..] == SoldSuffix <==> c.sold)
  {
    var c := RaffleCell(soldNumbers, num);
    var prefix := "Número " + c.text;
    if !c.sold {
      assert c.ariaLabel == prefix + FreeSuffix;
      assert c.ariaLabel[|c.ariaLabel| - |SoldSuffix|..] == FreeSuffix[|FreeSuffix| - |SoldSuffix|..];
    } else {
      assert c.ariaLabel == prefix + SoldSuffix;
      assert c.ariaLabel[|c.ariaLabel| - |SoldSuffix|..] == SoldSuffix;
    }
  }

  /** Seven shows as "007" and 1234 as "1234". */
  lemma PaddingExamples()
    ensures RaffleCell([], 7).text == "007"
    ensures RaffleCell([], 1234).text == "1234"
  {
    assert DecimalString(7) == "7";
    assert DecimalString(1234) == "1234";
  }
}
