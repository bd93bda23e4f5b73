/** The decision the "buy now" button takes before the payment dialog opens. */
module BuyValidation {
  import opened Tickets
  import opened Format
  import opened RaffleStats

  datatype BuyOutcome =
    | OpenPaymentDialog
    | InvalidNumber
    | NumberAlreadySold(typed: string)
    | NotEnoughNumbers(available: int)

  /** The click handler: a chosen number (any non-empty text) must parse to
      1..500 and not be sold; otherwise the quantity must not exceed the
      available count. Only `OpenPaymentDialog` opens the dialog. */
  function HandleBuyClick(chosenNumber: string, ticketQuantity: int, stats: Stats): (r: BuyOutcome)
    ensures chosenNumber != "" ==>
      (r == OpenPaymentDialog <==>
        ParseInt(chosenNumber).Some? && 1 <= ParseInt(chosenNumber).value <= TotalNumbers
        && ParseInt(chosenNumber).value !in stats.soldNumbers)
    ensures chosenNumber == "" ==> (r == OpenPaymentDialog <==> ticketQuantity <= stats.availableCount)
    ensures chosenNumber != "" && (ParseInt(chosenNumber).None? || !(1 <= ParseInt(chosenNumber).value <= TotalNumbers))
            ==> r == InvalidNumber
    ensures chosenNumber != "" && ParseInt(chosenNumber).Some? && 1 <= ParseInt(chosenNumber).value <= TotalNumbers
            && ParseInt(chosenNumber).value in stats.soldNumbers
            ==> r == NumberAlreadySold(PadStart(chosenNumber, 3, '0'))
    ensures chosenNumber == "" && ticketQuantity > stats.availableCount ==> r == NotEnoughNumbers(stats.availableCount)
  {
    if chosenNumber != "" then
      match ParseInt(chosenNumber)
      case None => InvalidNumber
      case Some(num) =>
        if num < 1 || num > 500 then InvalidNumber
        else if num in stats.soldNumbers then NumberAlreadySold(PadStart(chosenNumber, 3, '0'))
        else OpenPaymentDialog
    else if ticketQuantity > stats.availableCount then NotEnoughNumbers(stats.availableCount)
    else OpenPaymentDialog
  }

  /** With a chosen number the quantity plays no part in the decision. */
  lemma ChosenIgnoresQuantity(chosenNumber: string, q1: int, q2: int, stats: Stats)
    requires chosenNumber != ""
    ensures HandleBuyClick(chosenNumber, q1, stats) == HandleBuyClick(chosenNumber, q2, stats)
  {
  }

  /** Typed text that is NaN or parses outside 1..500 is rejected as invalid. */
  lemma ParsedOutOfRange(chosenNumber: string, q: int, stats: Stats)
    requires chosenNumber != ""
    requires ParseInt(chosenNumber).None? || !(1 <= ParseInt(chosenNumber).value <= TotalNumbers)
    ensures HandleBuyClick(chosenNumber, q, stats) == InvalidNumber
  {
  }

  /** Numbers 0 and 501 and non-numeric text are rejected as invalid whatever
      the quantity and the sold set. */
  lemma OutOfRangeIsInvalid(q: int, stats: Stats)
    ensures HandleBuyClick("0", q, stats) == InvalidNumber
    ensures HandleBuyClick("000", q, stats) == InvalidNumber
    ensures HandleBuyClick("501", q, stats) == InvalidNumber
    ensures HandleBuyClick("abc", q, stats) == InvalidNumber
  {
    DigitsParse("0");
    ParsedOutOfRange("0", q, stats);
    DigitsParse("000");
    assert DigitsValue("000") == 0 by {
      assert "000"[..2] == "00";
      assert "00"[..1] == "0";
      assert "0"[..0] == "";
    }
    ParsedOutOfRange("000", q, stats);
    DigitsParse("501");
    assert DigitsValue("501") == 501 by {
      assert "501"[..2] == "50";
      assert "50"[..1] == "5";
      assert "5"[..0] == "";
    }
    ParsedOutOfRange("501", q, stats);
    ParseIntNaN("abc");
    ParsedOutOfRange("abc", q, stats);
  }

  /** A typed number of at least three characters that parses into 1..500 is
      reported as sold, exactly as typed, or opens the dialog. */
  lemma TypedInRange(chosenNumber: string, n: int, q: int, stats: Stats)
    requires |chosenNumber| >= 3 && ParseInt(chosenNumber) == Some(n) && 1 <= n <= TotalNumbers
    ensures HandleBuyClick(chosenNumber, q, stats)
      == if n in stats.soldNumbers then NumberAlreadySold(chosenNumber) else OpenPaymentDialog
  {
    assert PadStart(chosenNumber, 3, '0') == chosenNumber;
  }

  /** Typing the zero-padded label of a free number opens the dialog; typing
      that of a sold one reports it as sold, with the label padded to three. */
  lemma LabelDecision(n: int, q: int, ts: seq<Ticket>)
    requires 1 <= n <= TotalNumbers
    ensures var r := HandleBuyClick(Label(n), q, ComputeStats(Some(ts)));
      (exists i :: 0 <= i < |ts| && ts[i].isSold && ts[i].ticketNumber == n) ==> r == NumberAlreadySold(Label(n))
    ensures var r := HandleBuyClick(Label(n), q, ComputeStats(Some(ts)));
      !(exists i :: 0 <= i < |ts| && ts[i].isSold && ts[i].ticketNumber == n) ==> r == OpenPaymentDialog
  {
    TypedInRange(Label(n), n, q, ComputeStats(Some(ts)));
  }

  /** With no chosen number, the buy goes ahead exactly when the requested
      quantity fits in the numbers not yet sold. */
  lemma QuantityDecision(q: int, ts: seq<Ticket>)
    ensures HandleBuyClick("", q, ComputeStats(Some(ts))) == OpenPaymentDialog
            <==> q + |SoldIndices(ts)| <= TotalNumbers
  {
    SoldCountIsSoldTickets(ts);
  }

  /** Ticket 42 sold, "042" typed: the number is reported as sold. */
  lemma SoldNumberTyped(ts: seq<Ticket>, i: int)
    requires 0 <= i < |ts| && ts[i].isSold && ts[i].ticketNumber == 42
    ensures HandleBuyClick("042", 5, ComputeStats(Some(ts))) == NumberAlreadySold("042")
  {
    DigitsParse("042");
    assert DigitsValue("042") == 42 by {
      assert "042"[..2] == "04";
      assert "04"[..1] == "0";
      assert "0"[..0] == "";
    }
  }
}
