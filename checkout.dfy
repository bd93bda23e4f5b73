/** The home page's checkout: the quantity stepper, the chosen number, the buy
    button and the payment confirmation that sells tickets through a write batch. */
module Checkout {
  import opened Tickets
  import opened Format
  import opened RaffleStats
  import opened BuyValidation
  import opened TicketStore

  /** The signed-in user; display name and photo URL may be absent. */
  datatype User = User(uid: string, displayName: Option<string>, photoURL: Option<string>)

  /** How a payment confirmation ends. */
  datatype PaymentOutcome =
    | SignInStarted                          // no user yet: anonymous sign-in started
    | AuthError                              // no user while authentication is still loading
    | Failed(message: string)                // an error thrown before the commit
    | Paid(purchase: Purchase, boughtNumbers: seq<int>)

  /** Tickets picked for a sale, or the message of the error thrown instead. */
  datatype Selection = Selected(tickets: seq<Ticket>) | Unavailable(message: string)

  const NotInitialized: string := "Firestore not initialized"
  const NotEnough: string := "Não há números suficientes disponíveis."

  function NumberGone(chosenNumber: string): string {
    "O número " + PadStart(chosenNumber, 3, '0') + " não está mais disponível."
  }

  /** A chosen number buys exactly one ticket; otherwise the stepper's quantity. */
  function QuantityToBuy(chosenNumber: string, ticketQuantity: int): int {
    if chosenNumber != "" then 1 else ticketQuantity
  }

  /** The total the page shows next to the buy button, at one unit per ticket. */
  function DisplayedTotal(chosenNumber: string, ticketQuantity: int): int {
    if chosenNumber != "" then 1 else ticketQuantity * 1
  }

  /** The purchase record a confirmation creates. */
  function NewPurchase(purchaseId: string, purchaseDate: string, user: User, chosenNumber: string, ticketQuantity: int): (p: Purchase)
    ensures p.id == purchaseId && p.userId == user.uid && p.raffleId == MainRaffle
    ensures p.numberOfTickets == QuantityToBuy(chosenNumber, ticketQuantity)
    ensures p.totalAmount == DisplayedTotal(chosenNumber, ticketQuantity)
    ensures p.paymentMethod == "PIX" && p.paymentStatus == "completed"
  {
    var q := QuantityToBuy(chosenNumber, ticketQuantity);
    Purchase(purchaseId, MainRaffle, user.uid, purchaseDate, q, q * 1, "PIX", "completed")
  }

  /** The fields written onto each sold ticket: a missing or empty display name
      becomes "Anônimo", a missing or empty photo URL is left undefined. */
  function SaleFieldsFor(user: User, purchaseId: string): (f: SaleFields)
    ensures f.purchaseId == purchaseId && f.userId == user.uid
    ensures f.userName == (if Truthy(user.displayName) then user.displayName.value else "Anônimo")
    ensures f.userName != ""
    ensures f.userPhoto.Some? ==> f.userPhoto == user.photoURL && f.userPhoto.value != ""
    ensures Truthy(user.photoURL) ==> f.userPhoto == user.photoURL
  {
    SaleFields(purchaseId, user.uid,
      if Truthy(user.displayName) then user.displayName.value else "Anônimo",
      if Truthy(user.photoURL) then user.photoURL else None)
  }

  /** The tickets a confirmation sells, read from the store's current contents:
      the first unsold ticket with the chosen number, or the first
      `quantityToBuy` unsold tickets in the order the store returns them. */
  function SelectTickets(ts: seq<Ticket>, chosenNumber: string, quantityToBuy: int): Selection
    requires quantityToBuy >= 1
  {
    if chosenNumber != "" then
      var matches := match ParseInt(chosenNumber)
        case None => []
        case Some(n) => NumberQuery(ts, n);
      if matches == [] then Unavailable(NumberGone(chosenNumber)) else Selected([matches[0]])
    else
      var unsold := UnsoldQuery(ts);
      var taken := unsold[..if quantityToBuy < |unsold| then quantityToBuy else |unsold|];
      if |taken| < quantityToBuy then Unavailable(NotEnough) else Selected(taken)
  }

  /** Quantity path: it succeeds exactly when at least `q` tickets are unsold,
      and then sells the first `q` of them, all available. */
  lemma QuantitySelection(ts: seq<Ticket>, q: int)
    requires q >= 1
    ensures SelectTickets(ts, "", q).Selected? <==> q <= |UnsoldQuery(ts)|
    ensures SelectTickets(ts, "", q).Selected? ==>
      var sel := SelectTickets(ts, "", q).tickets;
      sel == UnsoldQuery(ts)[..q] && |sel| == q
      && forall t :: t in sel ==> t in ts && Available(t)
    ensures SelectTickets(ts, "", q).Unavailable? ==> SelectTickets(ts, "", q).message == NotEnough
  {
    var unsold := UnsoldQuery(ts);
    if q <= |unsold| {
      forall t | t in unsold[..q] ensures t in ts && Available(t) {
        assert t in unsold;
      }
    }
  }

  /** Chosen-number path: it succeeds exactly when the text parses to a number
      some available ticket carries, and then sells only the first such ticket. */
  lemma ChosenSelection(ts: seq<Ticket>, chosenNumber: string, q: int)
    requires chosenNumber != "" && q >= 1
    ensures SelectTickets(ts, chosenNumber, q).Selected? <==>
      ParseInt(chosenNumber).Some?
      && exists i :: 0 <= i < |ts| && Available(ts[i]) && ts[i].ticketNumber == ParseInt(chosenNumber).value
    ensures SelectTickets(ts, chosenNumber, q).Selected? ==>
      var sel := SelectTickets(ts, chosenNumber, q).tickets;
      var n := ParseInt(chosenNumber).value;
      |sel| == 1 && Available(sel[0]) && sel[0].ticketNumber == n
      && exists j :: 0 <= j < |ts| && ts[j] == sel[0]
           && forall k :: 0 <= k < j ==> !(Available(ts[k]) && ts[k].ticketNumber == n)
  {
    match ParseInt(chosenNumber)
    case None =>
    case Some(n) =>
      var matches := NumberQuery(ts, n);
      if matches != [] {
        NumberQueryFirst(ts, n);
        assert matches[0] in matches;
      } else {
        forall i | 0 <= i < |ts| ensures !(Available(ts[i]) && ts[i].ticketNumber == n) {
          assert ts[i] in ts;
        }
      }
  }

  /** The selected tickets have distinct ids when the collection's ids are unique. */
  lemma SelectionUnique(ts: seq<Ticket>, chosenNumber: string, q: int)
    requires q >= 1 && UniqueIds(ts)
    requires SelectTickets(ts, chosenNumber, q).Selected?
    ensures |IdsOf(SelectTickets(ts, chosenNumber, q).tickets)| == |SelectTickets(ts, chosenNumber, q).tickets|
  {
    var sel := SelectTickets(ts, chosenNumber, q).tickets;
    if chosenNumber == "" {
      UnsoldQueryUnique(ts);
    }
    IdsOfUnique(sel);
  }

  /** Ticket numbers of the selection, in selection order. */
  function NumbersOf(sel: seq<Ticket>): seq<int> {
    seq(|sel|, k requires 0 <= k < |sel| => sel[k].ticketNumber)
  }

  /** What a payment confirmation returns, as a function of the page state and
      the store's contents when it runs. */
  function PaymentResult(user: Option<User>, isUserLoading: bool, storeReady: bool, chosenNumber: string,
                         ticketQuantity: int, ts: seq<Ticket>, purchaseId: string, purchaseDate: string): PaymentOutcome
    requires ticketQuantity >= 1
  {
    if user.None? && !isUserLoading then SignInStarted
    else if user.None? then AuthError
    else if !storeReady then Failed(NotInitialized)
    else
      match SelectTickets(ts, chosenNumber, QuantityToBuy(chosenNumber, ticketQuantity))
      case Unavailable(msg) => Failed(msg)
      case Selected(sel) =>
        Paid(NewPurchase(purchaseId, purchaseDate, user.value, chosenNumber, ticketQuantity), NumbersOf(sel))
  }

  /** The error the store's client library throws when an update carries an
      `undefined` field value and the store was not set up to ignore such
      values. */
  function UndefinedPhotoRejected(ticketId: string): string {
    "Function WriteBatch.update() called with invalid data. Unsupported field value: undefined"
    + " (found in field userPhoto in document raffleTickets/" + ticketId + ")"
  }

  /** `PaymentResult` as the code behaves with a store built by a plain
      `getFirestore`: once the selection succeeds, the first `batch.update`
      with `userPhoto: undefined` throws, so a buyer without a photo URL is
      sent to the `catch` block and nothing is committed. */
  function PaymentResultAsWritten(user: Option<User>, isUserLoading: bool, storeReady: bool, chosenNumber: string,
                                  ticketQuantity: int, ts: seq<Ticket>, purchaseId: string, purchaseDate: string): PaymentOutcome
    requires ticketQuantity >= 1
  {
    if user.None? && !isUserLoading then SignInStarted
    else if user.None? then AuthError
    else if !storeReady then Failed(NotInitialized)
    else
      match SelectTickets(ts, chosenNumber, QuantityToBuy(chosenNumber, ticketQuantity))
      case Unavailable(msg) => Failed(msg)
      case Selected(sel) =>
        if !Truthy(user.value.photoURL) && sel != [] then Failed(UndefinedPhotoRejected(sel[0].id))
        else Paid(NewPurchase(purchaseId, purchaseDate, user.value, chosenNumber, ticketQuantity), NumbersOf(sel))
  }

  /** As written, a buyer without a photo URL (every anonymous buyer among
      them) never pays: whenever the intended confirmation would be paid, the
      code as written fails instead. */
  lemma NoPhotoPaymentFails(u: User, chosenNumber: string, ticketQuantity: int, ts: seq<Ticket>,
                            purchaseId: string, purchaseDate: string)
    requires ticketQuantity >= 1 && !Truthy(u.photoURL)
    ensures PaymentResult(Some(u), false, true, chosenNumber, ticketQuantity, ts, purchaseId, purchaseDate).Paid?
            ==> PaymentResultAsWritten(Some(u), false, true, chosenNumber, ticketQuantity, ts, purchaseId, purchaseDate).Failed?
    ensures !PaymentResultAsWritten(Some(u), false, true, chosenNumber, ticketQuantity, ts, purchaseId, purchaseDate).Paid?
  {
    var q := QuantityToBuy(chosenNumber, ticketQuantity);
    if chosenNumber == "" {
      QuantitySelection(ts, q);
    } else {
      ChosenSelection(ts, chosenNumber, q);
    }
  }

  /** An anonymous buyer and one free ticket: the intended confirmation pays,
      the code as written fails. */
  lemma AnonymousBuyerExample()
    ensures var u := User("anon", None, None);
      var ts := [Ticket("t1", MainRaffle, 7, false, None, None, None, None)];
      PaymentResult(Some(u), false, true, "", 1, ts, "purchase_1", "d").Paid?
      && PaymentResultAsWritten(Some(u), false, true, "", 1, ts, "purchase_1", "d")
         == Failed(UndefinedPhotoRejected("t1"))
  {
    var ts := [Ticket("t1", MainRaffle, 7, false, None, None, None, None)];
    assert UnsoldQuery(ts) == ts;
    assert SelectTickets(ts, "", 1) == Selected(ts);
  }

  /** With a photo URL, or without a user, the code as written and the
      intended confirmation agree. */
  lemma AsWrittenAgreesWithPhoto(user: Option<User>, isUserLoading: bool, storeReady: bool, chosenNumber: string,
                                 ticketQuantity: int, ts: seq<Ticket>, purchaseId: string, purchaseDate: string)
    requires ticketQuantity >= 1 && (user.None? || Truthy(user.value.photoURL))
    ensures PaymentResultAsWritten(user, isUserLoading, storeReady, chosenNumber, ticketQuantity, ts, purchaseId, purchaseDate)
         == PaymentResult(user, isUserLoading, storeReady, chosenNumber, ticketQuantity, ts, purchaseId, purchaseDate)
  {
  }

  /** Intended behaviour for a buyer without a photo URL: the confirmation
      pays whenever the selection succeeds, and the sold tickets carry no
      photo. */
  lemma NoPhotoBuyerPays(u: User, chosenNumber: string, ticketQuantity: int, ts: seq<Ticket>,
                         purchaseId: string, purchaseDate: string)
    requires ticketQuantity >= 1 && !Truthy(u.photoURL)
    ensures PaymentResult(Some(u), false, true, chosenNumber, ticketQuantity, ts, purchaseId, purchaseDate).Paid?
            <==> SelectTickets(ts, chosenNumber, QuantityToBuy(chosenNumber, ticketQuantity)).Selected?
    ensures SaleFieldsFor(u, purchaseId).userPhoto == None
  {
  }

  /** A confirmation pays exactly when a user is signed in, the store is
      available and the selection succeeds; a paid purchase records as many
      tickets, and charges as many units, as numbers were bought, and the
      chosen-number path buys exactly the chosen number. */
  lemma PaidPurchase(user: Option<User>, isUserLoading: bool, storeReady: bool, chosenNumber: string,
                     ticketQuantity: int, ts: seq<Ticket>, purchaseId: string, purchaseDate: string)
    requires ticketQuantity >= 1
    ensures var r := PaymentResult(user, isUserLoading, storeReady, chosenNumber, ticketQuantity, ts, purchaseId, purchaseDate);
      r.Paid? <==> user.Some? && storeReady
                   && SelectTickets(ts, chosenNumber, QuantityToBuy(chosenNumber, ticketQuantity)).Selected?
    ensures var r := PaymentResult(user, isUserLoading, storeReady, chosenNumber, ticketQuantity, ts, purchaseId, purchaseDate);
      r.Paid? ==>
        |r.boughtNumbers| == r.purchase.numberOfTickets == r.purchase.totalAmount
        && (chosenNumber != "" ==> r.boughtNumbers == [ParseInt(chosenNumber).value])
        && (chosenNumber == "" ==> r.purchase.numberOfTickets == ticketQuantity)
  {
    var q := QuantityToBuy(chosenNumber, ticketQuantity);
    if chosenNumber == "" {
      QuantitySelection(ts, q);
    } else {
      ChosenSelection(ts, chosenNumber, q);
    }
  }

  /** A paid confirmation against a collection with unique ids raises the number
      of sold tickets by exactly the purchase's number of tickets. */
  lemma PaidSellsExactly(user: User, chosenNumber: string, ticketQuantity: int, ts: seq<Ticket>, purchaseId: string)
    requires ticketQuantity >= 1 && UniqueIds(ts)
    requires SelectTickets(ts, chosenNumber, QuantityToBuy(chosenNumber, ticketQuantity)).Selected?
    ensures var sel := SelectTickets(ts, chosenNumber, QuantityToBuy(chosenNumber, ticketQuantity)).tickets;
      |SoldIndices(MarkSold(ts, IdsOf(sel), SaleFieldsFor(user, purchaseId)))|
        == |SoldIndices(ts)| + QuantityToBuy(chosenNumber, ticketQuantity)
  {
    var q := QuantityToBuy(chosenNumber, ticketQuantity);
    var sel := SelectTickets(ts, chosenNumber, q).tickets;
    if chosenNumber == "" {
      QuantitySelection(ts, q);
    } else {
      ChosenSelection(ts, chosenNumber, q);
    }
    SelectionUnique(ts, chosenNumber, q);
    forall id | id in IdsOf(sel) ensures exists i :: 0 <= i < |ts| && ts[i].id == id && !ts[i].isSold {
      var t :| t in sel && t.id == id;
      var i :| 0 <= i < |ts| && ts[i] == t;
    }
    SaleSoldCount(ts, IdsOf(sel), SaleFieldsFor(user, purchaseId));
  }

  /** The part of the confirmation between `batch.set` and `batch.commit`:
      re-query the store, then queue one ticket update per selected ticket and
      record its number, or report the error `processPayment` throws. */
  method QueueTicketUpdates(batch: WriteBatch, ts: seq<Ticket>, chosenNumber: string, quantityToBuy: int, fields: SaleFields)
    returns (failure: Option<string>, boughtNumbers: seq<int>)
    requires quantityToBuy >= 1
    modifies batch
    ensures match SelectTickets(ts, chosenNumber, quantityToBuy)
      case Unavailable(msg) => failure == Some(msg) && batch.pending == old(batch.pending)
      case Selected(sel) =>
        failure.None? && boughtNumbers == NumbersOf(sel)
        && batch.pending == old(batch.pending) + TicketUpdates(sel, fields)
  {
    failure := None;
    boughtNumbers := [];
    if chosenNumber != "" {
      var numToBuy := ParseInt(chosenNumber);
      var snapshot := if numToBuy.Some? then NumberQuery(ts, numToBuy.value) else [];
      if snapshot == [] {
        failure := Some(NumberGone(chosenNumber));
      } else {
        batch.Update(snapshot[0].id, fields);
        boughtNumbers := boughtNumbers + [snapshot[0].ticketNumber];
        assert TicketUpdates([snapshot[0]], fields) == [UpdateTicket(snapshot[0].id, fields)];
      }
    } else {
      var snapshot := UnsoldQuery(ts);
      var availableTickets := snapshot[..if quantityToBuy < |snapshot| then quantityToBuy else |snapshot|];
      if |availableTickets| < quantityToBuy {
        failure := Some(NotEnough);
      } else {
        for k := 0 to |availableTickets|
          invariant batch.pending == old(batch.pending) + TicketUpdates(availableTickets[..k], fields)
          invariant boughtNumbers == NumbersOf(availableTickets[..k])
        {
          batch.Update(availableTickets[k].id, fields);
          boughtNumbers := boughtNumbers + [availableTickets[k].ticketNumber];
          assert availableTickets[..k + 1] == availableTickets[..k] + [availableTickets[k]];
        }
        assert availableTickets[..|availableTickets|] == availableTickets;
      }
    }
  }

  /** The page's checkout state. */
  class CheckoutPage {
    var ticketQuantity: int
    var chosenNumber: string
    var isPaymentDialogOpen: bool
    var isProcessing: bool

    /** The quantity is at least one, and exactly one while a number is chosen. */
    ghost predicate Valid()
      reads this
    {
      ticketQuantity >= 1 && (chosenNumber != "" ==> ticketQuantity == 1)
    }

    constructor ()
      ensures Valid()
      ensures ticketQuantity == 1 && chosenNumber == "" && !isPaymentDialogOpen && !isProcessing
    {
      ticketQuantity := 1;
      chosenNumber := "";
      isPaymentDialogOpen := false;
      isProcessing := false;
    }

    /** The minus button; it is disabled while a number is chosen. */
    method DecreaseQuantity()
      requires Valid()
      modifies this`ticketQuantity
      ensures Valid()
      ensures ticketQuantity == if chosenNumber != "" then old(ticketQuantity)
                                else if old(ticketQuantity) - 1 > 1 then old(ticketQuantity) - 1 else 1
    {
      if chosenNumber == "" {
        ticketQuantity := if 1 > ticketQuantity - 1 then 1 else ticketQuantity - 1;
      }
    }

    /** The plus button; it is disabled while a number is chosen. */
    method IncreaseQuantity()
      requires Valid()
      modifies this`ticketQuantity
      ensures Valid()
      ensures ticketQuantity == if chosenNumber != "" then old(ticketQuantity) else old(ticketQuantity) + 1
    {
      if chosenNumber == "" {
        ticketQuantity := ticketQuantity + 1;
      }
    }

    /** Typing in the number field, followed by the effect that resets the
        quantity to one whenever a number is chosen. */
    method ChangeChosenNumber(value: string)
      requires Valid()
      modifies this`chosenNumber, this`ticketQuantity
      ensures Valid()
      ensures chosenNumber == value
      ensures ticketQuantity == if value != "" then 1 else old(ticketQuantity)
    {
      chosenNumber := value;
      if chosenNumber != "" {
        ticketQuantity := 1;
      }
    }

    /** The buy button: the dialog opens only on `OpenPaymentDialog`. */
    method BuyClick(stats: Stats) returns (outcome: BuyOutcome)
      requires Valid()
      modifies this`isPaymentDialogOpen
      ensures outcome == HandleBuyClick(chosenNumber, ticketQuantity, stats)
      ensures isPaymentDialogOpen == (old(isPaymentDialogOpen) || outcome == OpenPaymentDialog)
    {
      outcome := HandleBuyClick(chosenNumber, ticketQuantity, stats);
      if outcome == OpenPaymentDialog {
        isPaymentDialogOpen := true;
      }
    }

    /** The payment confirmation. The purchase id and date (derived from the
        clock) are inputs; `storeReady` says whether the store handle exists.
        Every write goes into a batch that is committed only after the whole
        selection succeeded, so every other exit leaves the store untouched;
        every exit closes the dialog and clears the chosen number. */
    method ProcessPayment(user: Option<User>, isUserLoading: bool, storeReady: bool, store: Store,
                          purchaseId: string, purchaseDate: string) returns (outcome: PaymentOutcome)
      requires Valid()
      modifies this, store
      ensures Valid()
      ensures !isProcessing && !isPaymentDialogOpen && chosenNumber == ""
      ensures ticketQuantity == old(ticketQuantity)
      ensures outcome == PaymentResult(user, isUserLoading, storeReady, old(chosenNumber), old(ticketQuantity),
                                       old(store.tickets), purchaseId, purchaseDate)
      ensures !outcome.Paid? ==> store.tickets == old(store.tickets) && store.purchases == old(store.purchases)
      ensures outcome.Paid? ==>
        var sel := SelectTickets(old(store.tickets), old(chosenNumber), QuantityToBuy(old(chosenNumber), old(ticketQuantity))).tickets;
        store.tickets == MarkSold(old(store.tickets), IdsOf(sel), SaleFieldsFor(user.value, purchaseId))
        && store.purchases == old(store.purchases)[(user.value.uid, purchaseId) := outcome.purchase]
    {
      isProcessing := true;
      if user.None? && !isUserLoading {
        outcome := SignInStarted;
        isProcessing := false;
      } else if user.None? {
        outcome := AuthError;
        isProcessing := false;
      } else if !storeReady {
        outcome := Failed(NotInitialized);
      } else {
        var currentUser := user.value;
        var batch := new WriteBatch();
        var quantityToBuy := if chosenNumber != "" then 1 else ticketQuantity;
        var purchase := NewPurchase(purchaseId, purchaseDate, currentUser, chosenNumber, ticketQuantity);
        batch.Set(currentUser.uid, purchase);
        var fields := SaleFieldsFor(currentUser, purchaseId);
        var failure, boughtNumbers := QueueTicketUpdates(batch, store.tickets, chosenNumber, quantityToBuy, fields);
        if failure.None? {
          ghost var sel := SelectTickets(store.tickets, chosenNumber, quantityToBuy).tickets;
          assert batch.pending == SaleWrites(currentUser.uid, purchase, sel, fields);
          CommitSale(store.tickets, store.purchases, currentUser.uid, purchase, sel, fields);
          batch.Commit(store);
          outcome := Paid(purchase, boughtNumbers);
        } else {
          outcome := Failed(failure.value);
        }
      }
      // the `finally` block
      isProcessing := false;
      isPaymentDialogOpen := false;
      chosenNumber := "";
    }
  }
}
