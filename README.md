# Raffle storefront — a Dafny model

This project models the logic inside the React components of a single-raffle
storefront. The raffle has 500 numbers, each stored as a ticket record. Buyers
pick a quantity or one number, confirm a payment, and the page marks the
tickets sold in one batched write. Around that sit several read-only panels:

- two buyer leaderboards;
- a "lucky number" helper;
- a status grid;
- the buyer's own tickets;
- a plain number grid.

The ticket collection is a sequence of `Ticket` values. Live subscriptions and
query snapshots become inputs. The store and the write batch are classes: the
batch holds a list of pending writes, and `Commit` applies that list to the
store in one step. Random draws, clock readings and the signed-in user are
parameters.

Modules, one per component or shared concern:

- `Tickets`: the ticket record and the filters several components share.
- `Format`: `String(n)`, `padStart`, and the part of `parseInt` that reads an optional sign and the longest run of digits (`ParseInt`).
- `RaffleStats`: the sold/available statistics of the home page.
- `BuyValidation`: the buy button's decision.
- `TicketStore`: the store, the write batch, and the two ticket queries.
- `Checkout`: the page's checkout state, with the stepper, the buy click and
  the payment confirmation. `SelectTickets` picks the tickets to sell and
  `PaymentResult` gives the confirmation's outcome.
- `Leaderboard`: the per-user tally in a Map (`Tally`), the stable sort by
  count (`SortByCount`), and the top-k (`Top`). `TopBuyers` (k = 5) and
  `RecentPurchases` (k = 3, with `ShowsPanel`) build on it.
- `SlothAnalysis`, `TicketGrid` (with `CellSold` for one cell's status),
  `MyTickets`, `RaffleGrid`: the remaining panels.

## Model

| member | source | states |
|---|---|---|
| Tickets.SoldTickets | src/app/page.tsx:74 | the filter keeps every sold ticket and nothing else |
| Tickets.SoldTicketsLength | src/app/page.tsx:74-77 | the sold list has exactly one entry per position that holds a sold ticket, so `soldCount` counts tickets, not numbers |
| Tickets.SoldNumbers | src/app/page.tsx:75 | the sold-number set holds a number exactly when some sold ticket carries it |
| Tickets.OneTo | src/components/raffle/sloth-analysis.tsx:28 | `Array.from({length: n}, (_, i) => i + 1)` has n entries and entry i is i + 1 |
| Format.DecimalString | src/components/raffle-grid.tsx:19 | `String(n)` is a non-empty digit string with no leading zero |
| Format.DecimalStringValue | src/components/raffle-grid.tsx:19 | `String(n)` reads back as n |
| Format.DecimalStringLength | src/components/raffle-grid.tsx:19 | `String(n)` has at most three characters exactly when n < 1000, and exactly three for 100..999 |
| Format.PadStart | src/components/raffle-grid.tsx:19 | `padStart(w, c)` never shortens or changes a string: it prepends `c` up to length w and leaves longer strings as they are |
| Format.LeadingZeros | src/app/page.tsx:93 | leading zeros do not change a digit string's value ("042" is 42) |
| Format.DigitsParse | src/app/page.tsx:93 | `parseInt` of a digits-only string is its decimal value |
| Format.ParseIntNaN | src/app/page.tsx:94 | `parseInt` of the empty string, or of text that starts with neither a digit nor a sign, is NaN |
| Format.PaddedDecimalRoundTrip | src/app/page.tsx:93 | `parseInt(String(n).padStart(w, '0'))` is n for every width |
| Format.Label | src/components/raffle/ticket-grid.tsx:84 | the label of n reads back as n, is all digits, has length 3 below 1000, keeps every digit of n and pads only with '0' |
| RaffleStats.ComputeStats | src/app/page.tsx:65-82 | sold plus available is always 500; with no data the stats are 0, 500 and the empty set; otherwise the sold set is exactly the numbers of the sold tickets |
| RaffleStats.SoldCountIsSoldTickets | src/app/page.tsx:74-78 | `soldCount` is the number of sold tickets and `availableCount` is 500 minus it |
| RaffleStats.AvailableIsUnsold | src/app/page.tsx:78 | when the collection holds 500 tickets, `availableCount` is the number of unsold tickets |
| RaffleStats.SoldUnsoldPartition | src/app/page.tsx:74 | every ticket is either sold or unsold, so the two counts add up to the collection size |
| BuyValidation.HandleBuyClick | src/app/page.tsx:91-119 | with a chosen number, the dialog opens if and only if the text parses to 1..500 and the number is not sold; with none, it opens if and only if the quantity is at most the available count. Text that is NaN or outside 1..500 is invalid. A sold number is reported with the typed text padded to three digits. A quantity above the available count is reported with that count |
| BuyValidation.ChosenIgnoresQuantity | src/app/page.tsx:92-109 | with a chosen number, the quantity plays no part in the decision |
| BuyValidation.OutOfRangeIsInvalid | src/app/page.tsx:93-101 | "0", "000", "501" and non-numeric text are invalid whatever the quantity and the sold set |
| BuyValidation.LabelDecision | src/app/page.tsx:92-109 | typing the label of a sold number reports it as sold, with the label as typed; typing the label of a free number opens the dialog |
| BuyValidation.QuantityDecision | src/app/page.tsx:110-118 | with no chosen number, the buy proceeds if and only if quantity plus sold tickets is at most 500 |
| BuyValidation.SoldNumberTyped | src/app/page.tsx:102-108 | typing "042" while ticket 42 is sold reports "042" as sold |
| TicketStore.Sell | src/app/page.tsx:185-191 | a sold ticket keeps its id, raffle and number, and takes `isSold`, the purchase id and the buyer's id, name and photo |
| TicketStore.WriteBatch.constructor | src/app/page.tsx:150 | a new batch has no pending writes |
| TicketStore.WriteBatch.Set | src/app/page.tsx:166 | `batch.set` appends the purchase write and changes nothing else |
| TicketStore.WriteBatch.Update | src/app/page.tsx:185 | `batch.update` appends one ticket write and changes nothing else |
| TicketStore.WriteBatch.Commit | src/app/page.tsx:220 | commit applies all pending writes to the store in order, in one step |
| TicketStore.UnsoldQuery | src/app/page.tsx:194-200 | the query returns exactly the unsold main-raffle tickets |
| TicketStore.UnsoldQueryAppend | src/app/page.tsx:194-200 | the query keeps store order: over two stretches of the store it returns the first stretch's results, then the second's |
| TicketStore.UnsoldQueryPrefix | src/app/page.tsx:194-201 | the query's first results are the unsold tickets of any leading stretch of the store, so `slice(0, q)` takes the earliest unsold tickets |
| TicketStore.NumberQuery | src/app/page.tsx:172-178 | the query returns exactly the unsold main-raffle tickets with the given number |
| TicketStore.NumberQueryFirst | src/app/page.tsx:183 | the query's first result is the first matching ticket of the collection |
| TicketStore.UpdatesMarkSold | src/app/page.tsx:207-217 | applying one update per selected ticket sells exactly the tickets whose ids were selected and leaves every other ticket as it was |
| TicketStore.UpdatesKeepPurchases | src/app/page.tsx:207-217 | ticket updates leave the purchases untouched |
| TicketStore.CommitSale | src/app/page.tsx:166-220 | committing a sale's writes sells exactly the selected tickets and adds exactly the new purchase under the buyer |
| TicketStore.SaleSoldCount | src/app/page.tsx:185-220 | with unique ids, selling n distinct unsold tickets raises the number of sold tickets by exactly n |
| TicketStore.IdsOfUnique | src/app/page.tsx:183-217 | tickets with distinct ids contribute one id each |
| TicketStore.UnsoldQueryUnique | src/app/page.tsx:194-200 | the query result of a collection with unique ids has unique ids |
| Checkout.NewPurchase | src/app/page.tsx:152-163 | the purchase records `quantityToBuy` tickets and charges the total the page displays, one unit per ticket, paid by PIX and completed |
| Checkout.SaleFieldsFor | src/app/page.tsx:185-191 | the buyer's name is the display name, or "Anônimo" when it is missing or empty, so it is never empty; the photo is the photo URL exactly when that URL is non-empty, and no photo otherwise |
| Checkout.QuantitySelection | src/app/page.tsx:194-205 | the quantity path succeeds if and only if at least q tickets are unsold, then selects the first q of them, all available; otherwise it fails with the "not enough" message |
| Checkout.ChosenSelection | src/app/page.tsx:170-183 | the chosen-number path succeeds if and only if the text parses to a number that some available ticket carries, then selects only the first such ticket |
| Checkout.SelectionUnique | src/app/page.tsx:183-217 | the selected tickets have distinct ids when the collection's ids are unique |
| Checkout.PaidPurchase | src/app/page.tsx:125-220 | a confirmation pays if and only if a user is signed in, the store exists and the selection succeeds; then it buys as many numbers as the purchase records and charges, and with a chosen number it buys exactly that number (intended behaviour; as written a buyer without a photo URL fails, see Findings) |
| Checkout.PaidSellsExactly | src/app/page.tsx:170-220 | a paid confirmation raises the number of sold tickets by exactly `quantityToBuy` |
| Checkout.QueueTicketUpdates | src/app/page.tsx:168-218 | the re-query and the update loop queue exactly one update per selected ticket, list the bought numbers in order, and on a thrown error report its message and queue nothing (intended behaviour; as written a buyer without a photo URL fails, see Findings) |
| Checkout.CheckoutPage.constructor | src/app/page.tsx:52-55 | the page starts with quantity 1, no chosen number, the dialog closed and nothing in progress |
| Checkout.CheckoutPage.DecreaseQuantity | src/app/page.tsx:292-293 | minus gives `max(1, q - 1)`, is disabled while a number is chosen, and keeps the quantity at least 1 |
| Checkout.CheckoutPage.IncreaseQuantity | src/app/page.tsx:307-308 | plus gives q + 1, is disabled while a number is chosen, and keeps the quantity at least 1 |
| Checkout.CheckoutPage.ChangeChosenNumber | src/app/page.tsx:84-88 | choosing a number resets the quantity to 1; clearing it keeps the quantity |
| Checkout.CheckoutPage.BuyClick | src/app/page.tsx:91-119 | the dialog opens exactly on the validator's positive decision |
| Checkout.CheckoutPage.ProcessPayment | src/app/page.tsx:121-239 | every exit leaves processing off, the dialog closed and the chosen number cleared; nothing is written unless the outcome is Paid; a payment sells exactly the selected tickets and adds exactly the new purchase |
| Checkout.NoPhotoPaymentFails | src/app/page.tsx:185-191 | as written, a buyer without a photo URL never pays: whenever the intended confirmation pays, the code fails instead |
| Checkout.AnonymousBuyerExample | src/app/page.tsx:185-191 | an anonymous buyer with one free ticket: the intended confirmation pays, and the code as written fails with the client library's undefined-field error |
| Checkout.AsWrittenAgreesWithPhoto | src/app/page.tsx:121-239 | with a photo URL, or with no user, the code as written and the intended confirmation give the same outcome |
| Checkout.NoPhotoBuyerPays | src/app/page.tsx:185-191 | a buyer without a photo URL pays if and only if the selection succeeds, and the sold tickets carry no photo |
| Leaderboard.RecordPresent | src/components/raffle/top-buyers.tsx:40-42 | a counted ticket of a user already in the Map adds one to that user's entry and nothing else |
| Leaderboard.RecordAbsent | src/components/raffle/top-buyers.tsx:43-50 | a counted ticket of a new user appends an entry with count 1 and that ticket's name and photo |
| Leaderboard.TallyUsers | src/components/raffle/top-buyers.tsx:38-52 | the Map has an entry for exactly the users with a counted ticket, and no user twice |
| Leaderboard.TallyMembers | src/components/raffle/top-buyers.tsx:39-51 | a user is in the Map if and only if it holds at least one sold ticket with a non-empty user id and name |
| Leaderboard.TallyCounts | src/components/raffle/top-buyers.tsx:40-49 | each entry's count is the number of its user's counted tickets |
| Leaderboard.TallyFirstTicket | src/components/raffle/top-buyers.tsx:44-49 | each entry's name and photo come from its user's first counted ticket, never a later one |
| Leaderboard.TallyOrder | src/components/raffle/top-buyers.tsx:36-52 | the Map's entries are in the order of their users' first counted tickets |
| Leaderboard.TallySum | src/components/raffle/top-buyers.tsx:38-52 | the counts add up to the number of counted tickets |
| Leaderboard.CountedAtMostSold | src/components/raffle/top-buyers.tsx:39 | no more tickets are counted than are sold |
| Leaderboard.InsertPermutes | src/components/raffle/top-buyers.tsx:55 | one insertion step keeps every entry and adds the new one |
| Leaderboard.SortPermutes | src/components/raffle/top-buyers.tsx:55 | the sort is a permutation of the entries |
| Leaderboard.InsertRanked | src/components/raffle/top-buyers.tsx:55 | inserting an entry that first bought after all others keeps the list ranked by count, highest first, ties by first purchase |
| Leaderboard.SortPrefixRanked | src/components/raffle/top-buyers.tsx:54-55 | sorting any entries that are listed in first-purchase order ranks them by count, with ties in first-purchase order |
| Leaderboard.SortTallyRanked | src/components/raffle/top-buyers.tsx:54-55 | the sorted Map is ranked by count, highest first, and equal counts keep the order of first purchase, as a stable sort of the Map's insertion order gives |
| Leaderboard.TopRanked | src/components/raffle/top-buyers.tsx:54-56 | the leaderboard holds min(k, buyers) entries, in non-increasing count order, ties by first purchase, with no user twice |
| Leaderboard.TopEntry | src/components/raffle/top-buyers.tsx:40-56 | every leaderboard entry is a Map entry whose count is its user's number of counted tickets (at least one), with name and photo from the first counted ticket |
| Leaderboard.TopOmitted | src/components/raffle/top-buyers.tsx:54-56 | a buyer left off ranks after every buyer on the board, so its count is at most theirs, and the board is then full |
| Leaderboard.TopSum | src/components/raffle/top-buyers.tsx:38-56 | the board's counts add up to at most the number of sold tickets |
| Leaderboard.TopEmpty | src/components/raffle/top-buyers.tsx:99-101 | a board of positive size is empty if and only if no ticket counts |
| TopBuyers.ComputeTopBuyers | src/components/raffle/top-buyers.tsx:31-58 | the loop over the tickets with an insertion-ordered Map, then sort and slice, yields the top-5 board, and no tickets give an empty board |
| TopBuyers.TopBuyersPanel | src/components/raffle/top-buyers.tsx:60-73 | the invitation card shows if and only if there are no tickets; otherwise the panel lists the top-5 board |
| RecentPurchases.Qualifying | src/components/raffle/recent-purchases.tsx:46 | the filter keeps exactly the sold tickets with a non-empty user id and name |
| RecentPurchases.TallyQualifying | src/components/raffle/recent-purchases.tsx:46-60 | filtering before the loop gives the same Map as skipping inside it |
| RecentPurchases.ComputeTopBuyers | src/components/raffle/recent-purchases.tsx:40-66 | the loop over the filtered tickets yields the top-3 board, and no tickets give an empty board |
| RecentPurchases.ShowsPanelIff | src/components/raffle/recent-purchases.tsx:68-72 | the panel renders if and only if some sold ticket has a non-empty user id and name |
| RecentPurchases.GetTrophy | src/components/raffle/recent-purchases.tsx:30-37 | a trophy exists exactly for ranks 0, 1 and 2, gold for rank 0 |
| RecentPurchases.EveryEntryHasTrophy | src/components/raffle/recent-purchases.tsx:82-94 | every row of the top-3 board gets a trophy, and no two rows get the same one |
| SlothAnalysis.Without | src/components/raffle/sloth-analysis.tsx:28 | the filter keeps exactly the numbers not in the sold set and preserves strict ascending order |
| SlothAnalysis.AvailableNumbers | src/components/raffle/sloth-analysis.tsx:26-29 | the free numbers are exactly 1..500 minus the numbers of sold tickets, strictly ascending |
| SlothAnalysis.WithoutLength | src/components/raffle/sloth-analysis.tsx:28 | filtering a duplicate-free list removes one entry per distinct removed number it holds |
| SlothAnalysis.AvailableCount | src/components/raffle/sloth-analysis.tsx:27-28 | there are 500 free numbers, minus one per distinct sold number in 1..500 |
| SlothAnalysis.AvailableDependsOnSoldInRange | src/components/raffle/sloth-analysis.tsx:27-28 | unsold tickets and sold numbers outside 1..500 do not affect the free numbers |
| SlothAnalysis.DrawIndex | src/components/raffle/sloth-analysis.tsx:38 | `Math.floor(random * len)` is a valid index of a non-empty list |
| SlothAnalysis.DrawProbability | src/components/raffle/sloth-analysis.tsx:41 | the probability is an integer in 40..60 |
| SlothAnalysis.LuckyNumberIsFree | src/components/raffle/sloth-analysis.tsx:37-39 | the drawn lucky number is in 1..500 and not sold |
| SlothAnalysis.SlothPanel.constructor | src/components/raffle/sloth-analysis.tsx:22-24 | the panel starts idle with no lucky number and no probability |
| SlothAnalysis.SlothPanel.StartAnalysis | src/components/raffle/sloth-analysis.tsx:32-34 | a click sets analysing and clears the lucky number and the probability |
| SlothAnalysis.SlothPanel.FinishAnalysis | src/components/raffle/sloth-analysis.tsx:36-45 | the timer ends analysing; with free numbers it draws one of them and a probability, and otherwise it leaves both as they were |
| SlothAnalysis.SlothPanel.HandleAnalyze | src/components/raffle/sloth-analysis.tsx:31-46 | after a click and its timer, analysing is off; a lucky number exists if and only if a number is free, and it is then free and comes with a probability in 40..60 |
| TicketGrid.AllNumbers | src/components/raffle/ticket-grid.tsx:38-39 | `allNumbers` is 1..500 in ascending order |
| TicketGrid.LastWith | src/components/raffle/ticket-grid.tsx:41-47 | it finds the last ticket carrying a number, or reports that none does |
| TicketGrid.BuildStatusMap | src/components/raffle/ticket-grid.tsx:41-47 | the map has a key for exactly the numbers some ticket carries, and maps each to the last such ticket in input order |
| TicketGrid.CellSoldIsLastTicket | src/components/raffle/ticket-grid.tsx:66-67 | a number shows as sold if and only if its last ticket is sold; a number without a ticket shows as free |
| TicketGrid.GridAgreesWithSoldNumbers | src/components/raffle/ticket-grid.tsx:66-67 | with one ticket per number, the grid's sold cells are exactly the statistics' sold numbers |
| TicketGrid.Placeholders | src/components/raffle/ticket-grid.tsx:49-55 | while loading, exactly 100 placeholders show, for numbers 1..100 |
| TicketGrid.GridCell | src/components/raffle/ticket-grid.tsx:66-84 | a cell's text is three digits that read back as its number; its tooltip is "Vendido" exactly when the cell is sold, and otherwise names the number |
| TicketGrid.Grid | src/components/raffle/ticket-grid.tsx:65-88 | the loaded grid has one cell per number 1..500 in order, each with a three-digit text and the sold status of its number |
| MyTickets.SortByNumber | src/components/raffle/my-tickets.tsx:35 | the in-place sort leaves the array ordered by ticket number, lowest first, as a permutation of its old contents |
| MyTickets.RenderMyTickets | src/components/raffle/my-tickets.tsx:34-52 | `sortedTickets` is the fetched array itself, sorted in place, or a new empty array when there is no data; loading shows the loading card, no tickets shows nothing, otherwise the sorted list |
| RaffleGrid.Numbers | src/components/raffle-grid.tsx:12 | `numbers` is 1..totalNumbers in order, and empty when the total is zero or less |
| RaffleGrid.RaffleCell | src/components/raffle-grid.tsx:17-31 | a cell is sold if and only if its number is in the sold list; its text is the number padded with '0' to three characters, never truncated, reading back as the number; its aria-label names it with " - Vendido" or " - Disponível" |
| RaffleGrid.Cells | src/components/raffle-grid.tsx:17-33 | one cell per number 1..totalNumbers, in order, each sold if and only if its number is in the sold list |
| RaffleGrid.AriaLabelTellsSold | src/components/raffle-grid.tsx:29 | the aria-label ends in " - Vendido" if and only if the cell is sold |
| RaffleGrid.PaddingExamples | src/components/raffle-grid.tsx:19 | 7 shows as "007" and 1234 as "1234" |

## Left out

- Firebase initialization, live subscriptions, and the `getDocs`, `writeBatch` and `commit` network calls are not modelled. A query's result is the store's current contents filtered as the query says, in store order. A commit applies the pending writes in one step and cannot fail.
- Anonymous sign-in (`initiateAnonymousSignIn`) is not modelled; the model only reports that it was started.
- Concurrency between browsers is not modelled. The code updates tickets unconditionally, not by compare-and-swap, so two buyers can sell the same ticket; the model has a single client. The batch carries no precondition on `isSold`, and the model does not add one.
- Checkout.CheckoutPage.ProcessPayment: the two `getDocs` awaits are not modelled, so the store cannot change between the reads and the commit.
- Checkout.SelectTickets and Checkout.PaymentResult require a quantity of at least 1. The page always keeps that (`CheckoutPage.Valid`). JavaScript's `slice` with a zero or negative end is not modelled.
- Format.ParseInt models only an optional sign followed by the longest run of decimal digits. Leading whitespace, hexadecimal prefixes and non-ASCII digits are not modelled.
- The floating-point `percentageSold` and the `toFixed` formatting of the displayed total are not modelled. The total is an integer number of units.
- `Math.random()` draws are inputs in [0, 1), and `setTimeout`'s three-second delay is not modelled. SlothAnalysis.SlothPanel.HandleAnalyze runs the click and its timer back to back, with nothing in between.
- `Date.now()` and `new Date().toISOString()` are inputs: the purchase id and date.
- Checkout.CheckoutPage.ProcessPayment, Checkout.PaymentResult, Checkout.PaidPurchase, Checkout.QueueTicketUpdates: a buyer without a photo URL, which includes every anonymous buyer, pays in the model and the sold tickets carry no photo. The code as written does not behave this way. The store is built by a plain `getFirestore` without `ignoreUndefinedProperties`, so the first `batch.update` with `userPhoto: undefined` throws, and nothing is committed. `Checkout.PaymentResultAsWritten` models that behaviour; these members follow the intended one (see Findings).
- Toasts, the chosen number's toast text, the Crown icon, avatar fallbacks, animations, the QR code, the PIX copy button and the bonus number are not modelled. Only the decisions and values behind them are.
- The leaderboards' `tickets` prop is typed `RaffleTicket[]`; a `null` or `undefined` value is not modelled.
- Leaderboard.SortByCount is an insertion sort. The engine's stable sort may run a different algorithm, but a stable sort by one key has only one result, so both agree.
- MyTickets.SortByNumber does not state stability for tickets that share a number.
- The user-specific query that feeds the buyer's ticket panel is not modelled; the panel receives its result.

## Findings

| source | as written | input that shows it | evidently intended | confidence | as-written member | corrected member |
|---|---|---|---|---|---|---|
| src/app/page.tsx:190 | each ticket update writes `userPhoto: currentUser.photoURL \|\| undefined`. The store comes from a plain `getFirestore` (src/firebase/index.ts:43), so the client library rejects the `undefined` value and throws before the commit | an anonymous buyer (no photo URL) buying one number while a ticket is free: the code as written fails, and nothing is sold | the ticket is sold with no photo field | medium: not executed; rests on the client library's documented handling of `undefined` fields | Checkout.NoPhotoPaymentFails | Checkout.NoPhotoBuyerPays |
