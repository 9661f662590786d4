# Ticket purchase orchestrator — a Dafny model

This project models `TicketService`, the purchase orchestrator of the
cinema-tickets exercise. A purchase call takes an account id and an ordered
list of ticket requests. It works in a fixed order:

1. It rejects a non-positive account id.
2. It rejects more than 20 tickets in all.
3. It rejects a list without an adult request.
4. It prices the tickets (adult 20, child 10, infant 0) and counts the seats
   (every ticket except infants').
5. It calls the payment service once with the account and the amount, and
   then the seat reservation service once with the account and the seats.

The model has two modules:

- `TicketRules` (`ticket_rules.dfy`). This is the pure part: the price table,
  the three folds over the request list (`TotalTickets`, `TotalSeats`,
  `TotalAmount`), the adult test `HasAdult`, the validation
  `ValidateTicketRequests`, and `Purchase`, the decision one purchase call
  reaches. `CountOf`, the number of tickets of one type summed from the front
  of the list, is an independent reference definition. The lemmas connect the
  folds to it.
- `TicketServiceModel` (`ticket_service.dfy`). This is the imperative part:
  the `TicketService` class holds its two injected collaborators and has the
  method `PurchaseTickets`. Each collaborator is a class that appends every
  call it receives to a `CallLog` object, the way the test suite's mocks
  record calls. When both collaborators share one log, that log shows the
  order of the calls.

A thrown `InvalidPurchaseException` becomes the result `Rejected(reason)`
with the exception's exact message. On success the source returns nothing.
The model returns `Purchased(totalAmount, totalSeats)`, whose two fields are
the arguments passed to the two collaborators.

The folds peel off the last request. This is the same left fold from 0 that
`reduce` computes. `HasAdult` looks at the first request first, as `some` does.

## Model

| member | source | states |
|---|---|---|
| TicketRules.Price | src/pairtest/TicketService.js:11-15 | no ticket costs more than 20, and a ticket is free exactly when it is an infant ticket |
| TicketRules.TotalSeats | src/pairtest/TicketService.js:31-39 | the seat count is never greater than the total number of tickets |
| TicketRules.TotalAmount | src/pairtest/TicketService.js:22-29 | the amount lies between 10 and 20 times the seat count |
| TicketRules.HasAdult | src/pairtest/TicketService.js:52-54 | true exactly when some request in the list has type ADULT |
| TicketRules.Purchase | src/pairtest/TicketService.js:62-75 | on success at most 20 seats are reserved and at most 400 is charged |
| TicketRules.TotalTicketsByType | src/pairtest/TicketService.js:42-45 | the total ticket count is the adult count plus the child count plus the infant count |
| TicketRules.TotalSeatsByType | src/pairtest/TicketService.js:31-39 | seats are the adult and child tickets, which is the total ticket count minus the infant tickets |
| TicketRules.TotalAmountByType | src/pairtest/TicketService.js:11-29 | the amount is the weighted sum of the per-type counts with weights ADULT 20, CHILD 10, INFANT 0 |
| TicketRules.TotalTicketsAppend | src/pairtest/TicketService.js:42-45 | the ticket count of a concatenation is the sum of the two parts' counts |
| TicketRules.TotalSeatsAppend | src/pairtest/TicketService.js:31-39 | the seat count of a concatenation is the sum of the two parts' seat counts |
| TicketRules.TotalAmountAppend | src/pairtest/TicketService.js:22-29 | the amount of a concatenation is the sum of the two parts' amounts |
| TicketRules.HasAdultAppend | src/pairtest/TicketService.js:52-54 | a concatenation has an adult request exactly when one of its parts does |
| TicketRules.InvalidAccountRejected | src/pairtest/TicketService.js:65-67 | a non-positive account id is rejected with "Invalid account ID", whatever the requests are |
| TicketRules.OverLimitRejected | src/pairtest/TicketService.js:42-50 | on a valid account, more than 20 tickets are rejected with the limit message, even when no request is for adults |
| TicketRules.NoAdultRejected | src/pairtest/TicketService.js:52-59 | on a valid account and within the limit, a list with no adult request, the empty list included, is rejected with the adult message |
| TicketRules.PurchaseDecision | src/pairtest/TicketService.js:46-69 | the purchase succeeds if and only if the account id is positive, the count is at most 20 and some request is for adults; each message appears if and only if its rule is the first one broken |
| TicketRules.PurchaseTotals | src/pairtest/TicketService.js:71-72 | on success the amount is 20 per adult ticket plus 10 per child ticket, the seats are the adult plus child tickets, and they are at most the ticket count, which is at most 20 |
| TicketRules.ZeroAdultRequestPasses | src/pairtest/TicketService.js:52-54 | an adult request for zero tickets satisfies the adult rule, so [ADULT×0, CHILD×1] is charged 10 for 1 seat |
| TicketRules.AdultsAndChildScenario | test/TicketService.test.js:31-47 | [ADULT×2, CHILD×1] on account 123 is charged 50 for 3 seats |
| TicketRules.AdultAndInfantScenario | src/pairtest/TicketService.js:31-39 | [ADULT×1, INFANT×1] is charged 20 for 1 seat, because the infant is free and takes no seat |
| TicketRules.InvalidAccountScenario | test/TicketService.test.js:49-61 | account -1 is rejected with "Invalid account ID" |
| TicketRules.OverLimitScenarios | test/TicketService.test.js:63-70 | ADULT×21 and CHILD×21 are both rejected with the limit message |
| TicketRules.ChildOnlyScenario | test/TicketService.test.js:72-81 | CHILD×1 and the empty list are rejected with the adult message |
| TicketRules.TwentyTicketsScenario | src/pairtest/TicketService.js:46 | exactly 20 adult tickets pass the limit and are charged 400 for 20 seats |
| TicketServiceModel.CallsOnlyOnSuccess | src/pairtest/TicketService.js:65-75 | no collaborator call happens if and only if the call is rejected; on success exactly two calls happen, the payment with the amount and then the reservation with the seats |
| TicketServiceModel.TicketPaymentService.MakePayment | src/pairtest/TicketService.js:74 | the payment authority records exactly one payment call with the given account and amount |
| TicketServiceModel.SeatReservationService.ReserveSeat | src/pairtest/TicketService.js:75 | the seat allocator records exactly one reservation call with the given account and seat count |
| TicketServiceModel.TicketService.constructor | src/pairtest/TicketService.js:17-20 | the two collaborators are stored as given |
| TicketServiceModel.TicketService.PurchaseTickets | src/pairtest/TicketService.js:62-76 | the result is the decision of `Purchase`; a rejection leaves both collaborators untouched; on success a shared log gains the payment and then the reservation, and separate logs gain exactly one call each |
| TicketServiceModel.SuccessfulPurchase | test/TicketService.test.js:31-47 | through a real service object, the payment service receives exactly (123, 50) and the reservation service exactly (123, 3) |
| TicketServiceModel.PaymentBeforeReservation | src/pairtest/TicketService.js:74-75 | with one shared log, the payment of 20 is recorded before the reservation of 1 seat |
| TicketServiceModel.InvalidAccountPurchase | test/TicketService.test.js:49-61 | account -1 is rejected with its message and neither collaborator records a call |
| TicketServiceModel.OverLimitPurchase | src/pairtest/TicketService.js:46-50 | 21 child tickets give the limit message, not the adult message, and no collaborator call |

## Left out

- `TicketTypeRequest` (src/pairtest/lib/TicketTypeRequest.js) is not part of this model. A request is a plain value with a ticket type and a `nat` count. Whether its constructor rejects zero or negative counts is unknown. The model allows zero counts and rules out negative ones. With zero counts, the adult rule is weaker than its message suggests (see `ZeroAdultRequestPasses`).
- `InvalidPurchaseException` (src/pairtest/lib/InvalidPurchaseException.js) is not part of this model. It is represented by the `Rejected(reason)` result.
- The payment and seat reservation services are third-party code and are not part of this model. They are modelled only as call logs, and they always succeed. A fault raised by either of them, and the missing compensation when the second one fails, are not modelled.
- Dynamic JavaScript behaviour is not modelled. This covers non-integer or non-numeric account ids, unknown ticket type strings (which give a NaN price), and fractional counts. Account ids are `int`, ticket types are a three-valued enum, and counts are `nat`.
- JavaScript numbers are doubles. The model uses unbounded integers, so loss of precision above 2^53 is not modelled. Such totals are only reachable in a rejected call anyway: a request list over the limit is rejected before any amount is computed.
- The variadic parameter `...ticketTypeRequests` is a `seq` parameter.
- The Jest harness and its mocks are not modelled. Their scenarios appear as the scenario lemmas and the client methods in `TicketServiceModel`.
- Idempotence of the totals needs no lemma: `TotalAmount` and `TotalSeats` are pure functions of the request list.
