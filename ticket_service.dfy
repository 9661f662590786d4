/** The imperative part of the ticket purchase orchestrator: a service object
    holding its two injected collaborators, and the one public operation that
    validates a purchase and then calls the payment authority and the seat
    allocator. The collaborators are external; here each one only records the
    calls it receives in a call log. */
module TicketServiceModel {
  import opened TicketRules

  /** One call received by a collaborator, with its arguments. */
  datatype Call =
    | Payment(accountId: int, amountToPay: int)
    | Reservation(accountId: int, totalSeatsToAllocate: int)

  /** The collaborator calls a purchase call makes, in order: none on a
      rejection, the payment and then the reservation on success. */
  function CallsFor(accountId: int, outcome: Outcome): seq<Call>
  {
    match outcome
    case Rejected(_) => []
    case Purchased(amount, seats) => [Payment(accountId, amount), Reservation(accountId, seats)]
  }

  /** The calls of a purchase call are empty exactly when it is rejected;
      otherwise they are two, the payment first, for the account and with
      the two totals of the requests. */
  lemma CallsOnlyOnSuccess(accountId: int, rs: seq<TicketRequest>)
    ensures CallsFor(accountId, Purchase(accountId, rs)) == [] <==> Purchase(accountId, rs).Rejected?
    ensures Purchase(accountId, rs).Purchased? ==>
      CallsFor(accountId, Purchase(accountId, rs))
        == [Payment(accountId, TotalAmount(rs)), Reservation(accountId, TotalSeats(rs))]
    ensures accountId <= 0 ==> CallsFor(accountId, Purchase(accountId, rs)) == []
  {
  }

  /** An observer of a collaborator: the calls it has received so far. */
  class CallLog {
    var calls: seq<Call>

    constructor ()
      ensures calls == []
    {
      calls := [];
    }
  }

  /** The payment authority; it always succeeds. */
  class TicketPaymentService {
    const log: CallLog

    constructor (log: CallLog)
      ensures this.log == log
    {
      this.log := log;
    }

    method MakePayment(accountId: int, amountToPay: int)
      modifies log
      ensures log.calls == old(log.calls) + [Payment(accountId, amountToPay)]
    {
      log.calls := log.calls + [Payment(accountId, amountToPay)];
    }
  }

  /** The seat allocator; it always succeeds. */
  class SeatReservationService {
    const log: CallLog

    constructor (log: CallLog)
      ensures this.log == log
    {
      this.log := log;
    }

    method ReserveSeat(accountId: int, totalSeatsToAllocate: int)
      modifies log
      ensures log.calls == old(log.calls) + [Reservation(accountId, totalSeatsToAllocate)]
    {
      log.calls := log.calls + [Reservation(accountId, totalSeatsToAllocate)];
    }
  }

  class TicketService {
    const paymentService: TicketPaymentService
    const seatReservationService: SeatReservationService

    /** The collaborators are injected once and never reassigned. */
    constructor (paymentService: TicketPaymentService, seatReservationService: SeatReservationService)
      ensures this.paymentService == paymentService
      ensures this.seatReservationService == seatReservationService
    {
      this.paymentService := paymentService;
      this.seatReservationService := seatReservationService;
    }

    /** Rejects the call (the thrown exception becomes `Rejected` with its
        message) or charges the account and then reserves its seats. A
        rejection leaves both collaborators untouched. When both
        collaborators report to one log, that log shows the payment followed
        by the reservation; with two logs, each receives exactly its one call. */
    method PurchaseTickets(accountId: int, ticketTypeRequests: seq<TicketRequest>) returns (outcome: Outcome)
      modifies paymentService.log, seatReservationService.log
      ensures outcome == Purchase(accountId, ticketTypeRequests)
      ensures outcome.Rejected? ==> unchanged(paymentService.log, seatReservationService.log)
      ensures paymentService.log == seatReservationService.log ==>
        paymentService.log.calls == old(paymentService.log.calls) + CallsFor(accountId, outcome)
      ensures paymentService.log != seatReservationService.log && outcome.Purchased? ==>
        paymentService.log.calls == old(paymentService.log.calls) + [Payment(accountId, outcome.totalAmount)]
        && seatReservationService.log.calls
           == old(seatReservationService.log.calls) + [Reservation(accountId, outcome.totalSeats)]
    {
      if accountId <= 0 {
        return Rejected(InvalidAccountId);
      }

      var error := ValidateTicketRequests(ticketTypeRequests);
      if error.Some? {
        return Rejected(error.value);
      }

      var totalAmount := TotalAmount(ticketTypeRequests);
      var totalSeats := TotalSeats(ticketTypeRequests);

      paymentService.MakePayment(accountId, totalAmount);
      seatReservationService.ReserveSeat(accountId, totalSeats);
      outcome := Purchased(totalAmount, totalSeats);
    }
  }

  // ---------------------------------------------------------------------------
  // Clients: the purchase scenarios, seen through the collaborators' logs.
  // ---------------------------------------------------------------------------

  /** Two adults and a child on account 123: one payment of 50, one
      reservation of 3 seats, each collaborator called once. */
  method SuccessfulPurchase() returns (payments: seq<Call>, reservations: seq<Call>)
    ensures payments == [Payment(123, 50)]
    ensures reservations == [Reservation(123, 3)]
  {
    var paymentLog := new CallLog();
    var reservationLog := new CallLog();
    var paymentService := new TicketPaymentService(paymentLog);
    var reservationService := new SeatReservationService(reservationLog);
    var service := new TicketService(paymentService, reservationService);
    AdultsAndChildScenario();
    var _ := service.PurchaseTickets(123, [TicketRequest(ADULT, 2), TicketRequest(CHILD, 1)]);
    payments, reservations := paymentLog.calls, reservationLog.calls;
  }

  /** An adult and an infant, both collaborators reporting to one log: the
      payment of 20 comes before the reservation of 1 seat. */
  method PaymentBeforeReservation() returns (calls: seq<Call>)
    ensures calls == [Payment(123, 20), Reservation(123, 1)]
  {
    var log := new CallLog();
    var paymentService := new TicketPaymentService(log);
    var reservationService := new SeatReservationService(log);
    var service := new TicketService(paymentService, reservationService);
    AdultAndInfantScenario();
    var _ := service.PurchaseTickets(123, [TicketRequest(ADULT, 1), TicketRequest(INFANT, 1)]);
    calls := log.calls;
  }

  /** Account -1 is rejected with its message and neither collaborator is called. */
  method InvalidAccountPurchase() returns (outcome: Outcome, payments: seq<Call>, reservations: seq<Call>)
    ensures outcome == Rejected(InvalidAccountId)
    ensures payments == [] && reservations == []
  {
    var paymentLog := new CallLog();
    var reservationLog := new CallLog();
    var paymentService := new TicketPaymentService(paymentLog);
    var reservationService := new SeatReservationService(reservationLog);
    var service := new TicketService(paymentService, reservationService);
    outcome := service.PurchaseTickets(-1, [TicketRequest(ADULT, 2), TicketRequest(CHILD, 1)]);
    payments, reservations := paymentLog.calls, reservationLog.calls;
  }

  /** 21 child tickets are rejected for the limit, not for the missing adult,
      and neither collaborator is called. */
  method OverLimitPurchase() returns (outcome: Outcome, calls: seq<Call>)
    ensures outcome == Rejected(TooManyTickets)
    ensures calls == []
  {
    var log := new CallLog();
    var paymentService := new TicketPaymentService(log);
    var reservationService := new SeatReservationService(log);
    var service := new TicketService(paymentService, reservationService);
    OverLimitScenarios();
    outcome := service.PurchaseTickets(123, [TicketRequest(CHILD, 21)]);
    calls := log.calls;
  }
}
