/** The pure part of the ticket purchase orchestrator: the price table, the
    three folds over the request list, the validation rules and the decision
    a purchase call reaches, together with the properties they satisfy. */
module TicketRules {

  datatype TicketType = ADULT | CHILD | INFANT

  /** One ticket request: a ticket type and how many tickets of it. */
  datatype TicketRequest = TicketRequest(ticketType: TicketType, noOfTickets: nat)

  datatype Option<T> = None | Some(value: T)

  /** What one purchase call ends in: a rejection carrying the exception's
      message, or a completed purchase with the amount charged and the number
      of seats reserved. */
  datatype Outcome = Rejected(reason: string) | Purchased(totalAmount: nat, totalSeats: nat)

  /** The largest number of tickets one purchase may contain. */
  const MaxTickets: nat := 20

  const InvalidAccountId := "Invalid account ID"
  const TooManyTickets := "Cannot purchase more than 20 tickets at a time"
  const AdultRequired := "Cannot purchase child or infant tickets without purchasing an adult ticket"

  /** The fixed price table. Infants travel free and nothing costs more than an adult ticket. */
  function Price(t: TicketType): (p: nat)
    ensures p <= 20
    ensures p == 0 <==> t == INFANT
  {
    match t
    case ADULT => 20
    case CHILD => 10
    case INFANT => 0
  }

  // ---------------------------------------------------------------------------
  // The folds. Each peels off the LAST request, so that it is the same left
  // fold from 0 that the source computes with reduce.
  // ---------------------------------------------------------------------------

  /** Sum of all ticket counts. */
  function TotalTickets(rs: seq<TicketRequest>): nat
  {
    if rs == [] then 0
    else TotalTickets(rs[..|rs| - 1]) + rs[|rs| - 1].noOfTickets
  }

  /** Sum of the counts of every request that is not for infants: infants sit
      on an adult's lap, so every ticket but theirs needs a seat. */
  function TotalSeats(rs: seq<TicketRequest>): (r: nat)
    ensures r <= TotalTickets(rs)
  {
    if rs == [] then 0
    else
      var last := rs[|rs| - 1];
      TotalSeats(rs[..|rs| - 1]) + (if last.ticketType != INFANT then last.noOfTickets else 0)
  }

  /** Sum over the requests of price times count. Every seat costs between
      the child and the adult price. */
  function TotalAmount(rs: seq<TicketRequest>): (r: nat)
    ensures Price(CHILD) * TotalSeats(rs) <= r <= Price(ADULT) * TotalSeats(rs)
  {
    if rs == [] then 0
    else
      var last := rs[|rs| - 1];
      TotalAmount(rs[..|rs| - 1]) + Price(last.ticketType) * last.noOfTickets
  }

  /** Whether some request is for adults (whatever its count). */
  function HasAdult(rs: seq<TicketRequest>): (b: bool)
    ensures b <==> exists i :: 0 <= i < |rs| && rs[i].ticketType == ADULT
  {
    if rs == [] then false
    else if rs[0].ticketType == ADULT then true
    else
      assert forall i :: 1 <= i < |rs| ==> rs[i] == rs[1..][i - 1];
      HasAdult(rs[1..])
  }

  /** The validation sub-procedure: the ticket limit first, then adult
      presence. None means the requests are acceptable. */
  function ValidateTicketRequests(rs: seq<TicketRequest>): Option<string>
  {
    if TotalTickets(rs) > MaxTickets then Some(TooManyTickets)
    else if !HasAdult(rs) then Some(AdultRequired)
    else None
  }

  /** The decision of one purchase call: the account check, then validation,
      then the two totals that are handed to the collaborators. */
  function Purchase(accountId: int, rs: seq<TicketRequest>): (r: Outcome)
    ensures r.Purchased? ==> r.totalSeats <= MaxTickets
    ensures r.Purchased? ==> r.totalAmount <= Price(ADULT) * MaxTickets
  {
    if accountId <= 0 then Rejected(InvalidAccountId)
    else
      match ValidateTicketRequests(rs)
      case Some(reason) => Rejected(reason)
      case None => Purchased(TotalAmount(rs), TotalSeats(rs))
  }

  // ---------------------------------------------------------------------------
  // An independent reference definition: the number of tickets of one type,
  // summed from the FRONT of the list.
  // ---------------------------------------------------------------------------

  function CountOf(rs: seq<TicketRequest>, t: TicketType): nat
  {
    if rs == [] then 0
    else (if rs[0].ticketType == t then rs[0].noOfTickets else 0) + CountOf(rs[1..], t)
  }

  lemma {:induction false} CountOfAppend(a: seq<TicketRequest>, b: seq<TicketRequest>, t: TicketType)
    ensures CountOf(a + b, t) == CountOf(a, t) + CountOf(b, t)
  {
    if a == [] {
      assert a + b == b;
    } else {
      assert (a + b)[1..] == a[1..] + b;
      CountOfAppend(a[1..], b, t);
    }
  }

  /** The count of one type over a list that ends in `last`. */
  lemma CountOfSnoc(rs: seq<TicketRequest>, t: TicketType)
    requires rs != []
    ensures CountOf(rs, t) == CountOf(rs[..|rs| - 1], t)
                              + (if rs[|rs| - 1].ticketType == t then rs[|rs| - 1].noOfTickets else 0)
  {
    var init, last := rs[..|rs| - 1], rs[|rs| - 1];
    assert rs == init + [last];
    CountOfAppend(init, [last], t);
  }

  /** Every ticket is of exactly one of the three types. */
  lemma {:induction false} TotalTicketsByType(rs: seq<TicketRequest>)
    ensures TotalTickets(rs) == CountOf(rs, ADULT) + CountOf(rs, CHILD) + CountOf(rs, INFANT)
  {
    if rs != [] {
      TotalTicketsByType(rs[..|rs| - 1]);
      CountOfSnoc(rs, ADULT);
      CountOfSnoc(rs, CHILD);
      CountOfSnoc(rs, INFANT);
    }
  }

  /** Seats are the tickets minus the infant tickets. */
  lemma {:induction false} TotalSeatsByType(rs: seq<TicketRequest>)
    ensures TotalSeats(rs) == CountOf(rs, ADULT) + CountOf(rs, CHILD)
    ensures TotalSeats(rs) == TotalTickets(rs) - CountOf(rs, INFANT)
  {
    TotalTicketsByType(rs);
    if rs != [] {
      TotalSeatsByType(rs[..|rs| - 1]);
      CountOfSnoc(rs, ADULT);
      CountOfSnoc(rs, CHILD);
    }
  }

  /** The amount is the weighted sum with weights 20, 10 and 0. */
  lemma {:induction false} TotalAmountByType(rs: seq<TicketRequest>)
    ensures TotalAmount(rs) == 20 * CountOf(rs, ADULT) + 10 * CountOf(rs, CHILD) + 0 * CountOf(rs, INFANT)
  {
    if rs != [] {
      TotalAmountByType(rs[..|rs| - 1]);
      CountOfSnoc(rs, ADULT);
      CountOfSnoc(rs, CHILD);
      CountOfSnoc(rs, INFANT);
    }
  }

  // ---------------------------------------------------------------------------
  // The folds are additive over concatenation of request lists.
  // ---------------------------------------------------------------------------

  lemma {:induction false} TotalTicketsAppend(a: seq<TicketRequest>, b: seq<TicketRequest>)
    ensures TotalTickets(a + b) == TotalTickets(a) + TotalTickets(b)
  {
    if b == [] {
      assert a + b == a;
    } else {
      assert (a + b)[..|a + b| - 1] == a + b[..|b| - 1];
      TotalTicketsAppend(a, b[..|b| - 1]);
    }
  }

  lemma {:induction false} TotalSeatsAppend(a: seq<TicketRequest>, b: seq<TicketRequest>)
    ensures TotalSeats(a + b) == TotalSeats(a) + TotalSeats(b)
  {
    if b == [] {
      assert a + b == a;
    } else {
      assert (a + b)[..|a + b| - 1] == a + b[..|b| - 1];
      TotalSeatsAppend(a, b[..|b| - 1]);
    }
  }

  lemma {:induction false} TotalAmountAppend(a: seq<TicketRequest>, b: seq<TicketRequest>)
    ensures TotalAmount(a + b) == TotalAmount(a) + TotalAmount(b)
  {
    if b == [] {
      assert a + b == a;
    } else {
      assert (a + b)[..|a + b| - 1] == a + b[..|b| - 1];
      TotalAmountAppend(a, b[..|b| - 1]);
    }
  }

  lemma HasAdultAppend(a: seq<TicketRequest>, b: seq<TicketRequest>)
    ensures HasAdult(a + b) <==> HasAdult(a) || HasAdult(b)
  {
    if HasAdult(a) {
      var i :| 0 <= i < |a| && a[i].ticketType == ADULT;
      assert (a + b)[i] == a[i];
    }
    if HasAdult(b) {
      var i :| 0 <= i < |b| && b[i].ticketType == ADULT;
      assert (a + b)[|a| + i] == b[i];
    }
    if HasAdult(a + b) {
      var i :| 0 <= i < |a + b| && (a + b)[i].ticketType == ADULT;
      if i >= |a| {
        assert b[i - |a|] == (a + b)[i];
      }
    }
  }

  // ---------------------------------------------------------------------------
  // The decision of a purchase call.
  // ---------------------------------------------------------------------------

  /** A non-positive account id is rejected first, whatever the requests are. */
  lemma InvalidAccountRejected(accountId: int, rs: seq<TicketRequest>)
    requires accountId <= 0
    ensures Purchase(accountId, rs) == Rejected(InvalidAccountId)
  {
  }

  /** More than 20 tickets on a valid account is rejected for the limit, even
      when no request is for adults (the limit is checked first). */
  lemma OverLimitRejected(accountId: int, rs: seq<TicketRequest>)
    requires accountId > 0 && TotalTickets(rs) > MaxTickets
    ensures Purchase(accountId, rs) == Rejected(TooManyTickets)
  {
  }

  /** Within the limit, a list without an adult request (the empty list
      included) is rejected for the adult rule. */
  lemma NoAdultRejected(accountId: int, rs: seq<TicketRequest>)
    requires accountId > 0 && TotalTickets(rs) <= MaxTickets
    requires forall i :: 0 <= i < |rs| ==> rs[i].ticketType != ADULT
    ensures Purchase(accountId, rs) == Rejected(AdultRequired)
  {
  }

  /** A purchase succeeds exactly when all three checks pass, and each
      rejection message is produced exactly when its rule is the first one
      broken. */
  lemma PurchaseDecision(accountId: int, rs: seq<TicketRequest>)
    ensures Purchase(accountId, rs).Purchased?
            <==> accountId > 0 && TotalTickets(rs) <= MaxTickets
                 && exists i :: 0 <= i < |rs| && rs[i].ticketType == ADULT
    ensures Purchase(accountId, rs) == Rejected(InvalidAccountId) <==> accountId <= 0
    ensures Purchase(accountId, rs) == Rejected(TooManyTickets)
            <==> accountId > 0 && TotalTickets(rs) > MaxTickets
    ensures Purchase(accountId, rs) == Rejected(AdultRequired)
            <==> accountId > 0 && TotalTickets(rs) <= MaxTickets
                 && forall i :: 0 <= i < |rs| ==> rs[i].ticketType != ADULT
  {
  }

  /** On success the collaborators receive the priced total and the seat
      count, stated through the per-type counts. */
  lemma PurchaseTotals(accountId: int, rs: seq<TicketRequest>)
    requires Purchase(accountId, rs).Purchased?
    ensures Purchase(accountId, rs).totalAmount == 20 * CountOf(rs, ADULT) + 10 * CountOf(rs, CHILD)
    ensures Purchase(accountId, rs).totalSeats == CountOf(rs, ADULT) + CountOf(rs, CHILD)
    ensures Purchase(accountId, rs).totalSeats <= TotalTickets(rs) <= MaxTickets
  {
    TotalAmountByType(rs);
    TotalSeatsByType(rs);
  }

  /** The adult rule looks at types only: an adult request for zero tickets
      satisfies it, so one child ticket can be bought with no adult seat. */
  lemma ZeroAdultRequestPasses()
    ensures Purchase(123, [TicketRequest(ADULT, 0), TicketRequest(CHILD, 1)]) == Purchased(10, 1)
  {
    var rs := [TicketRequest(ADULT, 0), TicketRequest(CHILD, 1)];
    assert rs[..1] == [TicketRequest(ADULT, 0)];
    assert rs[..1][..0] == [];
    assert TotalTickets(rs[..1]) == TicketRequest(ADULT, 0).noOfTickets;
    assert TotalSeats(rs[..1]) == TicketRequest(ADULT, 0).noOfTickets;
    assert TotalAmount(rs[..1]) == Price(TicketRequest(ADULT, 0).ticketType) * TicketRequest(ADULT, 0).noOfTickets;
    assert HasAdult(rs);
  }

  // ---------------------------------------------------------------------------
  // Concrete scenarios.
  // ---------------------------------------------------------------------------

  lemma AdultsAndChildScenario()
    ensures Purchase(123, [TicketRequest(ADULT, 2), TicketRequest(CHILD, 1)]) == Purchased(50, 3)
  {
    var rs := [TicketRequest(ADULT, 2), TicketRequest(CHILD, 1)];
    assert rs[..1] == [TicketRequest(ADULT, 2)];
    assert rs[..1][..0] == [];
    assert TotalTickets(rs[..1]) == TicketRequest(ADULT, 2).noOfTickets;
    assert TotalSeats(rs[..1]) == TicketRequest(ADULT, 2).noOfTickets;
    assert TotalAmount(rs[..1]) == Price(TicketRequest(ADULT, 2).ticketType) * TicketRequest(ADULT, 2).noOfTickets;
    assert HasAdult(rs);
  }

  lemma AdultAndInfantScenario()
    ensures Purchase(123, [TicketRequest(ADULT, 1), TicketRequest(INFANT, 1)]) == Purchased(20, 1)
  {
    var rs := [TicketRequest(ADULT, 1), TicketRequest(INFANT, 1)];
    assert rs[..1] == [TicketRequest(ADULT, 1)];
    assert rs[..1][..0] == [];
    assert TotalTickets(rs[..1]) == TicketRequest(ADULT, 1).noOfTickets;
    assert TotalSeats(rs[..1]) == TicketRequest(ADULT, 1).noOfTickets;
    assert TotalAmount(rs[..1]) == Price(TicketRequest(ADULT, 1).ticketType) * TicketRequest(ADULT, 1).noOfTickets;
    assert HasAdult(rs);
  }

  lemma InvalidAccountScenario()
    ensures Purchase(-1, [TicketRequest(ADULT, 2), TicketRequest(CHILD, 1)]) == Rejected(InvalidAccountId)
  {
  }

  lemma OverLimitScenarios()
    ensures Purchase(123, [TicketRequest(ADULT, 21)]) == Rejected(TooManyTickets)
    ensures Purchase(123, [TicketRequest(CHILD, 21)]) == Rejected(TooManyTickets)
  {
    assert [TicketRequest(ADULT, 21)][..0] == [];
    assert [TicketRequest(CHILD, 21)][..0] == [];
  }

  lemma ChildOnlyScenario()
    ensures Purchase(123, [TicketRequest(CHILD, 1)]) == Rejected(AdultRequired)
    ensures Purchase(123, []) == Rejected(AdultRequired)
  {
    assert [TicketRequest(CHILD, 1)][..0] == [];
  }

  /** Exactly 20 tickets pass the limit. */
  lemma TwentyTicketsScenario()
    ensures Purchase(123, [TicketRequest(ADULT, 20)]) == Purchased(400, 20)
  {
    assert [TicketRequest(ADULT, 20)][..0] == [];
  }
}
