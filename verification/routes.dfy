/**
 * The decision logic of the HTTP handlers, without Express: each handler is a method over
 * the shared store that returns the response it would send, as a value.
 */
module Routes {
  import opened Wrappers
  import opened Seqs
  import opened Text
  import opened Schema
  import opened Storage

  /** A handler's response: status 200, 201, 409, 404 or 400 (with the failing fields). */
  datatype Response<T> =
    | Ok(value: T)
    | Created(value: T)
    | Conflict
    | NotFound
    | Invalid(issues: seq<Issue>)

  /** The body `POST /api/quotes/request` answers with. */
  datatype QuoteAndCustomer = QuoteAndCustomer(quote: Quote, customer: Customer)

  /** The body of `POST /api/quotes/:id/items`; a `quoteId` in it overrides the one in the path. */
  datatype ItemBody = ItemBody(
    quoteId: Option<int>,
    item: string,
    quantity: int,
    unitPrice: Cents,
    total: Cents)

  /** No two customers share an email address. */
  predicate EmailsUnique(cs: seq<Customer>) {
    forall i, j :: 0 <= i < j < |cs| ==> cs[i].email != cs[j].email
  }

  /** `GET /api/customers`: every customer in insertion order. */
  function ListCustomers(store: MemStorage): (r: seq<Customer>)
    reads store
    ensures r == store.customers
  {
    store.GetAllCustomers()
  }

  /** A 404 for a missing record, a 200 otherwise (`GET /api/customers/:id`, `GET /api/quotes/:id`). */
  function Found<T>(o: Option<T>): (r: Response<T>)
    ensures r.NotFound? <==> o.None?
    ensures o.Some? ==> r == Ok(o.value)
  {
    match o
    case None => NotFound
    case Some(v) => Ok(v)
  }

  /**
   * `POST /api/customers`: a conflict, and no change, when a customer already has that email;
   * otherwise exactly one customer is added and returned. Unique emails stay unique.
   */
  method CreateCustomerRoute(store: MemStorage, body: InsertCustomer, now: Instant) returns (resp: Response<Customer>)
    requires store.Valid()
    modifies store
    ensures store.Valid()
    ensures old(store.GetCustomerByEmail(body.email)).Some? ==> resp == Conflict && unchanged(store)
    ensures old(store.GetCustomerByEmail(body.email)).None? ==>
      && resp.Created?
      && resp.value == Customer(old(store.currentCustomerId), body.name, body.email, body.phone, body.address, now)
      && store.customers == old(store.customers) + [resp.value]
      && store.Counters() == (old(store.currentCustomerId) + 1, old(store.currentQuoteId), old(store.currentQuoteItemId), old(store.currentQuoteNumber))
    ensures store.quotes == old(store.quotes) && store.quoteItems == old(store.quoteItems)
    ensures EmailsUnique(old(store.customers)) ==> EmailsUnique(store.customers)
  {
    var existing := store.GetCustomerByEmail(body.email);
    if existing.Some? {
      return Conflict;
    }
    var c := store.CreateCustomer(body, now);
    resp := Created(c);
  }

  /**
   * `GET /api/quotes?status=&customerId=`: a non-empty `status` wins over `customerId`;
   * a non-empty `customerId` that does not parse as a number matches nothing; with neither,
   * every quote. The result is always an order-preserving sub-list of the quotes.
   */
  function ListQuotes(store: MemStorage, status: string, customerId: string): (r: seq<Quote>)
    reads store
    ensures IsSubsequence(r, store.quotes)
    ensures status != "" ==> forall q :: q in r <==> q in store.quotes && q.status == status
    ensures status == "" && customerId != "" && ParseInt(customerId).Some? ==>
              forall q :: q in r <==> q in store.quotes && q.customerId == ParseInt(customerId).value
    ensures status == "" && customerId != "" && ParseInt(customerId).None? ==> r == []
    ensures status == "" && customerId == "" ==> r == store.quotes
  {
    if status != "" then store.GetQuotesByStatus(status)
    else if customerId != "" then
      match ParseInt(customerId)
      case None => []
      case Some(n) => store.GetQuotesByCustomer(n)
    else
      SubsequenceRefl(store.quotes);
      store.GetAllQuotes()
  }

  /** Every list is a sub-list of itself. */
  lemma {:induction false} SubsequenceRefl<T>(s: seq<T>)
    ensures IsSubsequence(s, s)
  {
    if s != [] {
      SubsequenceRefl(s[1..]);
    }
  }

  /** The quote `POST /api/quotes/request` inserts for a customer: pending, no amount, requested now. */
  function RequestedQuote(body: QuoteRequest, customerId: int, now: Instant): (q: InsertQuote)
    ensures q.customerId == customerId && q.status == Some(Pending) && q.amount == None
    ensures q.requestedDate == Some(now) && q.validUntil == None
    ensures q.projectType == body.projectType && q.propertySize == body.propertySize
    ensures q.description == body.description
    ensures q.budgetRange == body.budgetRange && q.timeline == body.timeline
  {
    InsertQuote(
      customerId := customerId,
      projectType := body.projectType,
      propertySize := body.propertySize,
      budgetRange := body.budgetRange,
      description := body.description,
      timeline := body.timeline,
      requestedDate := Some(now),
      status := Some(Pending),
      amount := None,
      validUntil := None)
  }

  /**
   * `POST /api/quotes/request`. An invalid body is a 400 listing the failing fields and
   * changes nothing. Otherwise the first customer with that email is reused (no customer is
   * added), or exactly one customer is created from the request; then exactly one quote is
   * created for that customer, pending, without an amount, requested now, with the next
   * quote id and quote number. The item counter and the items are untouched.
   */
  method RequestQuote(store: MemStorage, body: QuoteRequest, isEmail: string -> bool, now: Instant)
    returns (resp: Response<QuoteAndCustomer>)
    requires store.Valid()
    modifies store
    ensures store.Valid()
    ensures !ValidQuoteRequest(body, isEmail) ==>
              resp == Invalid(ReportedIssues(body, isEmail)) && unchanged(store)
    ensures ValidQuoteRequest(body, isEmail) ==>
      && resp.Created?
      && var c := resp.value.customer;
      && var q := resp.value.quote;
      && (old(store.GetCustomerByEmail(body.customerEmail)).Some? ==>
            && c == old(store.GetCustomerByEmail(body.customerEmail)).value
            && store.customers == old(store.customers)
            && store.currentCustomerId == old(store.currentCustomerId))
      && (old(store.GetCustomerByEmail(body.customerEmail)).None? ==>
            && c == Customer(old(store.currentCustomerId), body.customerName, body.customerEmail,
                             body.customerPhone, body.customerAddress, now)
            && store.customers == old(store.customers) + [c]
            && store.currentCustomerId == old(store.currentCustomerId) + 1)
      && q == NewQuote(old(store.currentQuoteId), old(store.currentQuoteNumber), RequestedQuote(body, c.id, now), now)
      && store.quotes == old(store.quotes) + [q]
      && q.customerId == c.id && q.status == Pending && q.amount == None
      && q.projectType == body.projectType && q.propertySize == body.propertySize
      && q.description == body.description
      && q.budgetRange == OrNull(body.budgetRange) && q.timeline == OrNull(body.timeline)
      && q.requestedDate == now && q.quoteNumber == QuoteNumber(old(store.currentQuoteNumber))
      && q.id == old(store.currentQuoteId) && q.validUntil == Some(now + ValidityDays * DayMs)
      && q.createdAt == now && q.updatedAt == now
      && store.currentQuoteId == old(store.currentQuoteId) + 1
      && store.currentQuoteNumber == old(store.currentQuoteNumber) + 1
    ensures |store.customers| <= |old(store.customers)| + 1
    ensures store.quoteItems == old(store.quoteItems) && store.currentQuoteItemId == old(store.currentQuoteItemId)
    ensures EmailsUnique(old(store.customers)) ==> EmailsUnique(store.customers)
  {
    if !ValidQuoteRequest(body, isEmail) {
      return Invalid(ReportedIssues(body, isEmail));
    }
    var found := store.GetCustomerByEmail(body.customerEmail);
    var customer: Customer;
    if found.Some? {
      customer := found.value;
    } else {
      customer := store.CreateCustomer(
        InsertCustomer(body.customerName, body.customerEmail, body.customerPhone, body.customerAddress), now);
    }
    var quote := store.CreateQuote(RequestedQuote(body, customer.id, now), now);
    resp := Created(QuoteAndCustomer(quote, customer));
  }

  /** `PATCH /api/quotes/:id`: the merge of `updateQuote`, or a 404 with no change. */
  method PatchQuote(store: MemStorage, id: int, patch: QuotePatch, now: Instant) returns (resp: Response<Quote>)
    requires store.Valid()
    modifies store
    ensures store.Valid()
    ensures match QuoteIndex(old(store.quotes), id)
      case None => resp == NotFound && store.quotes == old(store.quotes)
      case Some(k) => resp == Ok(MergeQuote(old(store.quotes)[k], patch, now)) && store.quotes == old(store.quotes)[k := resp.value]
    ensures resp.NotFound? ==> unchanged(store)
    ensures store.customers == old(store.customers) && store.quoteItems == old(store.quoteItems)
    ensures store.Counters() == old(store.Counters())
  {
    ghost var before := store.quotes;
    var r := store.UpdateQuote(id, patch, now);
    resp := Found(r);
    if r.None? {
      assert QuoteIndex(before, id).None?;
    }
  }

  /** `POST /api/quotes/:id/items`: always created; the body's `quoteId`, if any, wins over the path's. */
  method AddQuoteItemRoute(store: MemStorage, pathId: int, body: ItemBody) returns (resp: Response<QuoteItem>)
    requires store.Valid()
    modifies store
    ensures store.Valid()
    ensures resp.Created?
    ensures resp.value.quoteId == body.quoteId.GetOr(pathId)
    ensures resp.value.id == old(store.currentQuoteItemId) && resp.value.total == body.total
    ensures store.quoteItems == old(store.quoteItems) + [resp.value]
    ensures store.customers == old(store.customers) && store.quotes == old(store.quotes)
    ensures store.Counters() == (old(store.currentCustomerId), old(store.currentQuoteId), old(store.currentQuoteItemId) + 1, old(store.currentQuoteNumber))
  {
    var item := store.AddQuoteItem(
      InsertQuoteItem(body.quoteId.GetOr(pathId), body.item, body.quantity, body.unitPrice, body.total));
    resp := Created(item);
  }

  /**
   * The patch `{ status: "approved", amount: amount?.toString() }`: exactly two keys, and the
   * amount key is present even when no amount is given, so it then clears the stored amount.
   */
  function ApprovePatch(amount: Option<Cents>): (p: QuotePatch)
    ensures p.status == Some(Approved) && p.amount == Some(amount)
    ensures p.(status := None, amount := None) == EmptyQuotePatch
  {
    EmptyQuotePatch.(status := Some(Approved), amount := Some(amount))
  }

  /** The patch `{ status: "rejected" }`: the status key alone, so the amount is kept. */
  function RejectPatch(): (p: QuotePatch)
    ensures p.status == Some(Rejected)
    ensures p.(status := None) == EmptyQuotePatch
  {
    EmptyQuotePatch.(status := Some(Rejected))
  }

  /**
   * `POST /api/quotes/:id/approve`: whatever the prior status, the quote becomes approved with
   * the supplied amount (none when none is supplied); other fields except `updatedAt` stay.
   * A 404 with no change for an unknown id.
   */
  method ApproveQuote(store: MemStorage, id: int, amount: Option<Cents>, now: Instant) returns (resp: Response<Quote>)
    requires store.Valid()
    modifies store
    ensures store.Valid()
    ensures resp.NotFound? <==> QuoteIndex(old(store.quotes), id).None?
    ensures resp.NotFound? ==> unchanged(store)
    ensures resp.Ok? ==>
      && var k := QuoteIndex(old(store.quotes), id).value;
      && resp.value == old(store.quotes)[k].(status := Approved, amount := amount, updatedAt := now)
      && store.quotes == old(store.quotes)[k := resp.value]
      && (IsPending(old(store.quotes)[k]) ==>
            && store.GetDashboardStats().totalRevenue == old(store.GetDashboardStats().totalRevenue) + amount.GetOr(0)
            && store.GetDashboardStats().approvedQuotes == old(store.GetDashboardStats().approvedQuotes) + 1
            && store.GetDashboardStats().pendingQuotes == old(store.GetDashboardStats().pendingQuotes) - 1)
    ensures store.customers == old(store.customers) && store.quoteItems == old(store.quoteItems)
    ensures store.Counters() == old(store.Counters())
  {
    ghost var before := store.quotes;
    var r := store.UpdateQuote(id, ApprovePatch(amount), now);
    resp := Found(r);
    if r.None? {
      assert QuoteIndex(before, id).None?;
    } else {
      var k := QuoteIndex(before, id).value;
      ApproveEffectOnStats(before, k, amount, now);
    }
  }

  /**
   * `POST /api/quotes/:id/reject`: whatever the prior status, the quote becomes rejected and
   * its amount is untouched. A 404 with no change for an unknown id.
   */
  method RejectQuote(store: MemStorage, id: int, now: Instant) returns (resp: Response<Quote>)
    requires store.Valid()
    modifies store
    ensures store.Valid()
    ensures resp.NotFound? <==> QuoteIndex(old(store.quotes), id).None?
    ensures resp.NotFound? ==> unchanged(store)
    ensures resp.Ok? ==>
      && var k := QuoteIndex(old(store.quotes), id).value;
      && resp.value == old(store.quotes)[k].(status := Rejected, updatedAt := now)
      && store.quotes == old(store.quotes)[k := resp.value]
      && (IsPending(old(store.quotes)[k]) ==>
            && store.GetDashboardStats().totalRevenue == old(store.GetDashboardStats().totalRevenue)
            && store.GetDashboardStats().approvedQuotes == old(store.GetDashboardStats().approvedQuotes)
            && store.GetDashboardStats().pendingQuotes == old(store.GetDashboardStats().pendingQuotes) - 1)
    ensures store.customers == old(store.customers) && store.quoteItems == old(store.quoteItems)
    ensures store.Counters() == old(store.Counters())
  {
    ghost var before := store.quotes;
    var r := store.UpdateQuote(id, RejectPatch(), now);
    resp := Found(r);
    if r.None? {
      assert QuoteIndex(before, id).None?;
    } else {
      var k := QuoteIndex(before, id).value;
      RejectEffectOnStats(before, k, now);
    }
  }

  /**
   * Approving quote `k` with `amount` moves the approved revenue by the new amount minus what
   * the quote contributed before; approving a pending quote raises the revenue by exactly the
   * amount, the approved count by one and lowers the pending count by one.
   */
  lemma ApproveEffectOnStats(qs: seq<Quote>, k: nat, amount: Option<Cents>, now: Instant)
    requires k < |qs|
    ensures var after := DashboardStatsOf(qs[k := MergeQuote(qs[k], ApprovePatch(amount), now)]);
            var before := DashboardStatsOf(qs);
            && after.totalQuotes == before.totalQuotes
            && after.totalRevenue == before.totalRevenue - RevenueContribution(qs[k]) + amount.GetOr(0)
            && (IsPending(qs[k]) ==>
                  && after.totalRevenue == before.totalRevenue + amount.GetOr(0)
                  && after.approvedQuotes == before.approvedQuotes + 1
                  && after.pendingQuotes == before.pendingQuotes - 1)
  {
    var q := MergeQuote(qs[k], ApprovePatch(amount), now);
    ApprovedRevenueUpdate(qs, k, q);
    FilterLengthUpdate(qs, k, q, IsApproved);
    FilterLengthUpdate(qs, k, q, IsPending);
  }

  /** Rejecting a pending quote lowers the pending count by one and leaves approvals and revenue alone. */
  lemma RejectEffectOnStats(qs: seq<Quote>, k: nat, now: Instant)
    requires k < |qs|
    ensures var after := DashboardStatsOf(qs[k := MergeQuote(qs[k], RejectPatch(), now)]);
            var before := DashboardStatsOf(qs);
            && after.totalQuotes == before.totalQuotes
            && (IsPending(qs[k]) ==>
                  && after.totalRevenue == before.totalRevenue
                  && after.approvedQuotes == before.approvedQuotes
                  && after.pendingQuotes == before.pendingQuotes - 1)
  {
    var q := MergeQuote(qs[k], RejectPatch(), now);
    ApprovedRevenueUpdate(qs, k, q);
    FilterLengthUpdate(qs, k, q, IsApproved);
    FilterLengthUpdate(qs, k, q, IsPending);
  }

  /** Approving the same quote twice with the same amount leaves the record of a single approval. */
  lemma ApproveTwice(q: Quote, amount: Option<Cents>, t1: Instant, t2: Instant)
    ensures MergeQuote(MergeQuote(q, ApprovePatch(amount), t1), ApprovePatch(amount), t2)
            == q.(status := Approved, amount := amount, updatedAt := t2)
  {
    MergeQuoteIdempotent(q, ApprovePatch(amount), t1, t2);
  }
}
