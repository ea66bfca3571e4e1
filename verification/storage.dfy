/**
 * `MemStorage`: the in-memory record store. Each `Map` becomes a sequence of records in
 * insertion order (a `set` on an existing key replaces the record in place, a `delete`
 * removes it), and each counter a `nat` field.
 */
module Storage {
  import opened Wrappers
  import opened Seqs
  import opened Text
  import opened Schema

  /** The fixed part of every quote number; the year is written in, not taken from a clock. */
  const QuotePrefix: string := "QT-2024-"

  const DayMs: int := 86400000
  const ValidityDays: int := 30

  /** `` `QT-2024-${String(n).padStart(3, '0')}` `` */
  function QuoteNumber(n: nat): string
  {
    QuotePrefix + PadStart(Decimal(n), 3, '0')
  }

  /** Every quote number is the prefix followed by at least three digits, exactly three below 1000. */
  lemma QuoteNumberFormat(n: nat)
    ensures IsPrefix(QuotePrefix, QuoteNumber(n))
    ensures |QuoteNumber(n)| >= |QuotePrefix| + 3
    ensures AllDigits(QuoteNumber(n)[|QuotePrefix|..])
    ensures n < 1000 ==> |QuoteNumber(n)| == |QuotePrefix| + 3
  {
    DecimalBelowThousand(n);
    var s := QuoteNumber(n);
    assert s[|QuotePrefix|..] == PadStart(Decimal(n), 3, '0');
  }

  /** Reads the sequence number back out of a quote number. */
  function ParseQuoteNumber(s: string): Option<nat> {
    if IsPrefix(QuotePrefix, s) && |s| > |QuotePrefix| && AllDigits(s[|QuotePrefix|..])
    then Some(DigitsValue(s[|QuotePrefix|..]))
    else None
  }

  /** A minted quote number reads back as the counter value it was minted from. */
  lemma QuoteNumberRoundTrip(n: nat)
    ensures ParseQuoteNumber(QuoteNumber(n)) == Some(n)
  {
    var s := QuoteNumber(n);
    assert s[|QuotePrefix|..] == PadStart(Decimal(n), 3, '0');
    PaddedDecimalRoundTrip(n, 3);
  }

  /** Distinct counter values give distinct quote numbers. */
  lemma QuoteNumberInjective(m: nat, n: nat)
    ensures QuoteNumber(m) == QuoteNumber(n) <==> m == n
  {
    if QuoteNumber(m) == QuoteNumber(n) {
      QuoteNumberRoundTrip(m);
      QuoteNumberRoundTrip(n);
    }
  }

  /** `x || null` on an optional string: absent and empty both become `null`. */
  function OrNull(o: Option<string>): (r: Option<string>)
    ensures r.Some? <==> o.Some? && o.value != ""
    ensures r.Some? ==> r == o
  {
    if o.Some? && o.value != "" then o else None
  }

  /**
   * The record `createQuote` stores: the given id and quote number, status `pending`
   * when none (or an empty one) is given, `null` for an absent or empty `budgetRange`
   * and `timeline`, `requestedDate` defaulting to now, `validUntil` thirty days after now
   * whatever the insert says, and both timestamps now.
   */
  function NewQuote(id: nat, seqNo: nat, q: InsertQuote, now: Instant): (r: Quote)
    ensures r.id == id && r.quoteNumber == QuoteNumber(seqNo)
    ensures r.customerId == q.customerId && r.projectType == q.projectType
    ensures r.propertySize == q.propertySize && r.description == q.description
    ensures r.status == (if q.status.None? || q.status == Some("") then Pending else q.status.value)
    ensures r.budgetRange == OrNull(q.budgetRange) && r.timeline == OrNull(q.timeline)
    ensures r.amount == q.amount
    ensures r.requestedDate == q.requestedDate.GetOr(now)
    ensures r.validUntil == Some(now + ValidityDays * DayMs)
    ensures r.createdAt == now && r.updatedAt == now
  {
    Quote(
      id := id,
      quoteNumber := QuoteNumber(seqNo),
      customerId := q.customerId,
      projectType := q.projectType,
      propertySize := q.propertySize,
      budgetRange := OrNull(q.budgetRange),
      description := q.description,
      timeline := OrNull(q.timeline),
      requestedDate := q.requestedDate.GetOr(now),
      status := if q.status.Some? && q.status.value != "" then q.status.value else Pending,
      amount := q.amount,
      validUntil := Some(now + ValidityDays * DayMs),
      createdAt := now,
      updatedAt := now)
  }

  /** `{ ...existing, ...patch }` for customers: present keys overwrite, `id` and `createdAt` stay. */
  function MergeCustomer(c: Customer, p: CustomerPatch): (r: Customer)
    ensures r.id == c.id && r.createdAt == c.createdAt
    ensures r.name == p.name.GetOr(c.name) && r.email == p.email.GetOr(c.email)
    ensures r.phone == p.phone.GetOr(c.phone) && r.address == p.address.GetOr(c.address)
  {
    c.(name := p.name.GetOr(c.name), email := p.email.GetOr(c.email),
       phone := p.phone.GetOr(c.phone), address := p.address.GetOr(c.address))
  }

  /**
   * `{ ...existing, ...patch, updatedAt: new Date() }`: present keys overwrite (a nullable
   * key present with `null`/`undefined` clears), absent keys keep their value, identity and
   * creation fields stay, `updatedAt` becomes now.
   */
  function MergeQuote(q: Quote, p: QuotePatch, now: Instant): (r: Quote)
    ensures r.id == q.id && r.quoteNumber == q.quoteNumber && r.createdAt == q.createdAt
    ensures r.updatedAt == now
    ensures r.customerId == p.customerId.GetOr(q.customerId)
    ensures r.projectType == p.projectType.GetOr(q.projectType)
    ensures r.propertySize == p.propertySize.GetOr(q.propertySize)
    ensures r.budgetRange == p.budgetRange.GetOr(q.budgetRange)
    ensures r.description == p.description.GetOr(q.description)
    ensures r.timeline == p.timeline.GetOr(q.timeline)
    ensures r.requestedDate == p.requestedDate.GetOr(q.requestedDate)
    ensures r.status == p.status.GetOr(q.status)
    ensures r.amount == p.amount.GetOr(q.amount)
    ensures r.validUntil == p.validUntil.GetOr(q.validUntil)
  {
    q.(customerId := p.customerId.GetOr(q.customerId),
       projectType := p.projectType.GetOr(q.projectType),
       propertySize := p.propertySize.GetOr(q.propertySize),
       budgetRange := p.budgetRange.GetOr(q.budgetRange),
       description := p.description.GetOr(q.description),
       timeline := p.timeline.GetOr(q.timeline),
       requestedDate := p.requestedDate.GetOr(q.requestedDate),
       status := p.status.GetOr(q.status),
       amount := p.amount.GetOr(q.amount),
       validUntil := p.validUntil.GetOr(q.validUntil),
       updatedAt := now)
  }

  /** Applying the same quote patch twice is the same as applying it once, at the later time. */
  lemma MergeQuoteIdempotent(q: Quote, p: QuotePatch, t1: Instant, t2: Instant)
    ensures MergeQuote(MergeQuote(q, p, t1), p, t2) == MergeQuote(q, p, t2)
  {
  }

  /** A patch with `validUntil: null` clears the stored expiry and keeps every other field. */
  lemma MergeQuoteClearsValidUntil(q: Quote, now: Instant)
    ensures MergeQuote(q, EmptyQuotePatch.(validUntil := Some(None)), now) == q.(validUntil := None, updatedAt := now)
  {
  }

  /** The empty patch only refreshes `updatedAt`. */
  lemma MergeQuoteEmpty(q: Quote, now: Instant)
    ensures MergeQuote(q, EmptyQuotePatch, now) == q.(updatedAt := now)
  {
  }

  /** `{ ...existing, ...patch }` for quote items; `total` is taken as given, never recomputed. */
  function MergeItem(i: QuoteItem, p: QuoteItemPatch): (r: QuoteItem)
    ensures r.id == i.id
    ensures r.quoteId == p.quoteId.GetOr(i.quoteId) && r.item == p.item.GetOr(i.item)
    ensures r.quantity == p.quantity.GetOr(i.quantity) && r.unitPrice == p.unitPrice.GetOr(i.unitPrice)
    ensures r.total == p.total.GetOr(i.total)
  {
    i.(quoteId := p.quoteId.GetOr(i.quoteId), item := p.item.GetOr(i.item),
       quantity := p.quantity.GetOr(i.quantity), unitPrice := p.unitPrice.GetOr(i.unitPrice),
       total := p.total.GetOr(i.total))
  }

  /** Ids lie in `[1, next)` and strictly increase in insertion order. */
  predicate CustomersWellFormed(cs: seq<Customer>, next: nat) {
    && (forall i :: 0 <= i < |cs| ==> 1 <= cs[i].id < next)
    && (forall i, j :: 0 <= i < j < |cs| ==> cs[i].id < cs[j].id)
  }

  /** As for customers, and every quote carries the number minted from its id. */
  predicate QuotesWellFormed(qs: seq<Quote>, next: nat) {
    && (forall i :: 0 <= i < |qs| ==> 1 <= qs[i].id < next)
    && (forall i, j :: 0 <= i < j < |qs| ==> qs[i].id < qs[j].id)
    && (forall i :: 0 <= i < |qs| ==> qs[i].quoteNumber == QuoteNumber(qs[i].id))
  }

  predicate ItemsWellFormed(items: seq<QuoteItem>, next: nat) {
    && (forall i :: 0 <= i < |items| ==> 1 <= items[i].id < next)
    && (forall i, j :: 0 <= i < j < |items| ==> items[i].id < items[j].id)
  }

  /** Appending the quote minted from counter `next` keeps the table well formed for `next + 1`. */
  lemma QuotesAppend(qs: seq<Quote>, next: nat, r: Quote)
    requires QuotesWellFormed(qs, next) && 1 <= next
    requires r.id == next && r.quoteNumber == QuoteNumber(next)
    ensures QuotesWellFormed(qs + [r], next + 1)
  {
  }

  /** Replacing a quote by one with the same id and number keeps the table well formed. */
  lemma QuotesReplace(qs: seq<Quote>, next: nat, k: nat, r: Quote)
    requires QuotesWellFormed(qs, next) && k < |qs|
    requires r.id == qs[k].id && r.quoteNumber == qs[k].quoteNumber
    ensures QuotesWellFormed(qs[k := r], next)
  {
  }

  /** Removing one item keeps the item table well formed. */
  lemma ItemsRemove(items: seq<QuoteItem>, next: nat, k: nat)
    requires ItemsWellFormed(items, next) && k < |items|
    ensures ItemsWellFormed(items[..k] + items[k + 1..], next)
  {
    var rest := items[..k] + items[k + 1..];
    assert forall i :: 0 <= i < |rest| ==> rest[i] == (if i < k then items[i] else items[i + 1]);
  }

  /** Removing the item at `k` removes exactly the records with its id, since ids are distinct. */
  lemma ItemsRemoveContents(items: seq<QuoteItem>, next: nat, k: nat)
    requires ItemsWellFormed(items, next) && k < |items|
    ensures forall x :: x in items[..k] + items[k + 1..] <==> x in items && x.id != items[k].id
  {
    var rest := items[..k] + items[k + 1..];
    assert forall i :: 0 <= i < |rest| ==> rest[i] == (if i < k then items[i] else items[i + 1]);
    forall x | x in items && x.id != items[k].id ensures x in rest {
      var i :| 0 <= i < |items| && items[i] == x;
      if i < k { assert rest[i] == x; } else { assert rest[i - 1] == x; }
    }
  }

  /** In a well-formed quote table no two quotes share a quote number. */
  lemma DistinctQuoteNumbers(qs: seq<Quote>, next: nat)
    requires QuotesWellFormed(qs, next)
    ensures forall i, j :: 0 <= i < |qs| && 0 <= j < |qs| && i != j ==> qs[i].quoteNumber != qs[j].quoteNumber
  {
    forall i, j | 0 <= i < |qs| && 0 <= j < |qs| && i != j
      ensures qs[i].quoteNumber != qs[j].quoteNumber
    {
      QuoteNumberInjective(qs[i].id, qs[j].id);
    }
  }

  /** The position of the customer with key `id` (`Map.get`). */
  function CustomerIndex(cs: seq<Customer>, id: int): (r: Option<nat>)
    ensures r.Some? ==> r.value < |cs| && cs[r.value].id == id
    ensures r.None? <==> forall j :: 0 <= j < |cs| ==> cs[j].id != id
  {
    FirstIndex(cs, (c: Customer) => c.id == id)
  }

  function QuoteIndex(qs: seq<Quote>, id: int): (r: Option<nat>)
    ensures r.Some? ==> r.value < |qs| && qs[r.value].id == id
    ensures r.None? <==> forall j :: 0 <= j < |qs| ==> qs[j].id != id
  {
    FirstIndex(qs, (q: Quote) => q.id == id)
  }

  function ItemIndex(items: seq<QuoteItem>, id: int): (r: Option<nat>)
    ensures r.Some? ==> r.value < |items| && items[r.value].id == id
    ensures r.None? <==> forall j :: 0 <= j < |items| ==> items[j].id != id
  {
    FirstIndex(items, (i: QuoteItem) => i.id == id)
  }

  /** `{ month, revenue }`; revenue in cents. */
  datatype MonthRevenue = MonthRevenue(month: string, revenue: Cents)

  datatype DashboardStats = DashboardStats(
    totalQuotes: nat,
    approvedQuotes: nat,
    pendingQuotes: nat,
    totalRevenue: Cents,
    monthlyRevenue: seq<MonthRevenue>)

  /** The fixed placeholder series `getDashboardStats` returns, not derived from any quote. */
  const MockMonthlyRevenue: seq<MonthRevenue> := [
    MonthRevenue("Jan", 1200000), MonthRevenue("Feb", 1500000), MonthRevenue("Mar", 1800000),
    MonthRevenue("Apr", 2200000), MonthRevenue("May", 2500000), MonthRevenue("Jun", 2800000)]

  /** The sum of the amounts of the approved quotes, a missing amount counting as 0. */
  function ApprovedRevenue(qs: seq<Quote>): Cents {
    SumAmounts(Filter(qs, IsApproved))
  }

  /** What one quote adds to the approved revenue. */
  function RevenueContribution(q: Quote): Cents {
    if IsApproved(q) then AmountOrZero(q) else 0
  }

  /** Adding a quote raises the approved revenue by exactly its contribution. */
  lemma ApprovedRevenueSnoc(qs: seq<Quote>, q: Quote)
    ensures ApprovedRevenue(qs + [q]) == ApprovedRevenue(qs) + RevenueContribution(q)
  {
    FilterSnoc(qs, q, IsApproved);
    SumAmountsAppend(Filter(qs, IsApproved), if IsApproved(q) then [q] else []);
  }

  /** Replacing one quote changes the approved revenue by the difference of the two contributions. */
  lemma ApprovedRevenueUpdate(qs: seq<Quote>, i: nat, q: Quote)
    requires i < |qs|
    ensures ApprovedRevenue(qs[i := q]) == ApprovedRevenue(qs) - RevenueContribution(qs[i]) + RevenueContribution(q)
  {
    SplitAt(qs, i, q);
    var pre, post := qs[..i], qs[i + 1..];
    FilterAppend(pre + [qs[i]], post, IsApproved);
    FilterAppend(pre + [q], post, IsApproved);
    ApprovedRevenueSnoc(pre, qs[i]);
    ApprovedRevenueSnoc(pre, q);
    SumAmountsAppend(Filter(pre + [qs[i]], IsApproved), Filter(post, IsApproved));
    SumAmountsAppend(Filter(pre + [q], IsApproved), Filter(post, IsApproved));
  }

  /**
   * `getDashboardStats` over the quotes in insertion order: the total, the approved and
   * pending counts (which never exceed the total between them), the approved revenue, and
   * the placeholder monthly series. An empty store gives zeros.
   */
  function DashboardStatsOf(qs: seq<Quote>): (s: DashboardStats)
    ensures s.totalQuotes == |qs|
    ensures s.approvedQuotes + s.pendingQuotes <= s.totalQuotes
    ensures s.approvedQuotes == |Filter(qs, IsApproved)| && s.pendingQuotes == |Filter(qs, IsPending)|
    ensures s.totalRevenue == ApprovedRevenue(qs)
    ensures s.monthlyRevenue == MockMonthlyRevenue && |s.monthlyRevenue| == 6
    ensures qs == [] ==> s.approvedQuotes == 0 && s.pendingQuotes == 0 && s.totalRevenue == 0
  {
    ExclusiveFilters(qs, IsApproved, IsPending);
    DashboardStats(
      totalQuotes := |qs|,
      approvedQuotes := |Filter(qs, IsApproved)|,
      pendingQuotes := |Filter(qs, IsPending)|,
      totalRevenue := ApprovedRevenue(qs),
      monthlyRevenue := MockMonthlyRevenue)
  }

  class MemStorage {
    var customers: seq<Customer>
    var quotes: seq<Quote>
    var quoteItems: seq<QuoteItem>
    var currentCustomerId: nat
    var currentQuoteId: nat
    var currentQuoteItemId: nat
    var currentQuoteNumber: nat

    /** Counters start at 1, the quote-number counter moves with the quote-id counter, tables are well formed. */
    ghost predicate Valid()
      reads this
    {
      && 1 <= currentCustomerId && 1 <= currentQuoteId && 1 <= currentQuoteItemId
      && currentQuoteNumber == currentQuoteId
      && CustomersWellFormed(customers, currentCustomerId)
      && QuotesWellFormed(quotes, currentQuoteId)
      && ItemsWellFormed(quoteItems, currentQuoteItemId)
    }

    /** An empty store with every counter at 1 (the sample seeding is not modelled). */
    constructor ()
      ensures Valid()
      ensures customers == [] && quotes == [] && quoteItems == []
      ensures currentCustomerId == 1 && currentQuoteId == 1
      ensures currentQuoteItemId == 1 && currentQuoteNumber == 1
    {
      customers, quotes, quoteItems := [], [], [];
      currentCustomerId, currentQuoteId, currentQuoteItemId, currentQuoteNumber := 1, 1, 1, 1;
    }

    /** `getCustomer`: the customer stored under `id`, or not found. */
    function GetCustomer(id: int): (r: Option<Customer>)
      reads this
      ensures r.Some? ==> r.value in customers && r.value.id == id
      ensures r.None? <==> forall i :: 0 <= i < |customers| ==> customers[i].id != id
    {
      match CustomerIndex(customers, id)
      case None => None
      case Some(k) => Some(customers[k])
    }

    /** `getCustomerByEmail`: the first customer in insertion order whose email is exactly `email`. */
    function GetCustomerByEmail(email: string): (r: Option<Customer>)
      reads this
      ensures r.Some? ==> exists k :: 0 <= k < |customers| && customers[k] == r.value &&
                            r.value.email == email && forall j :: 0 <= j < k ==> customers[j].email != email
      ensures r.None? <==> forall i :: 0 <= i < |customers| ==> customers[i].email != email
    {
      Find(customers, (c: Customer) => c.email == email)
    }

    /** `createCustomer`: the record takes the current id, which then advances; nothing else changes. */
    method CreateCustomer(c: InsertCustomer, now: Instant) returns (r: Customer)
      requires Valid()
      modifies this
      ensures Valid()
      ensures r == Customer(old(currentCustomerId), c.name, c.email, c.phone, c.address, now)
      ensures customers == old(customers) + [r]
      ensures currentCustomerId == old(currentCustomerId) + 1
      ensures quotes == old(quotes) && quoteItems == old(quoteItems)
      ensures currentQuoteId == old(currentQuoteId) && currentQuoteNumber == old(currentQuoteNumber)
      ensures currentQuoteItemId == old(currentQuoteItemId)
    {
      var id := currentCustomerId;
      currentCustomerId := currentCustomerId + 1;
      r := Customer(id, c.name, c.email, c.phone, c.address, now);
      customers := customers + [r];
    }

    /** `updateCustomer`: merges the patch into the record under `id` in place, or reports not found and changes nothing. */
    method UpdateCustomer(id: int, patch: CustomerPatch) returns (r: Option<Customer>)
      requires Valid()
      modifies this
      ensures Valid()
      ensures match CustomerIndex(old(customers), id)
        case None => r.None? && unchanged(this)
        case Some(k) => r == Some(MergeCustomer(old(customers)[k], patch)) && customers == old(customers)[k := r.value]
      ensures quotes == old(quotes) && quoteItems == old(quoteItems)
      ensures currentCustomerId == old(currentCustomerId) && currentQuoteId == old(currentQuoteId)
      ensures currentQuoteItemId == old(currentQuoteItemId) && currentQuoteNumber == old(currentQuoteNumber)
    {
      match CustomerIndex(customers, id)
      case None =>
        r := None;
      case Some(k) =>
        var updated := MergeCustomer(customers[k], patch);
        customers := customers[k := updated];
        r := Some(updated);
    }

    /** `getQuote`: the quote stored under `id`, or not found. */
    function GetQuote(id: int): (r: Option<Quote>)
      reads this
      ensures r.Some? ==> r.value in quotes && r.value.id == id
      ensures r.None? <==> forall i :: 0 <= i < |quotes| ==> quotes[i].id != id
    {
      match QuoteIndex(quotes, id)
      case None => None
      case Some(k) => Some(quotes[k])
    }

    /** `getQuoteByNumber`: the first quote in insertion order with exactly that number. */
    function GetQuoteByNumber(quoteNumber: string): (r: Option<Quote>)
      reads this
      ensures r.Some? ==> r.value in quotes && r.value.quoteNumber == quoteNumber
      ensures r.None? <==> forall i :: 0 <= i < |quotes| ==> quotes[i].quoteNumber != quoteNumber
    {
      Find(quotes, (q: Quote) => q.quoteNumber == quoteNumber)
    }

    /**
     * `createQuote`: the record takes the current id and the quote number minted from the
     * current quote-number counter; both counters advance by one. The new number differs
     * from every stored one.
     */
    method CreateQuote(q: InsertQuote, now: Instant) returns (r: Quote)
      requires Valid()
      modifies this
      ensures Valid()
      ensures r == NewQuote(old(currentQuoteId), old(currentQuoteNumber), q, now)
      ensures quotes == old(quotes) + [r]
      ensures forall i :: 0 <= i < |old(quotes)| ==> old(quotes)[i].quoteNumber != r.quoteNumber
      ensures currentQuoteId == old(currentQuoteId) + 1 && currentQuoteNumber == old(currentQuoteNumber) + 1
      ensures customers == old(customers) && quoteItems == old(quoteItems)
      ensures currentCustomerId == old(currentCustomerId) && currentQuoteItemId == old(currentQuoteItemId)
    {
      var id := currentQuoteId;
      var seqNo := currentQuoteNumber;
      r := NewQuote(id, seqNo, q, now);
      forall i | 0 <= i < |quotes| ensures quotes[i].quoteNumber != r.quoteNumber {
        QuoteNumberInjective(quotes[i].id, id);
      }
      QuotesAppend(quotes, id, r);
      quotes := quotes + [r];
      currentQuoteId := currentQuoteId + 1;
      currentQuoteNumber := currentQuoteNumber + 1;
    }

    /**
     * `updateQuote`: merges the patch into the record under `id` in place (its position in
     * the table is kept) and refreshes `updatedAt`, or reports not found and changes nothing.
     */
    method UpdateQuote(id: int, patch: QuotePatch, now: Instant) returns (r: Option<Quote>)
      requires Valid()
      modifies this
      ensures Valid()
      ensures match QuoteIndex(old(quotes), id)
        case None => r.None? && unchanged(this)
        case Some(k) => r == Some(MergeQuote(old(quotes)[k], patch, now)) && quotes == old(quotes)[k := r.value]
      ensures customers == old(customers) && quoteItems == old(quoteItems)
      ensures currentCustomerId == old(currentCustomerId) && currentQuoteId == old(currentQuoteId)
      ensures currentQuoteItemId == old(currentQuoteItemId) && currentQuoteNumber == old(currentQuoteNumber)
    {
      match QuoteIndex(quotes, id)
      case None =>
        r := None;
      case Some(k) =>
        var updated := MergeQuote(quotes[k], patch, now);
        QuotesReplace(quotes, currentQuoteId, k, updated);
        quotes := quotes[k := updated];
        r := Some(updated);
    }

    /** The four id counters, customer, quote, item and quote number. */
    function Counters(): (nat, nat, nat, nat)
      reads this
    {
      (currentCustomerId, currentQuoteId, currentQuoteItemId, currentQuoteNumber)
    }

    /** `getAllQuotes`: every quote in insertion order. */
    function GetAllQuotes(): (r: seq<Quote>)
      reads this
      ensures r == quotes
    {
      quotes
    }

    /** `getAllCustomers`: every customer in insertion order. */
    function GetAllCustomers(): (r: seq<Customer>)
      reads this
      ensures r == customers
    {
      customers
    }

    /** `getQuotesByCustomer`: exactly the quotes of that customer, in insertion order. */
    function GetQuotesByCustomer(customerId: int): (r: seq<Quote>)
      reads this
      ensures IsSubsequence(r, quotes)
      ensures forall q :: q in r <==> q in quotes && q.customerId == customerId
    {
      var p := (q: Quote) => q.customerId == customerId;
      FilterIsSubsequence(quotes, p);
      Filter(quotes, p)
    }

    /** `getQuotesByStatus`: exactly the quotes with that status, in insertion order. */
    function GetQuotesByStatus(status: string): (r: seq<Quote>)
      reads this
      ensures IsSubsequence(r, quotes)
      ensures forall q :: q in r <==> q in quotes && q.status == status
    {
      var p := (q: Quote) => q.status == status;
      FilterIsSubsequence(quotes, p);
      Filter(quotes, p)
    }

    /** `getQuoteItems`: exactly the items of that quote, in insertion order. */
    function GetQuoteItems(quoteId: int): (r: seq<QuoteItem>)
      reads this
      ensures IsSubsequence(r, quoteItems)
      ensures forall i :: i in r <==> i in quoteItems && i.quoteId == quoteId
    {
      var p := (i: QuoteItem) => i.quoteId == quoteId;
      FilterIsSubsequence(quoteItems, p);
      Filter(quoteItems, p)
    }

    /** `addQuoteItem`: the item takes the current item id, which then advances; `total` is stored as given. */
    method AddQuoteItem(item: InsertQuoteItem) returns (r: QuoteItem)
      requires Valid()
      modifies this
      ensures Valid()
      ensures r == QuoteItem(old(currentQuoteItemId), item.quoteId, item.item, item.quantity, item.unitPrice, item.total)
      ensures quoteItems == old(quoteItems) + [r]
      ensures currentQuoteItemId == old(currentQuoteItemId) + 1
      ensures customers == old(customers) && quotes == old(quotes)
      ensures currentCustomerId == old(currentCustomerId) && currentQuoteId == old(currentQuoteId)
      ensures currentQuoteNumber == old(currentQuoteNumber)
    {
      var id := currentQuoteItemId;
      currentQuoteItemId := currentQuoteItemId + 1;
      r := QuoteItem(id, item.quoteId, item.item, item.quantity, item.unitPrice, item.total);
      quoteItems := quoteItems + [r];
    }

    /** `updateQuoteItem`: merges the patch into the item under `id` in place, or reports not found and changes nothing. */
    method UpdateQuoteItem(id: int, patch: QuoteItemPatch) returns (r: Option<QuoteItem>)
      requires Valid()
      modifies this
      ensures Valid()
      ensures match ItemIndex(old(quoteItems), id)
        case None => r.None? && unchanged(this)
        case Some(k) => r == Some(MergeItem(old(quoteItems)[k], patch)) && quoteItems == old(quoteItems)[k := r.value]
      ensures customers == old(customers) && quotes == old(quotes)
      ensures currentCustomerId == old(currentCustomerId) && currentQuoteId == old(currentQuoteId)
      ensures currentQuoteItemId == old(currentQuoteItemId) && currentQuoteNumber == old(currentQuoteNumber)
    {
      match ItemIndex(quoteItems, id)
      case None =>
        r := None;
      case Some(k) =>
        var updated := MergeItem(quoteItems[k], patch);
        quoteItems := quoteItems[k := updated];
        r := Some(updated);
    }

    /**
     * `deleteQuoteItem`: true exactly when an item with that id was stored. Afterwards no
     * item has that id, every other item is still there, and the order is kept.
     */
    method DeleteQuoteItem(id: int) returns (existed: bool)
      requires Valid()
      modifies this
      ensures Valid()
      ensures existed <==> exists i :: 0 <= i < |old(quoteItems)| && old(quoteItems)[i].id == id
      ensures match ItemIndex(old(quoteItems), id)
        case None => !existed && unchanged(this)
        case Some(k) => quoteItems == old(quoteItems)[..k] + old(quoteItems)[k + 1..]
      ensures forall i :: 0 <= i < |quoteItems| ==> quoteItems[i].id != id
      ensures forall x :: x in quoteItems <==> x in old(quoteItems) && x.id != id
      ensures customers == old(customers) && quotes == old(quotes)
      ensures currentCustomerId == old(currentCustomerId) && currentQuoteId == old(currentQuoteId)
      ensures currentQuoteItemId == old(currentQuoteItemId) && currentQuoteNumber == old(currentQuoteNumber)
    {
      match ItemIndex(quoteItems, id)
      case None =>
        existed := false;
      case Some(k) =>
        var before := quoteItems;
        ItemsRemove(before, currentQuoteItemId, k);
        ItemsRemoveContents(before, currentQuoteItemId, k);
        quoteItems := before[..k] + before[k + 1..];
        existed := true;
    }

    /** `getDashboardStats`: the statistics of the stored quotes, in insertion order. */
    function GetDashboardStats(): (r: DashboardStats)
      reads this
      ensures r == DashboardStatsOf(quotes)
    {
      DashboardStatsOf(quotes)
    }
  }
}
