/**
 * The customers page: the per-customer quote statistics and the search box filter,
 * both computed in the browser from the lists the API returns.
 */
module CustomersPage {
  import opened Wrappers
  import opened Seqs
  import opened Text
  import opened Schema
  import opened Storage

  /** The four figures shown beside each customer. */
  datatype CustomerStats = CustomerStats(
    totalQuotes: nat,
    approvedQuotes: nat,
    pendingQuotes: nat,
    totalValue: Cents)

  /** The quotes whose `customerId` is `id`, in list order. */
  function QuotesOf(qs: seq<Quote>, id: int): (r: seq<Quote>)
    ensures IsSubsequence(r, qs)
    ensures forall q :: q in r <==> q in qs && q.customerId == id
  {
    var p := (q: Quote) => q.customerId == id;
    FilterIsSubsequence(qs, p);
    Filter(qs, p)
  }

  /** Extending the list extends the customer's quotes exactly when the new quote is theirs. */
  lemma QuotesOfSnoc(qs: seq<Quote>, q: Quote, id: int)
    ensures QuotesOf(qs + [q], id) == QuotesOf(qs, id) + (if q.customerId == id then [q] else [])
  {
    FilterSnoc(qs, q, (x: Quote) => x.customerId == id);
  }

  /**
   * `getCustomerStats`: the customer's quotes are counted in total, approved and pending, and
   * the amounts of the approved ones are added up (a missing amount adds nothing).
   */
  function GetCustomerStats(qs: seq<Quote>, id: int): (r: CustomerStats)
    ensures r.totalQuotes == |QuotesOf(qs, id)| <= |qs|
    ensures r.approvedQuotes == |Filter(QuotesOf(qs, id), IsApproved)|
    ensures r.pendingQuotes == |Filter(QuotesOf(qs, id), IsPending)|
    ensures r.approvedQuotes + r.pendingQuotes <= r.totalQuotes
    ensures r.totalValue == ApprovedRevenue(QuotesOf(qs, id))
    ensures r.totalQuotes == 0 <==> forall i :: 0 <= i < |qs| ==> qs[i].customerId != id
    ensures r.totalQuotes == 0 ==> r == CustomerStats(0, 0, 0, 0)
  {
    var mine := QuotesOf(qs, id);
    ExclusiveFilters(mine, IsApproved, IsPending);
    CustomerStats(
      totalQuotes := |mine|,
      approvedQuotes := |Filter(mine, IsApproved)|,
      pendingQuotes := |Filter(mine, IsPending)|,
      totalValue := SumAmounts(Filter(mine, IsApproved)))
  }

  /**
   * How a new quote moves one customer's figures: a quote of another customer changes
   * nothing; one of theirs adds one to the total, one to approved or pending according to its
   * status, and its amount to the value only when approved.
   */
  lemma {:induction false} CustomerStatsSnoc(qs: seq<Quote>, q: Quote, id: int)
    ensures var before, after := GetCustomerStats(qs, id), GetCustomerStats(qs + [q], id);
      if q.customerId != id then after == before
      else
        && after.totalQuotes == before.totalQuotes + 1
        && after.approvedQuotes == before.approvedQuotes + (if IsApproved(q) then 1 else 0)
        && after.pendingQuotes == before.pendingQuotes + (if IsPending(q) then 1 else 0)
        && after.totalValue == before.totalValue + RevenueContribution(q)
  {
    QuotesOfSnoc(qs, q, id);
    var mine := QuotesOf(qs, id);
    if q.customerId == id {
      FilterSnoc(mine, q, IsApproved);
      FilterSnoc(mine, q, IsPending);
      ApprovedRevenueSnoc(mine, q);
    } else {
      assert QuotesOf(qs + [q], id) == mine;
    }
  }

  /** The search test: the lower-cased term occurs in the lower-cased name, email, phone or address. */
  predicate CustomerMatches(c: Customer, term: string) {
    var t := Lower(term);
    Includes(Lower(c.name), t) || Includes(Lower(c.email), t) ||
    Includes(Lower(c.phone), t) || Includes(Lower(c.address), t)
  }

  /**
   * `filteredCustomers`: the customers matching the search term, in list order; an empty term
   * keeps every customer.
   */
  function FilteredCustomers(cs: seq<Customer>, term: string): (r: seq<Customer>)
    ensures IsSubsequence(r, cs)
    ensures forall c :: c in r <==> c in cs && CustomerMatches(c, term)
    ensures term == "" ==> r == cs
  {
    var p := (c: Customer) => CustomerMatches(c, term);
    FilterIsSubsequence(cs, p);
    EmptyTermKeepsAll(cs, term, p);
    Filter(cs, p)
  }

  /** With an empty term every customer matches. */
  lemma EmptyTermKeepsAll(cs: seq<Customer>, term: string, p: Customer -> bool)
    requires forall c :: p(c) == CustomerMatches(c, term)
    ensures term == "" ==> Filter(cs, p) == cs
  {
    if term == "" {
      forall i | 0 <= i < |cs|
        ensures p(cs[i])
      {
        IncludesEmpty(Lower(cs[i].name));
      }
      FilterAll(cs, p);
    }
  }

  /**
   * Typing more narrows the search: a customer found by a term is found by every part of it
   * (the characters case-folded by `toLowerCase` included).
   */
  lemma NarrowingSearch(c: Customer, longer: string, shorter: string)
    requires Includes(longer, shorter)
    requires CustomerMatches(c, longer)
    ensures CustomerMatches(c, shorter)
  {
    LowerIncludes(longer, shorter);
    var t, u := Lower(longer), Lower(shorter);
    if Includes(Lower(c.name), t) {
      IncludesTrans(Lower(c.name), t, u);
    } else if Includes(Lower(c.email), t) {
      IncludesTrans(Lower(c.email), t, u);
    } else if Includes(Lower(c.phone), t) {
      IncludesTrans(Lower(c.phone), t, u);
    } else {
      IncludesTrans(Lower(c.address), t, u);
    }
  }

  /** Every customer listed under a longer term is also listed under any part of it. */
  lemma FilteredCustomersNarrow(cs: seq<Customer>, longer: string, shorter: string)
    requires Includes(longer, shorter)
    ensures forall c :: c in FilteredCustomers(cs, longer) ==> c in FilteredCustomers(cs, shorter)
  {
    forall c | c in FilteredCustomers(cs, longer)
      ensures c in FilteredCustomers(cs, shorter)
    {
      NarrowingSearch(c, longer, shorter);
    }
  }
}
