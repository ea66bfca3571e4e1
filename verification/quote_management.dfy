/**
 * The quote management page: quotes joined with their customers, the search and status
 * filters, and the approve and reject buttons.
 */
module QuoteManagementPage {
  import opened Wrappers
  import opened Seqs
  import opened Text
  import opened Schema
  import opened Storage
  import Routes

  /** A quote with the customer it names, when the customer list has one. */
  datatype QuoteWithCustomer = QuoteWithCustomer(quote: Quote, customer: Option<Customer>)

  /** `customers.find(c => c.id === id)`: the first customer with that id. */
  function CustomerOf(cs: seq<Customer>, id: int): (r: Option<Customer>)
    ensures r.Some? ==> exists k :: 0 <= k < |cs| && cs[k] == r.value && r.value.id == id &&
                         forall j :: 0 <= j < k ==> cs[j].id != id
    ensures r.None? <==> forall j :: 0 <= j < |cs| ==> cs[j].id != id
  {
    match CustomerIndex(cs, id)
    case None => None
    case Some(k) =>
      assert forall j :: 0 <= j < k ==> cs[j].id != id by {
        FirstIndexIsFirst(cs, id, k);
      }
      Some(cs[k])
  }

  /** `CustomerIndex` finds the first position. */
  lemma FirstIndexIsFirst(cs: seq<Customer>, id: int, k: nat)
    requires CustomerIndex(cs, id) == Some(k)
    ensures forall j :: 0 <= j < k ==> cs[j].id != id
  {
    var p := (c: Customer) => c.id == id;
    assert CustomerIndex(cs, id) == FirstIndex(cs, p);
  }

  /** `quotesWithCustomers`: every quote, in order, with its customer attached. */
  function WithCustomers(qs: seq<Quote>, cs: seq<Customer>): (r: seq<QuoteWithCustomer>)
    ensures |r| == |qs|
    ensures forall i :: 0 <= i < |qs| ==> r[i].quote == qs[i] && r[i].customer == CustomerOf(cs, qs[i].customerId)
  {
    if qs == [] then []
    else [QuoteWithCustomer(qs[0], CustomerOf(cs, qs[0].customerId))] + WithCustomers(qs[1..], cs)
  }

  /**
   * The search test: an empty term matches everything; otherwise the lower-cased term occurs
   * in the quote number, the customer's name or email (only when there is a customer), or the
   * project type, each lower-cased.
   */
  predicate MatchesSearch(w: QuoteWithCustomer, term: string) {
    var t := Lower(term);
    term == "" ||
    Includes(Lower(w.quote.quoteNumber), t) ||
    (w.customer.Some? && Includes(Lower(w.customer.value.name), t)) ||
    (w.customer.Some? && Includes(Lower(w.customer.value.email), t)) ||
    Includes(Lower(w.quote.projectType), t)
  }

  /** The status test: an empty filter matches everything, otherwise the exact status. */
  predicate MatchesStatus(w: QuoteWithCustomer, status: string) {
    status == "" || w.quote.status == status
  }

  /** The date test, which is not implemented: it accepts every quote whatever the filter. */
  predicate MatchesDate(w: QuoteWithCustomer, date: string) {
    date == "" || true
  }

  predicate Shown(w: QuoteWithCustomer, term: string, status: string, date: string) {
    MatchesSearch(w, term) && MatchesStatus(w, status) && MatchesDate(w, date)
  }

  /**
   * `filteredQuotes`: the quotes passing the search and status filters, in list order; the
   * date filter never removes a quote, and with no search term and no status every quote is shown.
   */
  function FilteredQuotes(ws: seq<QuoteWithCustomer>, term: string, status: string, date: string)
    : (r: seq<QuoteWithCustomer>)
    ensures IsSubsequence(r, ws)
    ensures forall w :: w in r <==> w in ws && MatchesSearch(w, term) && MatchesStatus(w, status)
    ensures term == "" && status == "" ==> r == ws
  {
    var p := (w: QuoteWithCustomer) => Shown(w, term, status, date);
    FilterIsSubsequence(ws, p);
    if term == "" && status == "" then
      FilterAll(ws, p);
      Filter(ws, p)
    else
      Filter(ws, p)
  }

  /** The date filter has no effect on what is shown. */
  lemma DateFilterIgnored(ws: seq<QuoteWithCustomer>, term: string, status: string, d1: string, d2: string)
    ensures FilteredQuotes(ws, term, status, d1) == FilteredQuotes(ws, term, status, d2)
  {
    var p1 := (w: QuoteWithCustomer) => Shown(w, term, status, d1);
    var p2 := (w: QuoteWithCustomer) => Shown(w, term, status, d2);
    SameFilter(ws, p1, p2);
  }

  /** Two tests that agree everywhere filter alike. */
  lemma {:induction false} SameFilter<T>(s: seq<T>, p: T -> bool, q: T -> bool)
    requires forall x :: p(x) == q(x)
    ensures Filter(s, p) == Filter(s, q)
  {
    if s != [] {
      SameFilter(s[1..], p, q);
    }
  }

  /** A quote found by a search term is found by every part of it. */
  lemma NarrowingSearch(w: QuoteWithCustomer, longer: string, shorter: string)
    requires Includes(longer, shorter)
    requires MatchesSearch(w, longer)
    ensures MatchesSearch(w, shorter)
  {
    if shorter != "" {
      LowerIncludes(longer, shorter);
      var t, u := Lower(longer), Lower(shorter);
      assert longer != "" by {
        IncludesIffOccurs(longer, shorter);
      }
      if Includes(Lower(w.quote.quoteNumber), t) {
        IncludesTrans(Lower(w.quote.quoteNumber), t, u);
      } else if w.customer.Some? && Includes(Lower(w.customer.value.name), t) {
        IncludesTrans(Lower(w.customer.value.name), t, u);
      } else if w.customer.Some? && Includes(Lower(w.customer.value.email), t) {
        IncludesTrans(Lower(w.customer.value.email), t, u);
      } else {
        IncludesTrans(Lower(w.quote.projectType), t, u);
      }
    }
  }

  /** The approve and reject buttons are rendered only for pending quotes. */
  predicate OffersDecision(q: Quote) {
    q.status == Pending
  }

  /** What the amount prompt gave back: dismissed (`null`) or the text typed. */
  datatype PromptResult = Dismissed | Typed(text: string)

  /** What a click sends to the server, if anything. */
  datatype Action = SendApprove(id: int, amount: real) | SendReject(id: int) | NoAction

  /**
   * `parseFloat(prompt(...) || "0")`: a dismissed prompt or an empty answer reads as `"0"`;
   * `parseFloat` is a parameter, with `None` standing for `NaN`.
   */
  function EnteredAmount(p: PromptResult, parseFloat: string -> Option<real>): Option<real> {
    match p
    case Dismissed => parseFloat("0")
    case Typed(text) => parseFloat(if text == "" then "0" else text)
  }

  /**
   * `handleApprove` on a row: an approval is sent, for that quote and with the amount entered,
   * exactly when the row offers the button and the amount is a number above zero.
   */
  function OnApproveClick(q: Quote, p: PromptResult, parseFloat: string -> Option<real>): (a: Action)
    ensures a.SendApprove? <==>
      OffersDecision(q) && EnteredAmount(p, parseFloat).Some? && EnteredAmount(p, parseFloat).value > 0.0
    ensures a.SendApprove? ==> a.id == q.id && a.amount == EnteredAmount(p, parseFloat).value
    ensures !a.SendReject?
  {
    if !OffersDecision(q) then NoAction
    else match EnteredAmount(p, parseFloat)
      case Some(x) => if x > 0.0 then SendApprove(q.id, x) else NoAction
      case None => NoAction
  }

  /** Dismissing the prompt never approves, when `parseFloat("0")` is 0 as it is in JavaScript. */
  lemma DismissNeverApproves(q: Quote, parseFloat: string -> Option<real>)
    requires parseFloat("0") == Some(0.0)
    ensures OnApproveClick(q, Dismissed, parseFloat) == NoAction
    ensures OnApproveClick(q, Typed(""), parseFloat) == NoAction
  {
  }

  /** `handleReject` on a row: a rejection is sent exactly when the row offers it and the user confirms. */
  function OnRejectClick(q: Quote, confirmed: bool): (a: Action)
    ensures a.SendReject? <==> OffersDecision(q) && confirmed
    ensures a.SendReject? ==> a.id == q.id
    ensures !a.SendApprove?
  {
    if OffersDecision(q) && confirmed then SendReject(q.id) else NoAction
  }

  /**
   * Approvals sent from this page only ever target pending quotes, so on the server each one
   * raises the approved count by one, lowers the pending count by one and adds to the revenue
   * exactly the amount typed in the prompt (in cents). `qs` is the server's table, taken to be
   * the list the page shows.
   */
  lemma ApproveFromPage(qs: seq<Quote>, k: nat, p: PromptResult, parseFloat: string -> Option<real>,
                        amount: Cents, now: Instant)
    requires k < |qs|
    requires OnApproveClick(qs[k], p, parseFloat).SendApprove?
    requires amount as real == 100.0 * OnApproveClick(qs[k], p, parseFloat).amount
    ensures var after := DashboardStatsOf(qs[k := MergeQuote(qs[k], Routes.ApprovePatch(Some(amount)), now)]);
            var before := DashboardStatsOf(qs);
            && after.totalRevenue == before.totalRevenue + amount
            && after.totalRevenue > before.totalRevenue
            && after.approvedQuotes == before.approvedQuotes + 1
            && after.pendingQuotes == before.pendingQuotes - 1
  {
    Routes.ApproveEffectOnStats(qs, k, Some(amount), now);
  }
}
