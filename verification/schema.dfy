/**
 * The shared record shapes (tables `customers`, `quotes`, `quote_items`), their insert
 * and partial-update shapes, and the `quoteRequestSchema` validation.
 *
 * Money is integer cents, instants are an abstract integer clock in milliseconds,
 * and `propertySize` is a real number because the request schema accepts any number >= 1.
 */
module Schema {
  import opened Wrappers

  /** A decimal money amount with two places, as integer cents. */
  type Cents = int

  /** An abstract clock reading, in milliseconds. */
  type Instant = int

  /** The four status values named beside the `status` column; nothing enforces them. */
  const Pending: string := "pending"
  const Approved: string := "approved"
  const Rejected: string := "rejected"
  const Completed: string := "completed"

  datatype Customer = Customer(
    id: nat,
    name: string,
    email: string,
    phone: string,
    address: string,
    createdAt: Instant)

  /** `InsertCustomer`: a customer without the server-assigned `id` and `createdAt`. */
  datatype InsertCustomer = InsertCustomer(
    name: string,
    email: string,
    phone: string,
    address: string)

  /**
   * A stored quote. `budgetRange`, `timeline` and `amount` are nullable (`None` stands for
   * both `null` and `undefined`); `requestedDate` is stored by the store although the table
   * declaration does not list it.
   */
  datatype Quote = Quote(
    id: nat,
    quoteNumber: string,
    customerId: int,
    projectType: string,
    propertySize: real,
    budgetRange: Option<string>,
    description: string,
    timeline: Option<string>,
    requestedDate: Instant,
    status: string,
    amount: Option<Cents>,
    validUntil: Option<Instant>,
    createdAt: Instant,
    updatedAt: Instant)

  /**
   * `InsertQuote`: a quote without `id`, `quoteNumber`, `createdAt` and `updatedAt`.
   * Columns with a default or a nullable type are optional.
   */
  datatype InsertQuote = InsertQuote(
    customerId: int,
    projectType: string,
    propertySize: real,
    budgetRange: Option<string>,
    description: string,
    timeline: Option<string>,
    requestedDate: Option<Instant>,
    status: Option<string>,
    amount: Option<Cents>,
    validUntil: Option<Instant>)

  datatype QuoteItem = QuoteItem(
    id: nat,
    quoteId: int,
    item: string,
    quantity: int,
    unitPrice: Cents,
    total: Cents)

  /** `InsertQuoteItem`: a quote item without its `id`. */
  datatype InsertQuoteItem = InsertQuoteItem(
    quoteId: int,
    item: string,
    quantity: int,
    unitPrice: Cents,
    total: Cents)

  /** `Partial<InsertCustomer>`: `Some` marks a key present in the patch. */
  datatype CustomerPatch = CustomerPatch(
    name: Option<string>,
    email: Option<string>,
    phone: Option<string>,
    address: Option<string>)

  /**
   * `Partial<InsertQuote>`. For a nullable column the patch value is itself optional:
   * `Some(None)` is a key present with value `null` or `undefined`, which overwrites.
   */
  datatype QuotePatch = QuotePatch(
    customerId: Option<int>,
    projectType: Option<string>,
    propertySize: Option<real>,
    budgetRange: Option<Option<string>>,
    description: Option<string>,
    timeline: Option<Option<string>>,
    requestedDate: Option<Instant>,
    status: Option<string>,
    amount: Option<Option<Cents>>,
    validUntil: Option<Option<Instant>>)

  /** `Partial<InsertQuoteItem>`. */
  datatype QuoteItemPatch = QuoteItemPatch(
    quoteId: Option<int>,
    item: Option<string>,
    quantity: Option<int>,
    unitPrice: Option<Cents>,
    total: Option<Cents>)

  /** The patch with no keys. */
  const EmptyQuotePatch: QuotePatch :=
    QuotePatch(None, None, None, None, None, None, None, None, None, None)

  /** The body of a public quote request. */
  datatype QuoteRequest = QuoteRequest(
    customerName: string,
    customerEmail: string,
    customerPhone: string,
    customerAddress: string,
    projectType: string,
    propertySize: real,
    budgetRange: Option<string>,
    description: string,
    timeline: Option<string>)

  /**
   * `quoteRequestSchema`: five non-empty strings, an e-mail address accepted by `isEmail`
   * (the format check is a parameter), a property size of at least 1 (not necessarily an
   * integer), and `budgetRange`/`timeline` unconstrained.
   */
  predicate ValidQuoteRequest(r: QuoteRequest, isEmail: string -> bool) {
    && |r.customerName| >= 1
    && isEmail(r.customerEmail)
    && |r.customerPhone| >= 1
    && |r.customerAddress| >= 1
    && |r.projectType| >= 1
    && r.propertySize >= 1.0
    && |r.description| >= 1
  }

  /** The keys of `quoteRequestSchema` that carry a constraint, in the schema's order. */
  datatype Field =
    | CustomerName | CustomerEmail | CustomerPhone | CustomerAddress
    | ProjectType | PropertySize | Description

  const CheckedFields: seq<Field> :=
    [CustomerName, CustomerEmail, CustomerPhone, CustomerAddress, ProjectType, PropertySize, Description]

  /** The key a failure is reported under. */
  function FieldKey(f: Field): string {
    match f
    case CustomerName => "customerName"
    case CustomerEmail => "customerEmail"
    case CustomerPhone => "customerPhone"
    case CustomerAddress => "customerAddress"
    case ProjectType => "projectType"
    case PropertySize => "propertySize"
    case Description => "description"
  }

  /** The schema's message for a failing field. */
  function FieldMessage(f: Field): string {
    match f
    case CustomerName => "Name is required"
    case CustomerEmail => "Valid email is required"
    case CustomerPhone => "Phone is required"
    case CustomerAddress => "Address is required"
    case ProjectType => "Project type is required"
    case PropertySize => "Property size must be greater than 0"
    case Description => "Description is required"
  }

  /** One entry of the 400 response's `details`: the failing key and the schema's message for it. */
  datatype Issue = Issue(path: string, message: string)

  function IssueOf(f: Field): Issue {
    Issue(FieldKey(f), FieldMessage(f))
  }

  /** Distinct fields are reported under distinct keys. */
  lemma FieldKeyInjective(f: Field, g: Field)
    ensures FieldKey(f) == FieldKey(g) <==> f == g
  {
  }

  /** The constraint the schema places on one field. */
  predicate FieldOk(r: QuoteRequest, f: Field, isEmail: string -> bool) {
    match f
    case CustomerName => |r.customerName| >= 1
    case CustomerEmail => isEmail(r.customerEmail)
    case CustomerPhone => |r.customerPhone| >= 1
    case CustomerAddress => |r.customerAddress| >= 1
    case ProjectType => |r.projectType| >= 1
    case PropertySize => r.propertySize >= 1.0
    case Description => |r.description| >= 1
  }

  /** The failing fields among `fields`, in order. */
  function FailingFields(r: QuoteRequest, fields: seq<Field>, isEmail: string -> bool): (bad: seq<Field>)
    ensures forall f :: f in bad <==> f in fields && !FieldOk(r, f, isEmail)
  {
    if fields == [] then []
    else (if FieldOk(r, fields[0], isEmail) then [] else [fields[0]]) + FailingFields(r, fields[1..], isEmail)
  }

  /** The fields `quoteRequestSchema.parse` reports: exactly the failing ones, and none when the request is valid. */
  function QuoteRequestIssues(r: QuoteRequest, isEmail: string -> bool): (issues: seq<Field>)
    ensures forall f :: f in issues <==> !FieldOk(r, f, isEmail)
    ensures issues == [] <==> ValidQuoteRequest(r, isEmail)
  {
    var bad := FailingFields(r, CheckedFields, isEmail);
    AllFieldsChecked();
    ValidIffAllFieldsOk(r, isEmail);
    assert bad != [] ==> bad[0] in bad;
    bad
  }

  /**
   * The `details` of a rejected request: one issue, with its key and message, for each failing
   * field and for no other; none exactly when the request is valid.
   */
  function ReportedIssues(r: QuoteRequest, isEmail: string -> bool): (issues: seq<Issue>)
    ensures forall f :: IssueOf(f) in issues <==> !FieldOk(r, f, isEmail)
    ensures forall x :: x in issues ==> exists f :: x == IssueOf(f)
    ensures issues == [] <==> ValidQuoteRequest(r, isEmail)
  {
    var fields := QuoteRequestIssues(r, isEmail);
    var issues := seq(|fields|, i requires 0 <= i < |fields| => IssueOf(fields[i]));
    forall f | IssueOf(f) in issues
      ensures !FieldOk(r, f, isEmail)
    {
      var i :| 0 <= i < |issues| && issues[i] == IssueOf(f);
      FieldKeyInjective(fields[i], f);
      assert fields[i] in fields;
    }
    forall f | !FieldOk(r, f, isEmail)
      ensures IssueOf(f) in issues
    {
      var i :| 0 <= i < |fields| && fields[i] == f;
      assert issues[i] == IssueOf(f);
    }
    issues
  }

  /** Validity is exactly "every field meets its constraint". */
  lemma ValidIffAllFieldsOk(r: QuoteRequest, isEmail: string -> bool)
    ensures ValidQuoteRequest(r, isEmail) <==> forall f :: FieldOk(r, f, isEmail)
  {
    if ValidQuoteRequest(r, isEmail) {
      forall f ensures FieldOk(r, f, isEmail) {
        match f { case _ => }
      }
    }
    if forall f :: FieldOk(r, f, isEmail) {
      assert FieldOk(r, CustomerName, isEmail) && FieldOk(r, CustomerEmail, isEmail);
      assert FieldOk(r, CustomerPhone, isEmail) && FieldOk(r, CustomerAddress, isEmail);
      assert FieldOk(r, ProjectType, isEmail) && FieldOk(r, PropertySize, isEmail);
      assert FieldOk(r, Description, isEmail);
    }
  }

  /** Every constrained field is checked. */
  lemma AllFieldsChecked()
    ensures forall f :: f in CheckedFields
  {
    forall f ensures f in CheckedFields {
      match f
      case CustomerName => assert CheckedFields[0] == f;
      case CustomerEmail => assert CheckedFields[1] == f;
      case CustomerPhone => assert CheckedFields[2] == f;
      case CustomerAddress => assert CheckedFields[3] == f;
      case ProjectType => assert CheckedFields[4] == f;
      case PropertySize => assert CheckedFields[5] == f;
      case Description => assert CheckedFields[6] == f;
    }
  }

  /** The optional fields never decide validity: any `budgetRange` and `timeline` give the same verdict. */
  lemma OptionalFieldsIrrelevant(r: QuoteRequest, budget: Option<string>, timeline: Option<string>, isEmail: string -> bool)
    ensures ValidQuoteRequest(r, isEmail) <==>
            ValidQuoteRequest(r.(budgetRange := budget, timeline := timeline), isEmail)
  {
  }

  /** `amount` as the aggregations read it: a missing amount counts as 0. */
  function AmountOrZero(q: Quote): Cents {
    q.amount.GetOr(0)
  }

  predicate IsApproved(q: Quote) {
    q.status == Approved
  }

  predicate IsPending(q: Quote) {
    q.status == Pending
  }

  predicate IsRejected(q: Quote) {
    q.status == Rejected
  }

  /** The `reduce` that adds up amounts, missing ones as 0. */
  function SumAmounts(qs: seq<Quote>): Cents {
    if qs == [] then 0 else AmountOrZero(qs[0]) + SumAmounts(qs[1..])
  }

  /** Summing amounts distributes over concatenation. */
  lemma {:induction false} SumAmountsAppend(s: seq<Quote>, t: seq<Quote>)
    ensures SumAmounts(s + t) == SumAmounts(s) + SumAmounts(t)
  {
    if s == [] {
      assert s + t == t;
    } else {
      assert (s + t)[1..] == s[1..] + t;
      SumAmountsAppend(s[1..], t);
    }
  }
}
