# CleanCutYardWorks quote management, modelled in Dafny

This project models the core of CleanCutYardWorks, a quote-management web application for a
landscaping business. Customers ask for a quote. Staff approve or reject it. Pages summarise the
quotes.

The model covers four parts:

- `MemStorage`, the server's in-memory store of customers, quotes and quote line items, with its
  id counters and its `QT-2024-NNN` quote numbers (`Storage`, a class whose methods update the
  tables in place);
- the HTTP handlers that validate a quote request, find or create its customer, and approve,
  reject, patch and list quotes (`Routes`: methods over the store that return the response as a
  value);
- the `quoteRequestSchema` validation (`Schema`);
- the browser-side computations: per-customer statistics and customer search (`CustomersPage`);
  conversion rate, average value, the project-type breakdown and the ten newest quotes, sorted in
  place (`ReportsPage`); and the quote list joined with customers, its search and status filters,
  and the approve/reject buttons (`QuoteManagementPage`).

Helper modules: `Wrappers` (Option), `Seqs` (filter, find, first index, sub-lists), `Text` (ASCII
lower-casing, `includes`, decimal rendering, `padStart`, `parseInt`).

Representation choices:

- Each `Map` of the store is a sequence of records in insertion order. `Map.set` on an existing
  key replaces the record in place. `Map.delete` removes it.
- Money is integer cents, `Option<Cents>`. `None` stands for `null`, `undefined` or the empty
  string.
- Times are integer milliseconds.
- Percentages and averages are `real`.
- The clock (`now`) and the email-format check (`isEmail`) are parameters.

## Model

| member | source | states |
|---|---|---|
| Schema.QuoteRequestIssues | shared/schema.ts:55-65 | the fields reported are exactly those whose constraint fails (non-empty name, phone, address, project type, description; valid email; property size at least 1); no field is reported exactly when the request is valid |
| Schema.ValidQuoteRequest | shared/schema.ts:55-65 | the schema's verdict: non-empty name, phone, address, project type and description, a valid email, property size at least 1; its two directions are stated by `ValidIffAllFieldsOk` and `QuoteRequestIssues` |
| Schema.ReportedIssues | server/routes.ts:134-135 | the 400's details hold an issue, with the field's key and message, for exactly the fields that fail, and nothing else; none exactly when the request is valid |
| Schema.FieldKeyInjective | shared/schema.ts:56-63 | two fields have the same key if and only if they are the same field, so an issue names one field |
| Schema.ValidIffAllFieldsOk | shared/schema.ts:55-65 | a request is valid if and only if every constrained field passes its own check |
| Schema.OptionalFieldsIrrelevant | shared/schema.ts:62-64 | `budgetRange` and `timeline` never affect validity |
| Schema.FailingFields | shared/schema.ts:55-65 | the failing sub-list holds exactly the checked fields whose check fails |
| Schema.SumAmounts | server/storage.ts:283-285 | the amounts added up, a missing amount counting 0; `SumAmountsAppend` states how it splits |
| Schema.SumAmountsAppend | server/storage.ts:283-285 | the sum of amounts over a concatenation is the sum of the two sums |
| Storage.QuoteNumber | server/storage.ts:201 | the number minted from a counter; its format, round trip and injectivity are stated by the three lemmas below |
| Storage.QuoteNumberFormat | server/storage.ts:201 | a quote number is `QT-2024-` followed by at least three digits, exactly three below 1000 |
| Storage.QuoteNumberRoundTrip | server/storage.ts:201 | the counter value reads back out of the quote number minted from it |
| Storage.QuoteNumberInjective | server/storage.ts:201 | two counter values give the same quote number if and only if they are equal |
| Storage.OrNull | server/storage.ts:210-212 | `x \|\| null` yields null exactly for an absent or empty string, otherwise the value itself |
| Storage.NewQuote | server/storage.ts:199-219 | the stored quote keeps the given fields; status defaults to pending; budget range and timeline become null when absent or empty; requested date defaults to now; valid-until is thirty days after now; both timestamps are now |
| Storage.MergeCustomer | server/storage.ts:177-184 | keys present in the patch overwrite; absent keys, the id and the creation time are kept |
| Storage.MergeQuote | server/storage.ts:225-232 | keys present in the patch overwrite, including the nullable budget range, timeline, amount and valid-until cleared to null; id, number and creation time are kept; `updatedAt` is now |
| Storage.MergeQuoteIdempotent | server/storage.ts:225-232 | applying the same patch twice equals applying it once at the later time |
| Storage.MergeQuoteClearsValidUntil | server/storage.ts:229 | a patch whose `validUntil` is null clears the expiry, refreshes `updatedAt` and changes nothing else |
| Storage.MergeQuoteEmpty | server/storage.ts:225-232 | the empty patch changes only `updatedAt` |
| Storage.MergeItem | server/storage.ts:258-265 | item keys present in the patch overwrite; the id is kept; the total is taken as given |
| Storage.QuotesAppend | server/storage.ts:199-222 | appending the quote minted from the counter keeps ids increasing and numbers tied to ids |
| Storage.QuotesReplace | server/storage.ts:225-232 | replacing a quote by one with the same id and number keeps the table well formed |
| Storage.ItemsRemove | server/storage.ts:267-269 | removing one item keeps item ids in range and increasing |
| Storage.ItemsRemoveContents | server/storage.ts:267-269 | removing the item at a position removes exactly the records with its id |
| Storage.DistinctQuoteNumbers | server/storage.ts:199-201 | in a well-formed table no two quotes share a number |
| Storage.CustomerIndex | server/storage.ts:158-160 | the position found holds that id; none is found exactly when no customer has it |
| Storage.QuoteIndex | server/storage.ts:191-193 | the position found holds that id; none is found exactly when no quote has it |
| Storage.ItemIndex | server/storage.ts:258-260 | the position found holds that id; none is found exactly when no item has it |
| Storage.ApprovedRevenueSnoc | server/storage.ts:279-285 | a new quote raises the approved revenue by its amount when approved, by nothing otherwise |
| Storage.ApprovedRevenueUpdate | server/storage.ts:279-285 | replacing a quote shifts the approved revenue by the difference of the two contributions |
| Storage.DashboardStatsOf | server/storage.ts:272-304 | the total is the number of quotes; approved and pending are the counts of those statuses and together at most the total; revenue is the approved amounts summed; the monthly series is the fixed six-month placeholder |
| Storage.MemStorage.constructor | server/storage.ts:55-66 | an empty store with every counter at 1 |
| Storage.MemStorage.GetCustomer | server/storage.ts:158-160 | a stored customer with that id, or not found exactly when none has it |
| Storage.MemStorage.GetCustomerByEmail | server/storage.ts:162-164 | the first customer in insertion order with exactly that email, or none exactly when no customer has it |
| Storage.MemStorage.CreateCustomer | server/storage.ts:166-175 | the customer takes the current id, which advances by one; it is appended; nothing else changes |
| Storage.MemStorage.UpdateCustomer | server/storage.ts:177-184 | the merged record replaces the old one in place, or not found with the whole store unchanged |
| Storage.MemStorage.GetQuote | server/storage.ts:191-193 | a stored quote with that id, or not found exactly when none has it |
| Storage.MemStorage.GetQuoteByNumber | server/storage.ts:195-197 | a stored quote with exactly that number, or none exactly when no quote has it |
| Storage.MemStorage.GetAllCustomers | server/storage.ts:186-188 | every stored customer, in insertion order |
| Storage.MemStorage.GetAllQuotes | server/storage.ts:234-236 | every stored quote, in insertion order |
| Storage.MemStorage.CreateQuote | server/storage.ts:199-223 | the new quote takes the current id and a number that differs from every stored one; both counters advance; it is appended; nothing else changes |
| Storage.MemStorage.UpdateQuote | server/storage.ts:225-232 | the merged quote replaces the old one at the same position, or not found with the whole store unchanged |
| Storage.MemStorage.GetQuotesByCustomer | server/storage.ts:238-240 | exactly that customer's quotes, in insertion order |
| Storage.MemStorage.GetQuotesByStatus | server/storage.ts:242-244 | exactly the quotes with that status, in insertion order |
| Storage.MemStorage.GetQuoteItems | server/storage.ts:247-249 | exactly that quote's items, in insertion order |
| Storage.MemStorage.AddQuoteItem | server/storage.ts:251-256 | the item takes the current item id, which advances; it is appended with its total as given |
| Storage.MemStorage.UpdateQuoteItem | server/storage.ts:258-265 | the merged item replaces the old one in place, or not found with the whole store unchanged |
| Storage.MemStorage.DeleteQuoteItem | server/storage.ts:267-269 | true exactly when an item had that id; afterwards none has it, every other item remains, order kept; false with the whole store unchanged |
| Storage.MemStorage.GetDashboardStats | server/storage.ts:272-304 | the figures `DashboardStatsOf` gives for the stored quotes |
| Routes.ListCustomers | server/routes.ts:19-26 | every stored customer, in insertion order |
| Routes.Found | server/routes.ts:28-39 | a 404 exactly when the record is missing, otherwise a 200 with it (also `GET /api/quotes/:id`, lines 81-92) |
| Routes.CreateCustomerRoute | server/routes.ts:41-60 | a 409 with the whole store unchanged when the email is taken; otherwise a 201, exactly one customer appended with the current id, the customer counter advanced by one and the other counters kept; unique emails stay unique |
| Routes.ListQuotes | server/routes.ts:62-79 | a non-empty status wins; otherwise a numeric customer id selects that customer's quotes and a non-numeric one nothing; with neither, all quotes |
| Routes.RequestedQuote | server/routes.ts:120-130 | the insert built from the request: that customer, the request's project fields, requested now, pending, no amount, no valid-until |
| Routes.RequestQuote | server/routes.ts:104-139 | an invalid request is a 400 whose issues are exactly the failing fields, with the whole store unchanged; otherwise the customer with that email is reused or exactly one is created with the next customer id, and exactly one quote is appended: the one `createQuote` mints from the current quote id and number (pending, no amount, valid thirty days from now), with both quote counters advanced and the item counter kept |
| Routes.PatchQuote | server/routes.ts:141-155 | the patched quote replaces the old one in place and nothing else changes, not even a counter; or a 404 with the whole store unchanged |
| Routes.AddQuoteItemRoute | server/routes.ts:157-172 | always a 201; a `quoteId` in the body wins over the path's; the item takes the current item id, is appended with its total as sent, the item counter advances by one and nothing else changes |
| Routes.ApprovePatch | server/routes.ts:179-182 | exactly two keys: status approved and the amount key, present even when no amount is given |
| Routes.RejectPatch | server/routes.ts:198 | exactly one key: status rejected, so the amount is left alone |
| Routes.ApproveQuote | server/routes.ts:174-192 | a 404 with the whole store unchanged exactly for an unknown id; otherwise, whatever the prior status, the quote becomes approved with the given amount (none when none is given) and nothing else changes, not even a counter; approving a pending quote raises the revenue by the amount, approved by one and lowers pending by one |
| Routes.RejectQuote | server/routes.ts:194-208 | a 404 with the whole store unchanged exactly for an unknown id; otherwise, whatever the prior status, the quote becomes rejected with its amount kept and nothing else changes, not even a counter; rejecting a pending quote lowers pending by one and leaves approvals and revenue alone |
| Routes.ApproveEffectOnStats | server/routes.ts:174-192 | approving moves the revenue by the new amount minus the old contribution; for a pending quote, revenue plus amount, approved plus one, pending minus one |
| Routes.RejectEffectOnStats | server/routes.ts:194-208 | rejecting a pending quote keeps revenue and approvals and lowers pending by one |
| Routes.ApproveTwice | server/routes.ts:174-192 | approving twice with the same amount leaves the record of one approval |
| CustomersPage.QuotesOf | client/src/pages/customers.tsx:51 | exactly the customer's quotes, in list order |
| CustomersPage.QuotesOfSnoc | client/src/pages/customers.tsx:51 | a new quote extends the customer's list exactly when it is theirs |
| CustomersPage.GetCustomerStats | client/src/pages/customers.tsx:50-64 | counts of the customer's quotes, approved and pending (together at most the total), the approved amounts summed; zero quotes exactly when none is theirs, and then all zeros |
| CustomersPage.CustomerStatsSnoc | client/src/pages/customers.tsx:50-64 | another customer's quote changes nothing; one of theirs adds one to the total, one to its status count, and its amount to the value only when approved |
| CustomersPage.CustomerMatches | client/src/pages/customers.tsx:39-45 | the search test of one customer; `NarrowingSearch` and `EmptyTermKeepsAll` state its properties |
| CustomersPage.FilteredCustomers | client/src/pages/customers.tsx:38-47 | exactly the customers whose lower-cased name, email, phone or address contains the lower-cased term, in order; an empty term keeps all |
| CustomersPage.EmptyTermKeepsAll | client/src/pages/customers.tsx:38-47 | an empty term matches every customer |
| CustomersPage.NarrowingSearch | client/src/pages/customers.tsx:38-47 | a customer found by a term is found by every part of it |
| CustomersPage.FilteredCustomersNarrow | client/src/pages/customers.tsx:38-47 | every customer listed under a longer term is listed under any part of it |
| ReportsPage.Keys | client/src/pages/reports.tsx:57-60 | the keys of the breakdown, one per entry, in order |
| ReportsPage.BumpSpec | client/src/pages/reports.tsx:58 | counting a type adds one for it and nothing for any other; a new type is appended as the last key; keys stay distinct; the total rises by one |
| ReportsPage.CountOfType | client/src/pages/reports.tsx:57-60 | the count of a type is at most the number of quotes |
| ReportsPage.CountOfTypePositive | client/src/pages/reports.tsx:57-60 | a type has a positive count exactly when some quote has it |
| ReportsPage.TallyTypes | client/src/pages/reports.tsx:57-60 | the project-type breakdown built one quote at a time; `TallyTypesCorrect` and `TallyTypesSnoc` state what it holds |
| ReportsPage.TallyTypesCorrect | client/src/pages/reports.tsx:57-60 | no type listed twice; each listed with its number of quotes; a type listed exactly when some quote has it; counts sum to the number of quotes |
| ReportsPage.TallyTypesSnoc | client/src/pages/reports.tsx:57-60 | keys keep first-occurrence order: a new quote's type is appended only when not yet present |
| ReportsPage.Percent | client/src/pages/reports.tsx:241 | one type's share of the quotes in percent; `SumPercentsTotal` and `PercentagesSumTo100` state its properties |
| ReportsPage.SumPercentsTotal | client/src/pages/reports.tsx:232-241 | the percentages summed equal the counts summed over the total times 100 |
| ReportsPage.TallyTypesTotal | client/src/pages/reports.tsx:57-60 | the counts add up to the number of quotes |
| ReportsPage.PercentagesSumTo100 | client/src/pages/reports.tsx:232-241 | with at least one quote the shown percentages add up to 100 |
| ReportsPage.Rate | client/src/pages/reports.tsx:51 | the share in percent, between 0 and 100, and 0 with no quotes |
| ReportsPage.Mean | client/src/pages/reports.tsx:52-54 | the mean times the count is the sum; 0 when there is nothing to average |
| ReportsPage.CalculateMetrics | client/src/pages/reports.tsx:46-69 | conversion rate from the approved count; average of the approved amounts; the type breakdown; rejected and pending counts; approved, rejected and pending together at most the total |
| ReportsPage.SortNewestFirst | client/src/pages/reports.tsx:74-75 | the array is reordered in place to be newest first and keeps the same quotes |
| ReportsPage.InsertNewest | client/src/pages/reports.tsx:74-75 | one insertion step extends the newest-first prefix by one and leaves the rest alone |
| ReportsPage.InsertingStep | client/src/pages/reports.tsx:74-75 | moving the quote being inserted one place down past an older one keeps the partial order |
| ReportsPage.InsertingDone | client/src/pages/reports.tsx:74-75 | when the quote being inserted is not newer than the one before it, the prefix is newest first |
| ReportsPage.RecentQuotes | client/src/pages/reports.tsx:73-76 | the first ten (or all) after sorting: newest first, and no quote left out is newer than one shown |
| QuoteManagementPage.CustomerOf | client/src/pages/quote-management.tsx:103 | the first customer with that id, or none exactly when no customer has it |
| QuoteManagementPage.FirstIndexIsFirst | client/src/pages/quote-management.tsx:103 | no earlier customer has the id |
| QuoteManagementPage.WithCustomers | client/src/pages/quote-management.tsx:101-104 | every quote, in order, with its customer attached |
| QuoteManagementPage.MatchesSearch | client/src/pages/quote-management.tsx:108-112 | the search test of one quote: an empty term, or the lower-cased term inside the quote number, the customer's name or email (when the customer is known) or the project type; `NarrowingSearch` states its property |
| QuoteManagementPage.MatchesStatus | client/src/pages/quote-management.tsx:114 | no status chosen, or the quote has exactly that status |
| QuoteManagementPage.MatchesDate | client/src/pages/quote-management.tsx:116-117 | the unimplemented date test; `DateFilterIgnored` states that it never excludes a quote |
| QuoteManagementPage.FilteredQuotes | client/src/pages/quote-management.tsx:107-120 | exactly the quotes passing the search and status filters, in order; no term and no status keeps all |
| QuoteManagementPage.DateFilterIgnored | client/src/pages/quote-management.tsx:116-117 | the date filter never changes the list |
| QuoteManagementPage.NarrowingSearch | client/src/pages/quote-management.tsx:108-112 | a quote found by a term is found by every part of it |
| QuoteManagementPage.OffersDecision | client/src/pages/quote-management.tsx:316 | a row shows the approve and reject buttons exactly when its quote is pending |
| QuoteManagementPage.EnteredAmount | client/src/pages/quote-management.tsx:144 | `parseFloat(prompt(...) \|\| "0")`: a dismissed or empty prompt reads as `"0"`, anything else as typed; `DismissNeverApproves` states the consequence |
| QuoteManagementPage.OnApproveClick | client/src/pages/quote-management.tsx:142-148 | an approval is sent, for that quote with the amount entered, exactly when its row offers the button and the amount is above zero |
| QuoteManagementPage.DismissNeverApproves | client/src/pages/quote-management.tsx:144 | a dismissed or empty prompt never approves |
| QuoteManagementPage.OnRejectClick | client/src/pages/quote-management.tsx:150-154 | a rejection is sent exactly when its row offers the button and the user confirms |
| QuoteManagementPage.ApproveFromPage | client/src/pages/quote-management.tsx:142-148 | an approval sent by a click carries the amount the user typed, in cents, and targets a pending quote, so it raises revenue by exactly that amount (a rise, since the amount is above zero), approved by one, and lowers pending by one |
| Seqs.Filter | server/storage.ts:238-249 | a kept element satisfies the test; every element satisfying it is kept; the result is no longer than the input |
| Seqs.FilterIsSubsequence | server/storage.ts:238-249 | filtering keeps the original order |
| Seqs.ExclusiveFilters | server/storage.ts:279-280 | two disjoint filters together keep at most the whole list |
| Seqs.FirstIndex | server/storage.ts:162-164 | the first position satisfying the test, or none exactly when no position does |
| Seqs.Find | server/storage.ts:162-164 | the first element satisfying the test, or none exactly when none does |
| Seqs.Take | client/src/pages/reports.tsx:76 | the first `n` elements, or all when fewer |
| Text.Lower | client/src/pages/customers.tsx:39-45 | same length, each character lower-cased |
| Text.Includes | client/src/pages/customers.tsx:42-45 | `includes`; `IncludesIffOccurs` states its meaning |
| Text.IncludesIffOccurs | client/src/pages/customers.tsx:42-45 | `includes` holds if and only if the term occurs at some position |
| Text.IncludesTrans | client/src/pages/customers.tsx:42-45 | a string containing a term contains every part of the term |
| Text.LowerIncludes | client/src/pages/customers.tsx:39-45 | lower-casing both sides keeps an occurrence |
| Text.Decimal | server/storage.ts:201 | `String(n)` is at least one digit, all digits, with no leading zero |
| Text.DecimalRoundTrip | server/storage.ts:201 | the digits of `String(n)` read back as `n` |
| Text.PadStart | server/storage.ts:201 | `padStart(width, fill)`: the string itself when it is already that wide, otherwise fill characters in front of it up to the width |
| Text.PaddedDecimalRoundTrip | server/storage.ts:201 | the zero-padded digits still read back as `n` |
| Text.TrimStart | server/routes.ts:70 | drops exactly the leading blanks: the dropped prefix is all blanks, and what is left is empty or starts with a non-blank; a string not starting with a blank is kept whole |
| Text.ParseInt | server/routes.ts:70 | `parseInt` without a radix: leading blanks skipped, an optional sign, a `0x`/`0X` prefix read as hex, otherwise the longest run of decimal digits, the rest ignored; NaN when no digit follows; the lemmas below state cases |
| Text.ParseIntDigits | server/routes.ts:70 | a string of decimal digits reads as its value |
| Text.ParseIntDecimal | server/routes.ts:70 | `parseInt` of `String(n)` is `n` |
| Text.ParseIntHex | server/routes.ts:70 | `"0x10"` reads as 16 |
| Text.ParseIntTrailing | server/routes.ts:70 | `"12a"` reads as 12 |
| Text.ParseIntBlankSign | server/routes.ts:70 | `" -7"` reads as -7 |
| Text.ParseIntEmptyHex | server/routes.ts:70 | `"0x"` is NaN |

## Left out

- Sample data seeding (`initializeSampleData`, server/storage.ts:68-155): the store starts empty; seeding is fixed data.
- Promises, `try`/`catch` and the 500 responses: every store operation here completes, so no handler can fail that way.
- Express routing and the `parseInt` of path ids: handlers take the id as an integer. `parseInt` is modelled only for the `customerId` query.
- Text.ParseInt: only the ASCII blanks (space, tab, line feed, carriage return, vertical tab, form feed) are skipped before the number. JavaScript also skips other Unicode white space such as U+00A0, U+FEFF and the line separators; that is not modelled. Numbers are unbounded, so a very long digit run keeps its exact value where JavaScript would round it.
- `GET /api/dashboard/stats` and `GET /api/quotes/:id/items` return a store query unchanged, so they are `MemStorage.GetDashboardStats` and `MemStorage.GetQuoteItems` with no separate member; `GET /api/customers` is `Routes.ListCustomers`.
- Dates: `setDate(getDate() + 30)` is modelled as exactly 30 × 86 400 000 ms, ignoring daylight-saving changes. The separate `new Date()` calls of one operation are one `now`.
- Decimal columns and `parseFloat` on amounts: amounts are integer cents, and the string form of a decimal is not modelled.
- JavaScript number limits: counters and sums are unbounded.
- Storage.MergeQuote: patches are typed to the insert shape. The untyped PATCH body could also overwrite `id`, `quoteNumber` or `createdAt`, and could store values of other types; that is not modelled.
- Routes.CreateCustomerRoute: `insertCustomerSchema.parse` checks only the field types, and the typed body already has them, so its 400 path is not modelled.
- Schema.QuoteRequestIssues: the email regex is the parameter `isEmail`.
- Schema.ReportedIssues: each issue carries the field's key and the schema's own message for it, as written in shared/schema.ts:56-63. zod's `code` and its other fields are not modelled, and the path is the key alone rather than a one-element array.
- Routes.RequestQuote: zod also rejects a body whose fields are missing or of the wrong type, with its own `invalid_type` messages. The request body is typed here, so that 400 path is not modelled; only the schema's constraints on present, well-typed fields are.
- Text.Lower: lower-cases ASCII letters only, not Unicode.
- ReportsPage.TallyTypes: the tally starts from `{}`, which inherits the names of `Object.prototype`. A project type such as `constructor`, `toString`, `hasOwnProperty`, `valueOf` or `__proto__` makes `(acc[k] || 0) + 1` read an inherited member instead of 0, giving a string or, for `__proto__`, no own key at all; the model counts every type from 0. Keys are kept in first-insertion order, whereas JavaScript lists integer-like keys first.
- ReportsPage.SortNewestFirst: stability is not proved. A `null` `createdAt` (read as time 0) does not arise, because every stored quote has one.
- The quote modal, PDF generator, calendar, dashboard and quote-request pages, toasts, screen-reader announcements and cache invalidation: presentation only.
- QuoteManagementPage.ApproveFromPage: the page's cached quote list is taken to be the server's current table. A stale list is not modelled; on the server the quote may by then be approved or rejected, and then `ApproveEffectOnStats` gives the effect instead. An amount typed with a fraction of a cent cannot meet the requirement that the amount sent is whole cents.
- Storage.MemStorage.UpdateCustomer: no route calls it, and it can give two customers the same email. The uniqueness invariant is stated only for the routes.

Behaviour kept as the code has it:

- Quote numbers always read `QT-2024-`, whatever the year.
- Approve and reject accept any prior status, so a rejected or completed quote can be approved again.
- Approving without an amount clears any stored amount.
- A line item's `total` is stored as sent and never checked against quantity × unit price.
- `propertySize` may be any number of at least 1, including a fraction, although the column is an integer.
