# Bank statement converter — a Dafny model

This project models the core of a web service that turns bank statement PDFs into spreadsheets:

- **The statement text parser** (`frontend/src/utils/pdfProcessor.js`). It reads account information from the flattened text of a statement. It then reads four transaction categories: deposits, ATM withdrawals, checks paid and card purchases. Each category has its own section pattern and row pattern.
- **The serializers** that write the parsed statement out:
  - the multi-sheet workbook (`excelGenerator.js`);
  - the simplified workbook (`simpleExcelGenerator.js`);
  - the sectioned CSV of the earlier results panel (`frontend-react-old/.../Results.jsx`);
  - the side-by-side CSV of the converter page (`Converter.jsx`);
  - the count, currency and file-name helpers of the current results panel (`frontend/src/components/Results.jsx`).
- **The page quota of the backend** (`backend/server.py`, `backend/models.py`):
  - sign-up, which gives 7 free pages a day;
  - the daily reset of the free tier;
  - the page check;
  - the page deduction of a conversion;
  - the profile update;
  - stripping the code fence from a model answer;
  - the form validators and the enumerations.
- **Subscriptions** (`backend/dodo_payments.py`, `backend/dodo_routes.py`): the product catalogue, subscription creation, the customer portal, the webhook state machine and the enterprise contact form.
- **Small utilities:**
  - the document library page (filter, sort, delete, download name);
  - the anonymous-visitor fingerprint (the 32-bit fallback hash, the hex encoding, the session cache);
  - the blog proxy (target URL, header and body forwarding);
  - the three client-side blog rewrites.

Each module follows the source's own form:

- State that the source updates in place is a `class` whose methods carry `modifies` clauses: the backend collections (`Server.Store`, `DodoRoutes.PaymentsDb`), the pages (`Converter.ConverterPage`, `Documents.DocumentsPage`) and the fingerprint cache (`Fingerprint.BrowserFingerprint`).
- Each `exec` loop and `forEach` push is a `method` with a loop. Its `ensures` ties the result to a function of the inputs, and the properties are lemmas about that function.
- Pure expressions are functions with lemmas.

Modelling choices:

- **Amounts are integer cents.** Every amount the statement patterns accept has exactly two decimals. So on parsed statements `parseFloat`, `toFixed(2)` and the en-US currency format are written exactly on cents (module `Money`). Records extracted by Gemini arrive as JSON numbers, which this does not cover (see "Left out").
- **Regular expressions are left-to-right scanners** (module `PdfPatterns`):
  - every greedy repetition in these patterns is forced, since what follows it can never begin with a character the repetition could give back;
  - the one lazy group, a description, ends at the first position from which the rest of the row matches;
  - `/i` and `toLowerCase`/`lower()` fold ASCII letters only, which loses the folding of other capitals (see "Left out").
- **A missing transaction list is the empty list.** Every consumer treats the two alike. `x || d` is written out as `Option.GetOr`, with the falsy values spelled out where they matter.
- **Sorting.** `Array.prototype.sort` is stable, so it is modelled as a stable insertion sort on a lexicographically ordered integer key. Sortedness, permutation and stability are proved (module `Sorting`).
- **Duplicate definitions.** `backend/server.py` defines `count_pdf_pages` and `check_and_reset_daily_pages` twice, and only the later definitions (lines 443-473) are live. The model follows those.
- **I/O becomes parameters.** These are:
  - the clock (`now`, whole seconds);
  - the PDF page count;
  - the password hash;
  - the model's extraction result;
  - the upstream blog response;
  - the payment provider's answers;
  - the signature verification;
  - the browser readings.
- **The account number.** The parser keeps the account pattern exactly as written, so `Account Number: 123` yields no account number (see Findings). The corrected pattern is modelled separately.

The documented example deposit line in `pdfProcessor.js:106` contains digits in its description, and the deposit row pattern at line 107 rejects it (`PdfProcessor.SampleDepositLineNotRow`). The model follows the code.

## Model

| member | source | states |
|---|---|---|
| Models.ParseTier | backend/models.py:6-11 | a string parses to a tier only when it is that tier's stored value |
| Models.TiersExactlyFive | backend/models.py:6-11 | there are five tiers with five different values, and each value parses back to its own tier |
| Models.ParseInterval | backend/models.py:13-15 | a string parses to an interval only when it is that interval's value |
| Models.IntervalsExactlyTwo | backend/models.py:13-15 | the intervals are monthly and annual, with different values, and each value parses back |
| Models.SignupErrors | backend/models.py:17-33 | a password under 8 characters is reported and the mismatch is then not checked; from 8 characters on, the mismatch is reported exactly when the confirmation differs; the email error is reported exactly when the address is invalid |
| Models.ValidateSignup | backend/models.py:17-33 | the form is accepted exactly when the email is valid, the password has at least 8 characters and the confirmation repeats it, and it is then returned unchanged |
| Models.ShortPasswordReportedAlone | backend/models.py:23-33 | a short password with a valid email yields the length error alone, even when the confirmation differs |
| Models.ValidatePasswordChange | backend/models.py:91-100 | a change is accepted exactly when the confirmation repeats the new password; otherwise the one error is the mismatch |
| Models.NoLengthRuleOnChange | backend/models.py:91-100 | a confirmed one-character new password is accepted: there is no length rule on change |
| Models.LanguageOrDefault | backend/models.py:48 | a language preference that is not given is "en"; a given one is kept |
| Text.Lower | backend/blog_proxy.py:29 | the result is never an ASCII capital, and only capitals change |
| Text.LowerStr | frontend/src/pages/Documents.jsx:116 | the same length, each character folded |
| Text.LowerStrAppend | frontend/src/pages/Documents.jsx:116 | folding distributes over concatenation |
| Text.IndexOfFrom | frontend/src/pages/Documents.jsx:116 | the result is an occurrence at or after the start, with none before it; without a result there is no occurrence from the start on |
| Text.ContainsIff | frontend/src/pages/Documents.jsx:116 | `includes` holds exactly when the needle occurs somewhere |
| Text.IndexOfAfterPrefix | frontend/src/pages/Converter.jsx:263 | a separator that is not in the first part is first found right after it |
| Text.PdfAfterStem | frontend/src/pages/Documents.jsx:57 | the first `.pdf` in stem + `.pdf` + rest is the one after the stem when the stem has none |
| Text.IndexOfAbsent | frontend/src/pages/Converter.jsx:263 | a character that is absent is not found |
| Text.ReplaceFirst | frontend/src/pages/Blog.jsx:8 | without an occurrence the text is unchanged; otherwise only the first occurrence is replaced and the length changes by the difference |
| Text.TrimStart | frontend/src/utils/pdfProcessor.js:112 | a suffix of the input that does not start with a space, with only spaces dropped |
| Text.TrimEnd | frontend/src/utils/pdfProcessor.js:112 | a prefix of the input that does not end with a space, with only spaces dropped |
| Text.TrimKeeps | frontend/src/utils/pdfProcessor.js:115 | a text without outer spaces is its own trim |
| Text.PyStripStart | backend/server.py:425 | a suffix of the input that does not start with Python whitespace |
| Text.PyStripEnd | backend/server.py:425 | a prefix of the input that does not end with Python whitespace |
| Text.PySliceToNegative | backend/server.py:426-429 | `s[start:-k]` is empty when the end falls at or before the start, and otherwise the slice up to k before the end |
| Text.Split | frontend/src/pages/Converter.jsx:263 | splitting gives at least one piece |
| Text.SplitJoin | frontend/src/pages/Converter.jsx:263 | splitting a join gives the parts back when no part contains the separator |
| Text.DigitChar | frontend/src/utils/fingerprint.js:109 | a digit is written as a digit character |
| Text.DecimalString | backend/server.py:228 | at least one digit, all of them digits, and a single digit exactly below 10 |
| Text.IntString | backend/server.py:228 | a non-negative number is its digits; a negative one is a minus and the digits of its magnitude |
| Text.Pow10 | frontend/src/utils/fingerprint.js:109 | a power of ten is at least 1 |
| Text.DigitsValueAppend | frontend/src/utils/fingerprint.js:109 | the value of a concatenation is the value of the front shifted by the length of the back, plus the back |
| Text.DecimalRoundTrip | backend/server.py:228 | reading a decimal numeral back gives its number |
| Text.HexString | frontend/src/utils/fingerprint.js:160 | at least one character, all lowercase hexadecimal digits |
| Text.HexRoundTrip | frontend/src/utils/fingerprint.js:160 | reading a hexadecimal numeral back gives its number |
| Money.Pad2 | frontend/src/utils/simpleExcelGenerator.js:16 | two digits that read back as the cents |
| Money.Pad3 | frontend/src/utils/excelGenerator.js:312-315 | three digits that read back as the group |
| Money.Grouped | frontend/src/utils/excelGenerator.js:312-315 | starts with a digit and holds only digits and commas |
| Money.StripCommas | frontend/src/utils/pdfProcessor.js:85 | no comma is left and the text does not grow |
| Money.StripCommasAppend | frontend/src/utils/pdfProcessor.js:85 | removing commas distributes over concatenation |
| Money.StripCommasKeepsDigits | frontend/src/utils/pdfProcessor.js:85 | a digits-only text is unchanged |
| Money.GroupedValue | frontend/src/utils/excelGenerator.js:312-315 | removing the commas from a grouped number and reading it gives the number back |
| Money.UsdTokenValue | frontend/src/components/Results.jsx:50-56 | the currency text of an amount, read back as the parser reads amounts, is the amount |
| Money.ToFixed2TokenValue | frontend/src/utils/simpleExcelGenerator.js:16 | the `toFixed(2)` digits read back as the magnitude |
| Money.ToFixed2Sign | frontend/src/utils/simpleExcelGenerator.js:16 | `toFixed(2)` has a minus exactly for negative amounts and ends in the two cent digits |
| Money.Usd | frontend/src/components/Results.jsx:50-56 | the en-US dollar text of a non-negative amount in cents; `PdfProcessor.BalanceRead` and `Money.UsdTokenValue` prove it reads back as the same cents |
| Money.ToFixed2 | frontend/src/utils/simpleExcelGenerator.js:16 | `toFixed(2)` of an amount in cents; `Money.ToFixed2Sign` and `Money.ToFixed2TokenValue` state its sign and that its digits read back |
| Money.TokenCents | frontend/src/utils/pdfProcessor.js:85 | `parseFloat` of a comma-grouped token in cents; `Money.UsdTokenValue` and `Money.ToFixed2TokenValue` state it inverts the formatters |
| Money.DollarFixed | frontend/src/utils/simpleExcelGenerator.js:31 | `'$' + x.toFixed(2)` starts with a dollar sign |
| Money.DollarFixedSign | frontend/src/utils/simpleExcelGenerator.js:31 | a minus follows the dollar sign exactly for negative amounts, and the digits after it read back as the magnitude |
| Money.DollarFixedZero | frontend/src/utils/simpleExcelGenerator.js:16 | a missing balance is written `$0.00` |
| Csv.Unlines | frontend-react-old/src/components/Results.jsx:25-70 | no lines make empty text |
| Csv.UnlinesSnoc | frontend-react-old/src/components/Results.jsx:25-70 | one more line appends that line and its newline |
| Csv.UnlinesPair | frontend-react-old/src/components/Results.jsx:29-30 | two lines are each followed by a newline |
| Csv.UnlinesAppend | frontend-react-old/src/components/Results.jsx:25-70 | the text of joined line lists is the joined text |
| Csv.ExtendUnlines | frontend-react-old/src/components/Results.jsx:25-70 | text extended by more lines holds all of them in order |
| Csv.MapSeqPrefix | frontend-react-old/src/components/Results.jsx:36-38 | the lines of a longer prefix add the next item's line |
| Csv.AppendLines | frontend-react-old/src/components/Results.jsx:36-38 | the `forEach` that appends a line per item leaves the text followed by one line per item, in order |
| Sheets.MapSeq | frontend/src/utils/excelGenerator.js:30-40 | one value per item, in order |
| Sheets.PushRows | frontend/src/utils/simpleExcelGenerator.js:25-33 | the header row, then one row per item in order |
| Sheets.PushAll | frontend/src/utils/excelGenerator.js:225-262 | the gathered list, then one entry per item in order |
| Sheets.Names | frontend/src/utils/excelGenerator.js:280-300 | one name per sheet, in order |
| Sheets.NamesAppend | frontend/src/utils/excelGenerator.js:280-300 | the names of two sheet lists joined are their names joined |
| Sheets.NamesOptional | frontend/src/utils/excelGenerator.js:280-300 | an optional sheet adds its name exactly when present |
| Statement.OrElse | frontend/src/pages/Converter.jsx:227 | `x \|\| fallback`: a present non-empty string is kept, anything else gives the fallback |
| Statement.OrZero | frontend/src/utils/simpleExcelGenerator.js:16 | `x \|\| 0`: a present amount is kept, a missing one is zero |
| Sorting.LeReflexive | frontend/src/pages/Documents.jsx:118-131 | every key is at most itself |
| Sorting.LeTotal | frontend/src/pages/Documents.jsx:118-131 | any two keys are ordered one way or the other |
| Sorting.LeAntisymmetric | frontend/src/pages/Documents.jsx:118-131 | keys ordered both ways are equal |
| Sorting.LeTransitive | frontend/src/pages/Documents.jsx:118-131 | the key order is transitive |
| Sorting.StringKey | frontend/src/pages/Documents.jsx:125 | a name's key is its UTF-16 code units, one per character; code-unit order agrees with `localeCompare` on dates of digits and one separator, not on names in general |
| Sorting.StringKeyInjective | frontend/src/pages/Documents.jsx:125 | different names have different keys |
| Sorting.WithKey | frontend/src/pages/Documents.jsx:118-131 | the elements with one key are no more than all elements |
| Sorting.Insert | frontend/src/pages/Documents.jsx:118-131 | inserting adds exactly that element |
| Sorting.InsertSorted | frontend/src/pages/Documents.jsx:118-131 | inserting into a sorted sequence keeps it sorted |
| Sorting.ConsSorted | frontend/src/pages/Documents.jsx:118-131 | an element no larger than the head of a sorted sequence can be put in front |
| Sorting.InsertWithKey | frontend/src/pages/Documents.jsx:118-131 | inserting puts the element in front of its own key's elements and changes no other key's |
| Sorting.SortBy | frontend/src/utils/excelGenerator.js:263 | the sort is a permutation of its input |
| Sorting.SortBySorted | frontend/src/utils/excelGenerator.js:263 | the sort's output is ordered by key |
| Sorting.SortByStable | frontend/src/utils/excelGenerator.js:263 | the elements sharing a key keep their input order |
| Sorting.SortByConstantKey | frontend/src/pages/Documents.jsx:128-129 | a comparator that always returns 0 leaves the order unchanged |
| Sorting.WithKeyAll | frontend/src/pages/Documents.jsx:128-129 | when every element has key k, the elements with key k are all of them |
| Server.NewUser | backend/server.py:90-108 | a new user is on the daily free tier with 7 of 7 pages, reset and billing times of now, and the form's email and name |
| Server.LastReset | backend/server.py:461 | the last reset is the reset time, else the creation time, else now |
| Server.DailyReset | backend/server.py:454-473 | the reset changes no other user and no set of keys |
| Server.DailyResetEffect | backend/server.py:454-473 | a user off the free tier, or reset less than a day ago, is unchanged; a free-tier user due for a reset gets 7 pages and a reset time of now, and nothing else changes |
| Server.NoTimesNoReset | backend/server.py:461-464 | a user with neither a reset time nor a creation time is never reset |
| Server.DailyResetIdempotent | backend/server.py:454-473 | resetting twice at the same moment is resetting once |
| Server.DailyResetKeepsQuota | backend/server.py:464-473 | the reset never leaves a user with negative pages |
| Server.PagesCheck | backend/server.py:212-245 | an unknown user gets 404; an answer carries the user's remaining pages and limit, and says the user can convert exactly when the remaining pages cover the request; a refusal carries the daily or the monthly message by tier |
| Server.CheckAfterDueReset | backend/server.py:219-227 | a free-tier user due for a reset can convert exactly up to 7 pages, and the next reset is a day from now |
| Server.NewUserCheck | backend/server.py:100-102 | a new user has 7 of 7 pages and can convert exactly up to 7 |
| Server.ProcessPdf | backend/server.py:247-309 | a name that does not end in `.pdf` gets 400; a success means the user exists, has enough pages and the extraction succeeded, and reports the page count and the extracted record; a user short of pages gets 400 with the insufficient-pages detail |
| Server.InsufficientPagesAnswered500 | backend/server.py:269-274 | as written, a user short of pages is answered 500, where the corrected version answers 400 |
| Server.ProcessPdfDiffersOnlyOnQuota | backend/server.py:247-309 | the as-written and the corrected outcomes agree on every request except a refusal for lack of pages |
| Server.PdfNameIgnoresCase | backend/server.py:251 | the name test ignores case (`A.PDF` passes), and any name ending in `.pdf` passes |
| Server.Deducted | backend/server.py:279-283 | the converting user has exactly the page count fewer pages, nothing else about them changes, and no other user changes |
| Server.DeductionKeepsQuota | backend/server.py:267-283 | a conversion that goes through never leaves a user with negative pages |
| Server.ApplyUpdate | backend/server.py:188-197 | each field given in the form is written, an empty string included; the update time becomes now; nothing else changes |
| Server.ApplyUpdateLaws | backend/server.py:191-197 | an empty form only touches the update time; applying a form twice is applying it once; pages and tier are never touched |
| Server.StripFence | backend/server.py:425-429 | an answer that does not start with a fence after stripping is only stripped |
| Server.PyStripKeeps | backend/server.py:425 | a text without outer whitespace is its own strip |
| Server.StripFenceRoundTrip | backend/server.py:425-431 | a `json` fenced body comes back exactly; so does a bare fenced body that does not start with `json` |
| Server.StripFenceShort | backend/server.py:426-429 | an opening fence alone leaves the empty string |
| Server.StripFenceJsonAlone | backend/server.py:426-427 | a `json` fence alone leaves the empty string |
| Server.StripFenceBareAlone | backend/server.py:428-429 | a bare fence alone leaves the empty string |
| Server.Store.Signup | backend/server.py:82-128 | a taken email gets 400 and stores nothing; otherwise the new user is stored under the new id and returned; documents are untouched and no user gets negative pages |
| Server.Store.ResetDailyPages | backend/server.py:454-473 | the users become their daily reset; documents are untouched |
| Server.Store.CheckPages | backend/server.py:212-245 | the users become their daily reset, and the answer is the page check on the reset state |
| Server.Store.ProcessPdfWithAi | backend/server.py:247-309 | the answer is the conversion answer as the code is written, the 500 for a user short of pages included; on success the pages drop by exactly the page count and one completed document is recorded; on failure nothing changes; the quota invariant is kept |
| Server.HasPdfName | backend/server.py:251 | the file-name test `filename.lower().endswith(".pdf")`; `Server.PdfNameIgnoresCase` proves it is case-insensitive, and the conversion functions answer 400 exactly when it fails |
| Server.ProcessPdfAsWritten | backend/server.py:247-309 | the conversion answer as the code is written: a 400 for a name not ending in `.pdf`; for a user short of pages the 500 `Failed to process PDF: 400: ` followed by the shortfall text; a success only for a known user with enough pages, with `pagesUsed` the page count and the extracted record as data |
| Server.QuotaRefusalText | backend/server.py:269-309 | the 400 raised for a user short of pages, re-raised through the generic handler, reads `Failed to process PDF: 400: ` followed by the detail |
| Server.Store.UpdateProfile | backend/server.py:188-210 | a known user gets the update and their new profile is returned; an unknown user gets a 500 and nothing changes |
| DodoPayments.GetProductId | backend/dodo_payments.py:28-36 | a found id is non-empty and is the catalogue entry of the lower-cased `plan_cycle` key; otherwise the error names the plan and cycle, and the key is missing or its id is empty |
| DodoPayments.ProductKey | backend/dodo_payments.py:30 | the catalogue key `plan_cycle`, both lower-cased; `DodoPayments.GetProductIdCaseInsensitive` proves the lookup ignores case |
| DodoPayments.LowerIdempotent | backend/dodo_payments.py:30 | lower-casing twice is lower-casing once |
| DodoPayments.GetProductIdCaseInsensitive | backend/dodo_payments.py:30-31 | a plan and cycle find what their lower-cased forms find |
| DodoPayments.UnderscoreSplit | backend/dodo_payments.py:30 | keys with one underscore between parts free of underscores are equal only when their parts are |
| DodoPayments.CatalogueParts | backend/dodo_payments.py:5-12 | no plan or cycle name of the catalogue contains an underscore |
| DodoPayments.ExactlySixPairs | backend/dodo_payments.py:5-12 | exactly the six pairs of a paid plan and a cycle have a product, in any case; enterprise has none |
| DodoPayments.ProductIdsDistinct | backend/dodo_payments.py:5-12 | no two catalogue keys share a product |
| DodoRoutes.EventOf | backend/dodo_routes.py:207-235 | the type `subscription.active` and only it dispatches to the activation, and `payment.succeeded` and only it to the payment |
| DodoRoutes.UpdatedSubscription | backend/dodo_routes.py:246-361 | each subscription event sets its status and the update time; only the activation sets the customer id; owner, plan and provider stay |
| DodoRoutes.SubscriptionsAfter | backend/dodo_routes.py:255-265 | only the stored subscription the event names changes, and events other than subscription events change none |
| DodoRoutes.UpdatedUser | backend/dodo_routes.py:270-279 | the activation sets the active status, the plan as tier and the update time; on hold and cancelled change neither tier nor update time; pages and email never change |
| DodoRoutes.UpdateWhereUserIdField | backend/dodo_routes.py:270-271 | as written, the update selects users by a `user_id` field and keeps the set of users |
| DodoRoutes.UpdateById | backend/dodo_routes.py:268-279 | the corrected update changes exactly the user stored under the subscription's user id, and no other user |
| DodoRoutes.UserIdFilterMissesSignupUsers | backend/dodo_routes.py:270-271 | as written, when no user carries a `user_id` field, no user is updated |
| DodoRoutes.SignupUserActivation | backend/dodo_routes.py:268-279 | a user created by sign-up and then activated stays on the free tier as written, and gets the plan when selected by `_id` |
| DodoRoutes.UsersAfter | backend/dodo_routes.py:267-279 | the users after an event keep their set of keys |
| DodoRoutes.StatusMapping | backend/dodo_routes.py:246-361 | activation and renewal set active, on hold sets on_hold, cancellation cancelled, failure failed; activation records the customer id |
| DodoRoutes.UserEffects | backend/dodo_routes.py:267-345 | an activation gives the subscription's user the plan and the active status; on hold and cancelled set only the status; renewal and failure touch no user; no other user ever changes |
| DodoRoutes.PaymentRecorded | backend/dodo_routes.py:364-380 | a payment appends exactly one succeeded transaction with its payment id and touches no subscription and no user |
| DodoRoutes.UnhandledChangesNothing | backend/dodo_routes.py:207-237 | an event of any other type changes nothing |
| DodoRoutes.WebhookAnswer | backend/dodo_routes.py:184-243 | a missing secret is a 500, a failed signature a 400, and every verified event succeeds |
| DodoRoutes.FirstMissing | backend/dodo_routes.py:392-395 | nothing is missing exactly when every field is present and non-empty; otherwise the result is the first field that is missing |
| DodoRoutes.ContactOf | backend/dodo_routes.py:397-407 | a stored contact has every required field non-empty, the website or an empty one, and the pending status |
| DodoRoutes.NameCheckedFirst | backend/dodo_routes.py:392-395 | a form without a name is refused for its name, whatever else is missing |
| DodoRoutes.PhoneReported | backend/dodo_routes.py:392-395 | a form with the fields before the phone but no phone is refused for the phone |
| DodoRoutes.PaymentsDb.CreateSubscription | backend/dodo_routes.py:72-140 | success exactly when the client is configured, the product is known and the checkout succeeds; then a pending subscription is stored under its id; every failure is a 500 and stores nothing; nothing else changes |
| DodoRoutes.PaymentsDb.PortalCustomer | backend/dodo_routes.py:143-163 | without a configured provider client (`get_dodo_client` raising, backend/dodo_payments.py:14-20), a 500 `Failed to create portal session: DODO_PAYMENTS_API_KEY environment variable is required`, checked before the lookup; with one, a 404 `No active subscription found` exactly when the user has no subscription with this provider, a result is the non-empty customer id of one of them, and every failure is that 404 |
| DodoRoutes.PaymentsDb.Webhook | backend/dodo_routes.py:179-243 | the answer is the webhook answer; a refusal changes nothing; a verified event moves subscriptions and transactions as the event functions say, and users as the handlers are written, selected by their `user_id` field; contacts never change |
| DodoRoutes.StatusAfter | backend/dodo_routes.py:246-361 | the status each subscription event sets: `active` for activation and renewal, `on_hold`, `cancelled`, `failed`; `DodoRoutes.UpdatedSubscription` and `DodoRoutes.StatusMapping` state it of the stored subscription |
| DodoRoutes.TransactionsAfter | backend/dodo_routes.py:364-380 | a successful payment appends one `succeeded` transaction with the event's ids and amount; `DodoRoutes.PaymentRecorded` and `DodoRoutes.UnhandledChangesNothing` state that it appends exactly this and that other events append nothing |
| DodoRoutes.UsersAfterAsWritten | backend/dodo_routes.py:267-345 | the users after an event as the handlers are written, selected by their `user_id` field; the set of user keys never changes |
| DodoRoutes.UserEffectsAsWritten | backend/dodo_routes.py:267-345 | as written, activation, hold and cancellation update exactly the users whose `user_id` field names the subscription's user, and no other user; renewal and payment failure change no user |
| DodoRoutes.AsWrittenAgreesWhenKeyed | backend/dodo_routes.py:270-271 | when every user's `user_id` field equals its key, the as-written update and the update by `_id` give the same users |
| DodoRoutes.PaymentsDb.SubmitEnterpriseContact | backend/dodo_routes.py:383-418 | the first missing required field is named in a 400 and nothing is stored; a complete form is stored as one pending contact and answered with the success message |
| BlogProxy.TargetUrl | backend/blog_proxy.py:14-19 | the step-by-step form of `BlogProxy.Target`: the URL the loop builds is the target of the path and query |
| BlogProxy.BaseHasNoQuestionMark | backend/blog_proxy.py:9 | the WordPress base URL holds no `?` |
| BlogProxy.TargetUrlParts | backend/blog_proxy.py:14-19 | the target starts with the base; for a path without `?`, the first `?` ends the path and the query follows it, without a query there is no `?`, and the path sits after the base and a slash |
| BlogProxy.Target | backend/blog_proxy.py:14-19 | the upstream URL of a path and query; `BlogProxy.TargetUrlParts` decomposes it into base, path and query |
| BlogProxy.FilterHeaders | backend/blog_proxy.py:27-30 | no kept header has an excluded name in any case |
| BlogProxy.FilterHeadersKeeps | backend/blog_proxy.py:27-30 | a header whose name is not excluded is kept exactly when the list gives it, with the last value given |
| BlogProxy.Outgoing | backend/blog_proxy.py:24-32 | the forwarded request keeps the method, goes to the target URL, carries the body exactly for POST, PUT and PATCH, and carries no host or content-length header |
| BlogProxy.ProxyBlogRequest | backend/blog_proxy.py:11-45 | the request sent is the outgoing request; a client error is a 502 with its message; an answer is passed back with its status, content and filtered headers, the upstream headers being the client's already-merged list |
| BlogProxy.ResponseDropsEncodings | backend/blog_proxy.py:38-41 | the answer passed back never carries a content or transfer encoding, in any spelling |
| BlogRewrites.ReplaceAtStart | frontend/src/pages/Blog.jsx:8 | a path that starts with `/blog` has exactly that prefix replaced |
| BlogRewrites.RewriteSpec | frontend/src/pages/Blog.jsx:7-9 | without `/blog` every rewrite keeps the path; otherwise only the first `/blog` is replaced, what follows is kept, the length grows by 4 or 9, and search and hash follow unchanged |
| BlogRewrites.BlogPageTarget | frontend/src/pages/Blog.jsx:8-9 | the first `/blog` becomes `/api/blog`, with search and hash appended; `BlogRewrites.RewriteSpec` states both cases |
| BlogRewrites.BlogRedirectTarget | frontend/src/components/BlogRedirect.jsx:9-10 | the first `/blog` becomes `/api/wordpress`, with search and hash appended; `BlogRewrites.RewriteSpec` and `BlogRewrites.SubstringNotSegment` state it |
| BlogRewrites.NextBlogTarget | frontend/src/pages/blog.js:8-9 | the first `/blog` becomes `/api/blog`; `BlogRewrites.RewriteSpec`, `BlogRewrites.FirstOnly` and `BlogRewrites.NotIdempotent` state it |
| BlogRewrites.SubstringNotSegment | frontend/src/components/BlogRedirect.jsx:9 | the match is on text, not on a path segment: `/blogger` becomes `/api/blogger` and `/api/wordpressger` |
| BlogRewrites.FirstOnly | frontend/src/pages/blog.js:9 | only the first `/blog` is replaced |
| BlogRewrites.NotIdempotent | frontend/src/pages/blog.js:9 | rewriting twice prefixes `/api` again |
| BlogRewrites.RewrittenIndex | frontend/src/pages/blog.js:9 | in a rewritten path the first `/blog` is the one after `/api` |
| Fingerprint.ToInt32 | frontend/src/utils/fingerprint.js:166-167 | the 32-bit signed value congruent to the input, with the number of wraps taken away |
| Fingerprint.ToInt32Shift | frontend/src/utils/fingerprint.js:166-167 | adding a multiple of 2^32 does not change the wrapped value |
| Fingerprint.CodeUnits | frontend/src/utils/fingerprint.js:165 | each `charCodeAt` is a UTF-16 code unit below 0x10000, and there are at least as many as characters |
| Fingerprint.JavaHash | frontend/src/utils/fingerprint.js:163-168 | the hash is a 32-bit signed value |
| Fingerprint.JavaHashIsWrappedPolynomial | frontend/src/utils/fingerprint.js:163-168 | wrapping after every step is wrapping the exact polynomial once |
| Fingerprint.ShiftStepIsJavaStep | frontend/src/utils/fingerprint.js:166-167 | one loop step as written (`hash << 5`, minus hash, plus the unit, `& hash`) is the 31-times step wrapped to 32 bits |
| Fingerprint.FallbackHash | frontend/src/utils/fingerprint.js:161-170 | the loop computes the hexadecimal of the absolute 32-bit hash of the code units |
| Fingerprint.FallbackTextSpec | frontend/src/utils/fingerprint.js:169 | the fallback text is 1 to 8 lowercase hexadecimal digits that read back as the absolute hash |
| Fingerprint.FallbackText | frontend/src/utils/fingerprint.js:169 | `Math.abs(hash).toString(16)`; `Fingerprint.FallbackTextSpec` and `Fingerprint.MinimumHashText` state its digits and the `-2^31` edge |
| Fingerprint.FeatureSummary | frontend/src/utils/fingerprint.js:96-109 | the ten `name:value` entries joined by `|`; `Fingerprint.FeatureSummarySplits` and `Fingerprint.FeatureSummaryInjective` prove it splits back and that different features give different text |
| Fingerprint.HexLength | frontend/src/utils/fingerprint.js:169 | a number up to 16^k has at most k hexadecimal digits, or k + 1 for 16^k itself |
| Fingerprint.HexLengthStep | frontend/src/utils/fingerprint.js:169 | the length bound for one more digit |
| Fingerprint.HexLengthBelow | frontend/src/utils/fingerprint.js:169 | a number below 16^k has at most k hexadecimal digits |
| Fingerprint.HexLengthExact | frontend/src/utils/fingerprint.js:169 | 16^k has exactly k + 1 hexadecimal digits |
| Fingerprint.Pow16 | frontend/src/utils/fingerprint.js:169 | a power of 16 is at least 1 |
| Fingerprint.MinimumHashText | frontend/src/utils/fingerprint.js:169 | the one hash without a 32-bit absolute value, -2^31, is written `80000000` |
| Fingerprint.ByteHex | frontend/src/utils/fingerprint.js:160 | a byte is two lowercase hexadecimal digits that read back as the byte |
| Fingerprint.HexOfBytes | frontend/src/utils/fingerprint.js:160 | two characters per byte |
| Fingerprint.HexOfBytesReadsBack | frontend/src/utils/fingerprint.js:160 | each byte's own two characters read back as that byte |
| Fingerprint.DigestLength | frontend/src/utils/fingerprint.js:158-160 | a SHA-256 digest is written in 64 characters |
| Fingerprint.HashString | frontend/src/utils/fingerprint.js:154-171 | with a digest, its 64-character hexadecimal; without one, the fallback hash; never empty |
| Fingerprint.FeatureValues | frontend/src/utils/fingerprint.js:96-107 | ten feature values |
| Fingerprint.FeatureEntries | frontend/src/utils/fingerprint.js:109 | ten `key:value` entries |
| Fingerprint.NamesAvoidBar | frontend/src/utils/fingerprint.js:96-109 | no feature name or value contains `\|` |
| Fingerprint.FeatureSummarySplits | frontend/src/utils/fingerprint.js:109 | the summary splits at `\|` into exactly the ten entries, in order |
| Fingerprint.FeatureSummaryInjective | frontend/src/utils/fingerprint.js:95-110 | different feature sets give different summaries |
| Fingerprint.FallbackId | frontend/src/utils/fingerprint.js:147 | the fallback identifier starts with `fallback_` |
| Fingerprint.BrowserFingerprint.GenerateFingerprint | frontend/src/utils/fingerprint.js:113-151 | a collection failure gives the time-stamped fallback; otherwise the digest's hexadecimal or the fallback hash of the collected text; the result is kept in memory and session storage is untouched |
| Fingerprint.BrowserFingerprint.GetFingerprint | frontend/src/utils/fingerprint.js:174-193 | a value in memory is returned and nothing changes; else a stored value is returned and kept in memory; else a new one is generated and stored under the storage key, and it is the random fallback id when collection fails, the hex of the SHA-256 digest when there is one, and the hex of the 32-bit hash otherwise; the result is never empty |
| Fingerprint.BrowserFingerprint.constructor | frontend/src/utils/fingerprint.js:5-7 | a new fingerprinter holds no fingerprint yet and sees the session storage it is given |
| Documents.Filter | frontend/src/pages/Documents.jsx:114-117 | the kept documents are no more than the input and each one passes the test and is in the input |
| Documents.FilterMembers | frontend/src/pages/Documents.jsx:114-117 | a document is kept exactly when it is in the input and passes the test |
| Documents.FilterAppend | frontend/src/pages/Documents.jsx:114-117 | filtering keeps list order: filtering a concatenation concatenates the filtered halves |
| Documents.FilterAll | frontend/src/pages/Documents.jsx:114-117 | when every document passes, the list is kept whole |
| Documents.FilterSamePredicate | frontend/src/pages/Documents.jsx:114-117 | two tests that agree on every listed document keep the same documents |
| Documents.FilteredAndSortedSpec | frontend/src/pages/Documents.jsx:114-131 | the list shown is a rearrangement of exactly the documents whose lower-cased name contains the lower-cased term, sorted by the chosen key |
| Documents.EmptySearchKeepsAll | frontend/src/pages/Documents.jsx:114-117 | an empty search term keeps every document in its place |
| Documents.SearchIgnoresCase | frontend/src/pages/Documents.jsx:116 | searching for the lower-cased term finds the same documents as the term itself |
| Documents.OrdersMeanWhatTheySay | frontend/src/pages/Documents.jsx:118-127 | newest puts later dates first, oldest earlier dates first, size larger files first, name names in ascending order |
| Documents.UnknownOrderKeepsOrder | frontend/src/pages/Documents.jsx:128-129 | any other order choice leaves the search result in its list order |
| Documents.SameDateKeepsOrder | frontend/src/pages/Documents.jsx:118-122 | documents with the same conversion date keep their relative order under either date order |
| Documents.DeletedSpec | frontend/src/pages/Documents.jsx:84 | after a delete exactly the documents with another id remain, in order, and a list without that id is unchanged |
| Documents.FilteredAndSorted | frontend/src/pages/Documents.jsx:114-131 | the library list: the documents whose lower-cased name contains the lower-cased term, sorted by the chosen key; `Documents.FilteredAndSortedSpec`, `Documents.OrdersMeanWhatTheySay`, `Documents.UnknownOrderKeepsOrder` and `Documents.SameDateKeepsOrder` state that it is a sorted, stable rearrangement of exactly the matches |
| Documents.SortKey | frontend/src/pages/Documents.jsx:118-129 | the comparator as a key: newest first, oldest first, name in code-unit order, largest first, and one key for every document under any other choice; `Documents.OrdersMeanWhatTheySay` states what each order means |
| Documents.Deleted | frontend/src/pages/Documents.jsx:84 | the list after a deletion keeps the documents with any other id; `Documents.DeletedSpec` states it |
| Documents.DownloadName | frontend/src/pages/Documents.jsx:57 | the download name replaces the first lower-case `.pdf` by `-converted.csv`; `Documents.DownloadNameOfPdf` and `Documents.DownloadNameUpperCase` state both cases |
| Documents.UnitIndex | frontend/src/pages/Documents.jsx:110 | the size unit index is the integer logarithm base 1024; `Documents.UnitIndexBounds` proves `1024^i <= bytes < 1024^(i+1)` |
| Documents.DownloadNameOfPdf | frontend/src/pages/Documents.jsx:57 | the first `.pdf` in the name becomes `-converted.csv` and the rest of the name, a later `.pdf` included, is kept |
| Documents.DownloadNameUpperCase | frontend/src/pages/Documents.jsx:57 | the replacement is case sensitive: `a.PDF` is saved under its own name |
| Documents.Pow1024 | frontend/src/pages/Documents.jsx:108-111 | every power of 1024 is at least one |
| Documents.UnitIndexBounds | frontend/src/pages/Documents.jsx:110 | the unit index is the integer logarithm base 1024: the size reaches that power and stays below the next |
| Documents.FormatFileSize | frontend/src/pages/Documents.jsx:106-112 | zero is `0 Bytes`; any other size is the scaled number's text, a space and the unit at the logarithm's index, `undefined` past `GB` |
| Documents.FileSizeUnits | frontend/src/pages/Documents.jsx:106-112 | sizes below 1024 are in Bytes, below 1024² in KB and below 1024³ in MB |
| Documents.PowMonotone | frontend/src/pages/Documents.jsx:110-111 | a larger index never gives a smaller power of 1024 |
| Documents.DocumentsPage.constructor | frontend/src/pages/Documents.jsx:10-13 | the page starts with no documents, loading, an empty search and the newest order |
| Documents.DocumentsPage.EmptyTitle | frontend/src/pages/Documents.jsx:193-197 | a heading is shown exactly when nothing is visible: `No documents yet` when there are no documents at all, `No documents found` otherwise |
| Documents.DocumentsPage.FetchDocuments | frontend/src/pages/Documents.jsx:22-42 | a successful fetch replaces the documents, a failing one keeps them; loading ends either way and nothing else changes |
| Documents.DocumentsPage.SetSearchTerm | frontend/src/pages/Documents.jsx:163 | only the search term changes |
| Documents.DocumentsPage.SetSortBy | frontend/src/pages/Documents.jsx:173 | only the order choice changes |
| Documents.DocumentsPage.HandleDelete | frontend/src/pages/Documents.jsx:70-93 | nothing happens unless confirmed; a confirmed delete the server accepts removes that document and reports success, any other answer keeps the list and reports failure |
| Documents.DocumentsPage.HandleDownload | frontend/src/pages/Documents.jsx:44-68 | a successful download saves under the renamed file name and reports success; otherwise nothing is saved and failure is reported |
| Documents.DeleteHidesOnlyThatDocument | frontend/src/pages/Documents.jsx:84-131 | after a delete the deleted document is no longer shown and every other shown document still is |
| Converter.AmountCell | frontend/src/pages/Converter.jsx:227 | a deposit or check cell is empty exactly when the amount is zero |
| Converter.MagnitudeCell | frontend/src/pages/Converter.jsx:228 | an ATM or card cell is empty exactly when the amount is zero |
| Converter.DepositFields | frontend/src/pages/Converter.jsx:227 | a deposit takes three columns, filled or empty |
| Converter.DebitFields | frontend/src/pages/Converter.jsx:228-230 | an ATM withdrawal or card purchase takes four columns, filled or empty |
| Converter.CheckFields | frontend/src/pages/Converter.jsx:229 | a check takes four columns, filled or empty |
| Converter.SummaryFields | frontend/src/pages/Converter.jsx:225-259 | the account block takes three columns on every data row |
| Converter.RowFields | frontend/src/pages/Converter.jsx:225-259 | every data row has the 21 fields of the header |
| Converter.MaxTransactions | frontend/src/pages/Converter.jsx:200-205 | the count is at least every list's length and equal to one of them |
| Converter.PushedLines | frontend/src/pages/Converter.jsx:214-261 | pushing n rows after the head keeps the head and puts row j right after it at position j |
| Converter.CsvLinesLayout | frontend/src/pages/Converter.jsx:207-261 | line 0 is the column titles, line 1 the block titles after the account number, and data row i is line i + 2 |
| Converter.PushFirstRows | frontend/src/pages/Converter.jsx:214-250 | the pushes before the loop give the two header lines and the first three data rows |
| Converter.PushRowsFrom | frontend/src/pages/Converter.jsx:252-261 | the loop from row 3 pushes rows up to the longest list, and none when the lists are shorter |
| Converter.GenerateComprehensiveCsv | frontend/src/pages/Converter.jsx:197-264 | the file is the header lines and data rows joined with newlines |
| Converter.LineCount | frontend/src/pages/Converter.jsx:200-261 | the file has five lines, and one more per item beyond the third in the longest list |
| Converter.FormatPagesDisplay | frontend/src/pages/Converter.jsx:66-86 | the quota banner; `Converter.PagesDisplayAnonymous`, `Converter.PagesDisplayDaily` and `Converter.PagesDisplayMonthly` state its text for anonymous visitors and for daily and monthly tiers |
| Converter.CsvLines | frontend/src/pages/Converter.jsx:197-264 | the converter CSV as lines: the two header lines, then one row per index up to the longest list or three; `Converter.CsvLinesLayout`, `Converter.LineCount` and `Converter.CsvFileSplits` state the layout and that the joined file splits back into these lines |
| Converter.RowLine | frontend/src/pages/Converter.jsx:225-260 | data row `i` joins the account field of that row with the `i`-th entry of each list, blank where a list is shorter; `Converter.CsvLinesLayout` places it on line `i + 2` |
| Converter.SubHeaderLine | frontend/src/pages/Converter.jsx:216-223 | the second header line: the account number and the four block titles at their columns; `Converter.SubHeaderLinePlain` proves it holds no line break |
| Converter.ItemPlacement | frontend/src/pages/Converter.jsx:225-259 | item i of each list sits in data row i in its own block of columns, with empty separator columns between blocks |
| Converter.PastTheEnd | frontend/src/pages/Converter.jsx:253-259 | a row past the end of every list is empty in every column |
| Converter.MagnitudeCellSign | frontend/src/pages/Converter.jsx:228-230 | ATM and card cells hold the magnitude: the same for an amount and its negation, and with no minus after the dollar sign |
| Converter.BalanceDefaults | frontend/src/pages/Converter.jsx:235-244 | a missing balance is written as `$0.00` |
| Converter.DollarFixedPlain | frontend/src/pages/Converter.jsx:227-230 | a formatted amount holds no comma and no newline |
| Converter.RowFieldsPlain | frontend/src/pages/Converter.jsx:225-259 | when the statement's text holds no comma or newline, neither does any field of a data row |
| Converter.CsvSplits | frontend/src/pages/Converter.jsx:232-260 | fields are joined without quoting: a row of plain fields splits back at its commas into its 21 fields |
| Converter.CsvFileSplits | frontend/src/pages/Converter.jsx:263 | a file of plain fields splits back at its newlines into exactly its lines, with no empty last line |
| Converter.UploadCheck | frontend/src/pages/Converter.jsx:99-123 | an upload goes ahead exactly when it is a PDF of at most 10 MB, an anonymous visitor still has the free conversion, and a signed-in user's page check allowed it |
| Converter.UploadCheckOrder | frontend/src/pages/Converter.jsx:99-123 | the type is checked first, then the size, then the quota, each refusal with its own message |
| Converter.UploadSizeBoundary | frontend/src/pages/Converter.jsx:105 | exactly 10 MB is accepted and one byte more is refused |
| Converter.ProcessOutcome | frontend/src/pages/Converter.jsx:155-167 | a record comes back exactly when the response is ok, successful and carries data; an error response gives its detail or `Failed to process PDF`, an ok response without data `Invalid response from AI processing` |
| Converter.PagesUsedOf | frontend/src/pages/Converter.jsx:169 | the pages used are the processed count when there is one, else the used count, else 1, and never zero |
| Converter.NumeralThenSpace | frontend/src/pages/Converter.jsx:81-85 | a number's decimal text followed by a space ends at that first space and reads back as the number |
| Converter.PagesDisplayDaily | frontend/src/pages/Converter.jsx:81-83 | a daily user's line starts with the pages remaining, read back up to the first space, and goes on ` of 7 pages remaining today` |
| Converter.PagesDisplayMonthly | frontend/src/pages/Converter.jsx:85 | any other non-enterprise user's line starts with the pages remaining and ends with ` pages remaining this month` |
| Converter.PagesDisplayAnonymous | frontend/src/pages/Converter.jsx:67-73 | an anonymous visitor is told only whether the one free conversion is left |
| Converter.ConverterPage.constructor | frontend/src/pages/Converter.jsx:14-40 | the page starts at the upload step with nothing loaded, anonymous exactly when not signed in, and each step has what it needs |
| Converter.ConverterPage.HandleFileUpload | frontend/src/pages/Converter.jsx:99-128 | the decision is the upload check; an accepted file is taken and the page moves to processing, and a refused one leaves the page unchanged |
| Converter.ConverterPage.CompleteProcessing | frontend/src/pages/Converter.jsx:155-194 | on success the record, its CSV and the page count are kept, the anonymous conversion is spent or the user refreshed, and the results shown; otherwise the error step shows the message and nothing else changes |
| Converter.ConverterPage.ShowResults | frontend/src/pages/Converter.jsx:167-182 | the record, its CSV and the page count are stored and the results shown, spending the anonymous conversion or refreshing the user |
| Converter.ConverterPage.HandleReset | frontend/src/pages/Converter.jsx:266-273 | back to the upload step with file, record, CSV and error cleared and the page count zero |
| Results.FormatCurrency | frontend/src/components/Results.jsx:50-56 | a missing amount is `$0.00`; every result is a dollar sign, digits and two decimals |
| Results.FormatCurrencyIgnoresSign | frontend/src/components/Results.jsx:55 | the sign is dropped: an amount and its negation print alike |
| Results.FormatCurrencyReadsBack | frontend/src/components/Results.jsx:50-56 | the printed digits, group commas removed, denote the magnitude of the amount in cents |
| Results.GetTransactionCount | frontend/src/components/Results.jsx:58-66 | no data counts zero transactions |
| Results.TransactionCountIsCombined | frontend/src/components/Results.jsx:58-66 | the count shown is the length of the combined transaction list the workbook writes, and zero exactly when that list is empty |
| Results.OriginalName | frontend/src/components/Results.jsx:20 | the name with its first `.pdf` cut out, or the fallback when there is no name or nothing is left |
| Results.OriginalNameStem | frontend/src/components/Results.jsx:20 | for a name that is a stem and `.pdf`, the stem is kept |
| Results.OriginalNameFirstOnly | frontend/src/components/Results.jsx:20 | only the first `.pdf` is removed, and a name that is only `.pdf` falls back |
| Results.ExcelFilename | frontend/src/components/Results.jsx:20-21 | the download name always ends in `-converted.xlsx` |
| Results.HandleDownload | frontend/src/components/Results.jsx:7-48 | nothing is downloaded exactly when there is no workbook |
| Results.DefaultExcelFilename | frontend/src/components/Results.jsx:20-21 | no name, an empty name or a name that is only `.pdf` downloads as `bank-statement-converted.xlsx` |
| LegacyResults.Signed | frontend-react-old/src/components/Results.jsx:108 | a combined-list amount is at least five characters long |
| LegacyResults.Quoted | frontend-react-old/src/components/Results.jsx:37 | a quoted description is the text unchanged between two double quotes, with no quote doubled |
| LegacyResults.SummaryLines | frontend-react-old/src/components/Results.jsx:22-30 | the heading and the account summary take nine lines |
| LegacyResults.SummaryFields | frontend-react-old/src/components/Results.jsx:26-30 | the summary has its column line and four field lines |
| LegacyResults.SectionText | frontend-react-old/src/components/Results.jsx:33-70 | a section with items is its title, its column line, its item lines and a blank line; an empty list writes nothing |
| LegacyResults.AppendSection | frontend-react-old/src/components/Results.jsx:33-70 | appending a section adds exactly that section's text, and nothing for an empty list |
| LegacyResults.AppendCategories | frontend-react-old/src/components/Results.jsx:32-70 | the four sections are appended in the order deposits, ATM withdrawals, checks, card purchases |
| LegacyResults.AppendCombined | frontend-react-old/src/components/Results.jsx:72-110 | the combined section is its title and columns, then every transaction of the four lists in date order |
| LegacyResults.HandleDownload | frontend-react-old/src/components/Results.jsx:10-125 | no data builds nothing; otherwise the file is the summary, the sections and the combined list, offered as the original name with `-complete-data.csv` |
| LegacyResults.CsvLines | frontend-react-old/src/components/Results.jsx:22-110 | the earlier results CSV as lines: the summary, the four category sections, the combined section; `LegacyResults.CsvTitles`, `LegacyResults.LineCount` and `LegacyResults.CombinedSection` state its shape |
| LegacyResults.Section | frontend-react-old/src/components/Results.jsx:33-70 | a section is its title, column line, item lines and a blank line, or nothing for an empty list; `LegacyResults.SectionText` and `LegacyResults.SectionTitles` state it |
| LegacyResults.DepositLine | frontend-react-old/src/components/Results.jsx:37 | a deposit line: quoted description, date, dollar amount; `LegacyResults.LinesHaveCommas` covers it |
| LegacyResults.DebitLine | frontend-react-old/src/components/Results.jsx:47-67 | an ATM or card line prints the magnitude of its amount; `LegacyResults.DebitLineIgnoresSign` proves the sign does not show |
| LegacyResults.CheckLine | frontend-react-old/src/components/Results.jsx:57 | a check line: date, number, dollar amount, reference; `LegacyResults.LinesHaveCommas` covers it |
| LegacyResults.TransactionLine | frontend-react-old/src/components/Results.jsx:108-109 | a combined line with the signed amount `-$x` for negatives; `LegacyResults.SignedAmount` and `LegacyResults.SignedNegative` state the sign |
| LegacyResults.SummaryFirst | frontend-react-old/src/components/Results.jsx:22-30 | the summary opens the file whatever the rest holds |
| LegacyResults.SummaryDefaults | frontend-react-old/src/components/Results.jsx:27-30 | a missing account number or date reads `Not found` and a missing balance `$0.00` |
| LegacyResults.Titles | frontend-react-old/src/components/Results.jsx:22-110 | the title lines are no more than the lines |
| LegacyResults.TitleConstants | frontend-react-old/src/components/Results.jsx:22-74 | the banner lines hold no comma and every column line does |
| LegacyResults.SectionTitles | frontend-react-old/src/components/Results.jsx:33-70 | a section contributes its title and no other, and only when its list is non-empty |
| LegacyResults.LinesHaveCommas | frontend-react-old/src/components/Results.jsx:37-109 | every line written for a deposit, debit, check or combined transaction holds a comma |
| LegacyResults.CsvTitles | frontend-react-old/src/components/Results.jsx:22-110 | the titles of the file in order are the heading, the summary, each non-empty category in its fixed order and the combined list |
| LegacyResults.CategoryTitles | frontend-react-old/src/components/Results.jsx:32-70 | the category titles appear exactly for the non-empty lists, in their fixed order |
| LegacyResults.CombinedTitles | frontend-react-old/src/components/Results.jsx:72-110 | the combined section's only title is its own |
| LegacyResults.SummaryTitles | frontend-react-old/src/components/Results.jsx:22-30 | the summary's titles are the heading and `ACCOUNT SUMMARY` |
| LegacyResults.DebitLineIgnoresSign | frontend-react-old/src/components/Results.jsx:47-67 | ATM and card lines print the magnitude: the same for an amount and its negation, with no minus |
| LegacyResults.SignedAmount | frontend-react-old/src/components/Results.jsx:108 | a combined amount starts with `-` exactly when it is negative, and its digits after the sign read back as the magnitude |
| LegacyResults.SignedNegative | frontend-react-old/src/components/Results.jsx:108 | a negative amount is a minus before the text of its magnitude |
| LegacyResults.SectionLength | frontend-react-old/src/components/Results.jsx:33-70 | a section takes no lines for an empty list and three more than its items otherwise |
| LegacyResults.LineCount | frontend-react-old/src/components/Results.jsx:22-110 | the file has nine summary lines, each non-empty section's lines, two opening lines for the combined list and one line per transaction |
| LegacyResults.CombinedSection | frontend-react-old/src/components/Results.jsx:76-110 | the file ends with as many lines as the transaction count shown, one per transaction, sorted by date, a rearrangement of the four lists with ties kept in gathering order |
| ExcelGenerator.FormatCurrency | frontend/src/utils/excelGenerator.js:309-317 | a missing amount is `$0.00` and every result is at least five characters |
| ExcelGenerator.FormatCurrencySign | frontend/src/utils/excelGenerator.js:309-317 | a negative amount is a minus before the text of its magnitude, and no other amount starts with a minus |
| ExcelGenerator.FormatCurrencyReadsBack | frontend/src/utils/excelGenerator.js:309-317 | after the sign come a dollar sign, grouped whole units, a point and two cent digits that read back as the magnitude |
| ExcelGenerator.SummaryFacts | frontend/src/utils/excelGenerator.js:48-63 | the summary has eleven rows, shows `N/A` exactly for a missing or empty account number or date, and its four counts add up to the number of transactions |
| ExcelGenerator.CreateAllTransactionRows | frontend/src/utils/excelGenerator.js:207-273 | the combined sheet is the header, then the four lists gathered in order and sorted by date, one row each |
| ExcelGenerator.AllTransactionsSorted | frontend/src/utils/excelGenerator.js:207-273 | the combined sheet has one row per transaction under its header, in date order, a rearrangement of the gathered list |
| ExcelGenerator.AllTransactionsTies | frontend/src/utils/excelGenerator.js:262-263 | transactions on the same date keep the order they were gathered in |
| ExcelGenerator.AllTransactionsChecks | frontend/src/utils/excelGenerator.js:238-248 | every check appears in the combined list as a `Check` described `Check #` and its number, with its amount negated |
| ExcelGenerator.GenerateExcelFile | frontend/src/utils/excelGenerator.js:3-36 | the workbook is the summary, each non-empty category sheet and the combined sheet, appended in that order |
| ExcelGenerator.WorkbookNames | frontend/src/utils/excelGenerator.js:3-36 | the sheet names are `Account Summary`, the names of the non-empty categories in their fixed order, and `All Transactions` |
| ExcelGenerator.WorkbookOf | frontend/src/utils/excelGenerator.js:3-36 | the summary sheet first, then one sheet for each non-empty category in a fixed order, then the combined sheet; `ExcelGenerator.GenerateExcelFile` builds it and `ExcelGenerator.WorkbookNames` states the sheet names |
| ExcelGenerator.SummaryRows | frontend/src/utils/excelGenerator.js:48-63 | the summary sheet rows; `ExcelGenerator.SummaryFacts` states their number, the N/A defaults and the counts |
| ExcelGenerator.Merged | frontend/src/utils/excelGenerator.js:207-260 | the combined transactions in push order: deposits, ATM withdrawals, checks, card purchases; `ExcelGenerator.AllTransactionsSorted` proves the sorted sheet is a permutation of it |
| ExcelGenerator.DateKey | frontend/src/utils/excelGenerator.js:263 | the sort key of a transaction is its date in code-unit order, which agrees with `localeCompare` on dates of digits and one separator; `ExcelGenerator.AllTransactionsSorted` and `ExcelGenerator.AllTransactionsTies` state the order |
| ExcelGenerator.AllTransactionRows | frontend/src/utils/excelGenerator.js:207-273 | the combined sheet: its header, then the merged transactions sorted by date, one row each; `ExcelGenerator.CreateAllTransactionRows` builds it |
| ExcelGenerator.CategorySheetRows | frontend/src/utils/excelGenerator.js:93-205 | a category sheet is its header and one row per item, item i on row i + 1 |
| SimpleExcelGenerator.SummaryDefaults | frontend/src/utils/simpleExcelGenerator.js:12-18 | the summary has five rows; a missing account number or date reads `N/A` and a missing balance `$0.00` |
| SimpleExcelGenerator.AtmAmountCell | frontend/src/utils/simpleExcelGenerator.js:41-47 | an ATM amount keeps its sign after the dollar sign, so a $20 withdrawal reads `$-20.00` |
| SimpleExcelGenerator.GenerateSimpleExcelFile | frontend/src/utils/simpleExcelGenerator.js:9-65 | the workbook is the summary and the non-empty deposits, ATM and checks sheets, appended in that order |
| SimpleExcelGenerator.SimpleWorkbookNames | frontend/src/utils/simpleExcelGenerator.js:9-65 | the sheet names are `Account Summary` and the non-empty categories in their fixed order, with no card or combined sheet |
| SimpleExcelGenerator.SummaryRows | frontend/src/utils/simpleExcelGenerator.js:12-18 | the five summary rows of the simple workbook; `SimpleExcelGenerator.SummaryDefaults` states their defaults |
| SimpleExcelGenerator.SimpleWorkbookOf | frontend/src/utils/simpleExcelGenerator.js:9-65 | the simple workbook's sheets; `SimpleExcelGenerator.GenerateSimpleExcelFile` builds it and `SimpleExcelGenerator.SimpleWorkbookNames` states the names |
| PdfPatterns.RunEnd | frontend/src/utils/pdfProcessor.js:70-188 | a greedy class run ends where the class stops or the text ends |
| PdfPatterns.MaxRunUnique | frontend/src/utils/pdfProcessor.js:70-188 | a class run that cannot be extended is the one the greedy scan finds |
| PdfPatterns.Opt | frontend/src/utils/pdfProcessor.js:128-182 | an optional letter under case folding is taken exactly when the next character folds to it |
| PdfPatterns.OptChar | frontend/src/utils/pdfProcessor.js:70-188 | an optional punctuation character is taken exactly when it is the next character |
| PdfPatterns.AmountAt | frontend/src/utils/pdfProcessor.js:83-188 | an amount token `[\d,]+\.\d{2}` starting at a position has at most one end, and the scan finds exactly that end |
| PdfPatterns.LongDateAt | frontend/src/utils/pdfProcessor.js:76-77 | a long date, when found, ends after where it starts and within the text |
| PdfPatterns.TailAt | frontend/src/utils/pdfProcessor.js:107-188 | the amount tail of a row, when found, starts at or after the description's end and holds an amount token |
| PdfPatterns.DescriptionStops | frontend/src/utils/pdfProcessor.js:107-188 | a description run cannot pass a character outside its class |
| PdfPatterns.FirstHit | frontend/src/utils/pdfProcessor.js:107-188 | a lazy search, when it succeeds, settles on a hit between its start and its limit |
| PdfPatterns.FirstHitInClass | frontend/src/utils/pdfProcessor.js:107-188 | every position the lazy search steps over is in its class |
| PdfPatterns.FirstHitFirst | frontend/src/utils/pdfProcessor.js:107-188 | no position before the one the lazy search settles on is a hit |
| PdfPatterns.FirstHitNone | frontend/src/utils/pdfProcessor.js:107-188 | when the lazy search gives up, no position reachable through its class is a hit |
| PdfPatterns.FirstTail | frontend/src/utils/pdfProcessor.js:107-188 | the lazy description ends where the row's tail matches |
| PdfPatterns.ClassHitAllIn | frontend/src/utils/pdfProcessor.js:107-188 | the per-position class test agrees with the description's character class |
| PdfPatterns.FirstTailIsShortest | frontend/src/utils/pdfProcessor.js:107-188 | the lazy description is the shortest run in its class after which the tail matches, and when there is none no run in the class is followed by the tail |
| PdfPatterns.HeaderAt | frontend/src/utils/pdfProcessor.js:101-182 | a section header, when found, ends after where it starts and within the text |
| PdfPatterns.SectionEnd | frontend/src/utils/pdfProcessor.js:101-182 | a section ends at the first later stop word or at the end of the text, and holds no stop word before that |
| PdfPatterns.AccountAt | frontend/src/utils/pdfProcessor.js:70 | the account pattern, when it matches, ends within the text and has one group |
| PdfPatterns.LabelledDateAt | frontend/src/utils/pdfProcessor.js:76 | the labelled date pattern, when it matches, ends within the text and has one group |
| PdfPatterns.BalanceAt | frontend/src/utils/pdfProcessor.js:83-89 | a balance pattern, when it matches, ends within the text and has one group |
| PdfPatterns.RowBodyAt | frontend/src/utils/pdfProcessor.js:107-188 | a row body has a description in its class with no outer space, and then an amount token |
| PdfPatterns.DepositRowAt | frontend/src/utils/pdfProcessor.js:107 | a deposit row, when it matches, has three groups |
| PdfPatterns.DebitRowAt | frontend/src/utils/pdfProcessor.js:134-188 | an ATM or card row has two `MM-DD` dates, a description with no `-`, no `$` and no outer space, and an amount token |
| PdfPatterns.CheckRowAt | frontend/src/utils/pdfProcessor.js:162 | a check row, when it matches, has four groups |
| PdfPatterns.TailSkipsSpace | frontend/src/utils/pdfProcessor.js:107-188 | a space before the tail is part of its `\s*`: the tail matches one position earlier as well |
| PdfPatterns.TailGap | frontend/src/utils/pdfProcessor.js:107-188 | between the description and the amount there are only spaces, a minus and a dollar sign |
| PdfPatterns.DescriptionShape | frontend/src/utils/pdfProcessor.js:107-188 | the description the lazy group settles on lies in its class and has no space at either end |
| PdfPatterns.RowBodyGap | frontend/src/utils/pdfProcessor.js:107 | between the date and the amount of a deposit row there is no digit |
| PdfPatterns.DepositRowShape | frontend/src/utils/pdfProcessor.js:107 | a deposit row has an `MM-DD` date, a description without `$`, digits or outer spaces, and an amount token |
| PdfPatterns.DepositAmountFirstDigits | frontend/src/utils/pdfProcessor.js:107 | a deposit row's amount is the first digit run after its date |
| PdfPatterns.MatchAtDebitRow | frontend/src/utils/pdfProcessor.js:134-188 | the ATM and card row pattern is tried by the debit-row scanner |
| PdfPatterns.MatchAtBalance | frontend/src/utils/pdfProcessor.js:83-89 | the balance patterns are tried by the balance scanner |
| PdfPatterns.DebitFieldsShape | frontend/src/utils/pdfProcessor.js:134-188 | the fields a debit row cuts out are two dates, a description without `-` or `$`, and an amount token |
| PdfPatterns.CheckRowShape | frontend/src/utils/pdfProcessor.js:162 | a check row has an `MM-DD` date, a non-empty digit check number, an amount token and a non-empty digit reference number |
| PdfPatterns.AccountShape | frontend/src/utils/pdfProcessor.js:70 | an account number follows the word `account` and a separator of spaces, `#` and `:`, and is the whole digit run there |
| PdfPatterns.AccountWordNotNumber | frontend/src/utils/pdfProcessor.js:69-70 | a letter after `account` and its separator rules out a match at that word |
| PdfPatterns.BalanceSeparator | frontend/src/utils/pdfProcessor.js:83-89 | ` Balance: $` after the label word is scanned as the balance pattern scans it |
| PdfPatterns.BalanceAtStart | frontend/src/utils/pdfProcessor.js:83-89 | a balance label, ` Balance: $` and an amount token at the start of the text are read as that token |
| PdfPatterns.BalanceReadsToken | frontend/src/utils/pdfProcessor.js:82-89 | a balance label in any case, then ` Balance: $` and an amount token, is read as that amount whatever follows |
| PdfPatterns.MonthDayScan | frontend/src/utils/pdfProcessor.js:76-77 | the month and day of a long date are scanned as the date pattern scans them |
| PdfPatterns.YearScan | frontend/src/utils/pdfProcessor.js:76-77 | the comma and the year of a long date are scanned as the date pattern scans them |
| PdfPatterns.LongDateReads | frontend/src/utils/pdfProcessor.js:75-77 | a long date such as `June 5, 2003` is read in full |
| PdfPatterns.LabelledDateReads | frontend/src/utils/pdfProcessor.js:75-76 | `Statement Date: ` and a long date is read as that date whatever follows |
| PdfPatterns.StatementLabelScan | frontend/src/utils/pdfProcessor.js:76 | `Statement Date: ` is scanned as the labelled date pattern scans it |
| PdfPatterns.LabelledDateAtStart | frontend/src/utils/pdfProcessor.js:76 | a labelled date at the start of the text is read as that date |
| PdfPatterns.AccountReads | frontend/src/utils/pdfProcessor.js:69-70 | `Account # ` and digits not followed by a digit are read as those digits |
| PdfPatterns.AccountAtStart | frontend/src/utils/pdfProcessor.js:70 | an account number written as `Account # ` and digits at the start of the text is read |
| PdfPatterns.AccountNumberLabelMissed | frontend/src/utils/pdfProcessor.js:69-70 | `Account Number: ` and digits is not an account number at the word `Account`, although the comment names it as a supported form |
| PdfPatterns.CorrectedAccountAt | frontend/src/utils/pdfProcessor.js:69-70 | the pattern with the optional word `Number`, when it matches, ends within the text and has one group |
| PdfPatterns.CorrectedAccountExtends | frontend/src/utils/pdfProcessor.js:70 | the corrected pattern finds every account number the pattern as written finds, unchanged |
| PdfPatterns.CorrectedAccountReadsLabel | frontend/src/utils/pdfProcessor.js:69 | the corrected pattern reads `Account Number: ` and digits as those digits |
| PdfPatterns.CorrectedAccountAtStart | frontend/src/utils/pdfProcessor.js:69 | the corrected pattern reads an account number labelled `Account Number: ` at the start of the text |
| PdfPatterns.MatchAt | frontend/src/utils/pdfProcessor.js:70-188 | a pattern that matches at a position ends after it and within the text |
| PdfPatterns.ExecAt | frontend/src/utils/pdfProcessor.js:110-191 | the search finds the leftmost matching position from the start up to the end, or reports that none matches |
| PdfPatterns.MatchesAtLeftmost | frontend/src/utils/pdfProcessor.js:110-191 | each match the loop visits is the leftmost one at or after the end of the previous one |
| PdfPatterns.MatchesAtExhaustive | frontend/src/utils/pdfProcessor.js:110-191 | no match starts after the last one the loop visits |
| PdfPatterns.MatchesAtChained | frontend/src/utils/pdfProcessor.js:110-191 | the visited matches lie within the text and follow one another without overlap |
| PdfPatterns.MatcherAdvances | frontend/src/utils/pdfProcessor.js:70-188 | every match of a pattern ends after it starts and within the text |
| PdfPatterns.Exec | frontend/src/utils/pdfProcessor.js:110-191 | `exec` from `lastIndex` gives the leftmost position at or after it where the pattern matches, and none only when no position matches |
| PdfPatterns.MatchesStep | frontend/src/utils/pdfProcessor.js:110-191 | one turn of the loop visits the first match, then resumes where it ended |
| PdfPatterns.MatchesLeftmost | frontend/src/utils/pdfProcessor.js:110-191 | each visited match is the leftmost one at or after the end of the previous one |
| PdfPatterns.MatchesExhaustive | frontend/src/utils/pdfProcessor.js:110-191 | the loop stops only when no match is left |
| PdfPatterns.MatchesOrdered | frontend/src/utils/pdfProcessor.js:110-191 | the visited matches lie inside the text and follow one another without overlapping |
| PdfProcessor.RowsFromCons | frontend/src/utils/pdfProcessor.js:110-119 | a visited match the filter keeps adds its row in front of the later rows; one it drops adds nothing |
| PdfProcessor.CollectStep | frontend/src/utils/pdfProcessor.js:110-119 | one turn of the loop leaves the rows pushed plus the rows still to come unchanged |
| PdfProcessor.CollectTurn | frontend/src/utils/pdfProcessor.js:110-119 | one `exec` turn pushes the first match's row, if kept, and the rest come from where it ended |
| PdfProcessor.RowsFromMembers | frontend/src/utils/pdfProcessor.js:110-119 | every row comes from a visited match its filter keeps, and every kept match gives a row |
| PdfProcessor.ParseAccountInfo | frontend/src/utils/pdfProcessor.js:66-95 | the account fields are the first account match, the labelled date or else any long date, and the two balances in cents, each missing when its pattern finds nothing |
| PdfProcessor.CollectRows | frontend/src/utils/pdfProcessor.js:108-121 | the loop pushes, in order, the rows of the visited matches its filter keeps |
| PdfProcessor.FindSection | frontend/src/utils/pdfProcessor.js:101-104 | a section is the text from the first header of its category to the next stop word, or none without a header |
| PdfProcessor.ParseDeposits | frontend/src/utils/pdfProcessor.js:97-122 | the deposits are the kept rows of the deposit pattern within the deposits section |
| PdfProcessor.ParseAtmWithdrawals | frontend/src/utils/pdfProcessor.js:124-150 | the ATM withdrawals are the kept rows of the debit pattern within the ATM section, amounts negated |
| PdfProcessor.ParseChecksPaid | frontend/src/utils/pdfProcessor.js:152-176 | the checks are every row of the check pattern within the checks section |
| PdfProcessor.ParseVisaPurchases | frontend/src/utils/pdfProcessor.js:178-204 | the card purchases are the kept rows of the debit pattern within the card section, amounts negated |
| PdfProcessor.ParseBankStatementText | frontend/src/utils/pdfProcessor.js:39-64 | the record is the account fields and the four categories parsed from the same text |
| PdfProcessor.ProcessBankStatement | frontend/src/utils/pdfProcessor.js:26-35 | the statement is rejected with the unsupported-format message exactly when no account number is found; otherwise the parsed record is returned |
| PdfProcessor.AccountNumberNonEmpty | frontend/src/utils/pdfProcessor.js:28 | every account number found is a non-empty digit run, so it is never falsy |
| PdfProcessor.RowMatchAt | frontend/src/utils/pdfProcessor.js:101-191 | a visited row match lies within the category's section and matches the row pattern there |
| PdfProcessor.DepositMatchShape | frontend/src/utils/pdfProcessor.js:107 | a deposit match has a date, and a description without `$`, digits or outer spaces |
| PdfProcessor.DebitMatchShape | frontend/src/utils/pdfProcessor.js:134-188 | an ATM or card match has two dates and a description without `-`, `$` or outer spaces |
| PdfProcessor.CheckMatchShape | frontend/src/utils/pdfProcessor.js:162 | a check match has a date and non-empty digit check and reference numbers |
| PdfProcessor.RowOrigin | frontend/src/utils/pdfProcessor.js:110-199 | every row of a category comes from a kept match of the row pattern within the section |
| PdfProcessor.DepositsWellFormed | frontend/src/utils/pdfProcessor.js:107-117 | every deposit has an `MM-DD` date and a non-empty trimmed description without `$` or digits that is not the section heading |
| PdfProcessor.AtmWithdrawalsWellFormed | frontend/src/utils/pdfProcessor.js:134-145 | every ATM withdrawal has two dates, a non-empty trimmed description without `-` or `$` that does not contain `atm withdrawal`, and an amount of at most zero |
| PdfProcessor.VisaPurchasesWellFormed | frontend/src/utils/pdfProcessor.js:188-199 | every card purchase has two dates, a non-empty trimmed description without `-`, `$` or `visa`, and an amount of at most zero |
| PdfProcessor.ChecksPaidWellFormed | frontend/src/utils/pdfProcessor.js:162-172 | every check has an `MM-DD` date and non-empty digit check and reference numbers |
| PdfProcessor.ChecksPaidCount | frontend/src/utils/pdfProcessor.js:165-173 | every check match is kept: there are as many checks as matches |
| PdfProcessor.AccountNumberRead | frontend/src/utils/pdfProcessor.js:69-72 | `Account # ` and digits at the start of the text give that account number |
| PdfProcessor.NoAccountWordFrom | frontend/src/utils/pdfProcessor.js:70 | no account number starts where no letter `a` begins the word `account` |
| PdfProcessor.NumberLabelStatementRejected | frontend/src/utils/pdfProcessor.js:28-30 | a statement that labels its number `Account Number:` yields no account number and is rejected |
| PdfProcessor.NumberLabelStatementCorrected | frontend/src/utils/pdfProcessor.js:69-70 | with the corrected pattern the same statement yields its account number |
| PdfProcessor.StatementDateRead | frontend/src/utils/pdfProcessor.js:75-80 | `Statement Date: ` and a long date at the start of the text give that date |
| PdfProcessor.BalanceRead | frontend/src/utils/pdfProcessor.js:82-92 | a formatted amount after a balance label is read back as the same number of cents |
| PdfProcessor.BalanceAtStartRead | frontend/src/utils/pdfProcessor.js:83-86 | a balance matched at the start of the text is the match's amount in cents |
| PdfProcessor.AmountCents | frontend/src/utils/pdfProcessor.js:116 | `parseFloat(amount.replace(/,/g, ""))` of an amount token in cents; `PdfProcessor.UsdAmountCents` proves a grouped amount reads back as its cents |
| PdfProcessor.AccountInfoOf | frontend/src/utils/pdfProcessor.js:66-95 | the account number, statement date and two balances, each present exactly when its pattern matches; `PdfProcessor.ParseAccountInfo` computes it and `PdfProcessor.AccountNumberRead`, `PdfProcessor.StatementDateRead` and `PdfProcessor.BalanceRead` state what it reads |
| PdfProcessor.SectionOf | frontend/src/utils/pdfProcessor.js:101-185 | a category's section is the text from its first header to the first later stop word or the end; `PdfProcessor.SectionBounds` and `PdfProcessor.SectionPresent` state this |
| PdfPatterns.StopWords | frontend/src/utils/pdfProcessor.js:101-182 | the lookahead words that end each section: deposits stop at ATM, Checks or VISA, ATM at Checks, VISA or Deposits, checks at ATM, VISA or Deposits, card purchases at ATM, Checks or Deposits |
| PdfProcessor.KeepDeposit | frontend/src/utils/pdfProcessor.js:112 | a deposit row is kept when its trimmed description is non-empty and does not contain `deposits & other credits`; `PdfProcessor.DepositsWellFormed` states it of every deposit |
| PdfProcessor.KeepAtm | frontend/src/utils/pdfProcessor.js:139 | an ATM row is kept when its trimmed description is non-empty and does not contain `atm withdrawal`; `PdfProcessor.AtmWithdrawalsWellFormed` states it of every withdrawal |
| PdfProcessor.KeepVisa | frontend/src/utils/pdfProcessor.js:193 | a card row is kept when its trimmed description is non-empty and does not contain `visa`; `PdfProcessor.VisaPurchasesWellFormed` states it of every purchase |
| PdfProcessor.KeepCheck | frontend/src/utils/pdfProcessor.js:165-172 | every check row is kept; `PdfProcessor.ChecksPaidCount` proves there are as many checks as row matches |
| PdfProcessor.DepositsOf | frontend/src/utils/pdfProcessor.js:97-122 | the deposits are the kept row matches of the deposits section in text order; `PdfProcessor.ParseDeposits` computes them and `PdfProcessor.DepositsWellFormed` states their shape |
| PdfProcessor.AtmWithdrawalsOf | frontend/src/utils/pdfProcessor.js:124-150 | the ATM withdrawals are the kept row matches of the ATM section with negated amounts; `PdfProcessor.ParseAtmWithdrawals` computes them and `PdfProcessor.AtmWithdrawalsWellFormed` states their shape |
| PdfProcessor.ChecksPaidOf | frontend/src/utils/pdfProcessor.js:152-176 | the checks are all row matches of the checks section; `PdfProcessor.ParseChecksPaid` computes them and `PdfProcessor.ChecksPaidWellFormed` states their shape |
| PdfProcessor.VisaPurchasesOf | frontend/src/utils/pdfProcessor.js:178-204 | the card purchases are the kept row matches of the card section with negated amounts; `PdfProcessor.ParseVisaPurchases` computes them and `PdfProcessor.VisaPurchasesWellFormed` states their shape |
| PdfProcessor.RecordOf | frontend/src/utils/pdfProcessor.js:39-64 | the parsed record is the account information and the four categories of the same text; `PdfProcessor.ParseBankStatementText` computes it and `PdfProcessor.ProcessBankStatement` accepts it exactly when it has an account number |
| PdfProcessor.UsdAmountCents | frontend/src/utils/pdfProcessor.js:85 | a grouped amount with its commas removed reads back as the same cents |
| PdfProcessor.UsdIsAmountToken | frontend/src/utils/pdfProcessor.js:83-89 | a grouped amount is an amount token |
| PdfProcessor.SectionBounds | frontend/src/utils/pdfProcessor.js:101-182 | a section runs from the first header of its category to the first later stop word or the end, and no row is read beyond it |
| PdfProcessor.SectionPresent | frontend/src/utils/pdfProcessor.js:101-102 | a category has a section exactly when its header occurs in the text |
| PdfProcessor.SampleDepositLineNotRow | frontend/src/utils/pdfProcessor.js:106-107 | the deposit pattern does not read its own commented example line: the reference number is the first digit run after the date, and it is no amount |
| PdfProcessor.DepositRowAmount | frontend/src/utils/pdfProcessor.js:107 | a deposit row at the start of a line holds an amount token with no digit between the date and it |
| PdfProcessor.SampleDepositLineNoToken | frontend/src/utils/pdfProcessor.js:106-107 | the example line has no amount token that only non-digits separate from its date |

## Left out

- PDF text extraction with pdf.js (`frontend/src/utils/pdfProcessor.js:1-23`) is a library call plus asynchronous I/O. The parser's input is the flattened text.
- Workbook objects, cell styling, column widths, `Blob` creation and DOM downloads are foreign calls. Sheets are sequences of rows of cells, and a download is the name and contents it would write.
- `simpleExcelGenerator.js` from line 66 on holds the two-character text `\n` where line breaks belong, so that part of the file does not parse. Its export and sheet-writing tail is not modelled. The row building of lines 12-65 is.
- Floating-point text: `formatFileSize` beyond zero divides with `Math.log` and `toFixed(2)`. That text is taken as the parameter `scaledText`; the unit choice, the zero case and the `undefined` unit past gigabytes are modelled.
- `localeCompare` is modelled as code-unit order. The two agree on the dates the transaction sorts compare, which are digits and `-`. They differ on names in general: ICU collation puts `_` before `-`, `.` and digits (`a_b.pdf` before `a-b.pdf`), orders `a` before `B`, and sorts accented letters with their base letters. So the documents name order is code-unit order, not the locale's order.
- Date strings are compared as strings, as the sorts do. `new Date(conversion_date)` is taken as an already parsed time stamp.
- The clock, `uuid4`, `Math.random`, the PyPDF2 page count and bcrypt password hashing are inputs (`now`, ids, `randomPart`, `pageCount`, `passwordHash`).
- The Gemini extraction (`backend/server.py:343-423`) is an input: its parsed record or its error text. Only the fence stripping of its answer (`backend/server.py:425-429`) is modelled.
- JSON amounts from the Gemini extraction (`frontend/src/pages/Converter.jsx:167`) are taken as whole cents. Amounts with three or more decimals, binary rounding in `toFixed` (`(1.005).toFixed(2)` is `1.00`) and integers beyond 2^53 are not modelled.
- DodoRoutes.PaymentsDb.SubmitEnterpriseContact: takes the body as a map from field names to strings. A body that is not a JSON object gets the 500 `Failed to process contact form` in `enterprise_contact` (`backend/dodo_routes.py:389`, `420-424`). A non-string value is judged by Python truth, so `"phone": 0` gives the 400 for a missing field, and otherwise it is stored as it is. The map of strings cannot express either case.
- The serializers take complete records: the `Statement` types make every field present. In the source a record with a missing field can throw. A `null` amount throws at `deposit.amount.toFixed` in the earlier results panel, which then shows the alert `Download failed`. `localeCompare` on an undefined date throws in the sort of `excelGenerator.js`, which gives `Failed to generate Excel file`. Those throws are not modelled.
- MongoDB, Motor, JWT issuing and verification (`get_current_user`, `verify_token`), the Dodo SDK client, `standardwebhooks` signature crypto, SMTP and the enterprise e-mail are external services. The signature check is a verified payload or none. A provider call is its answer or its error.
- The login, logout and profile-read routes and the status-check routes of `backend/server.py` are not modelled. They hold no quota logic.
- The reset-hours arithmetic of `check_pages` (`backend/server.py:226-231`) reads `datetime.now`. The hours are the parameter `hoursToReset`, and the message built from them is modelled.
- `getResetMessage` and `checkAnonymousLimit` of `Converter.jsx` read the clock and the network. The anonymous-limit answer is an input to the upload check.
- E-mail syntax (`EmailStr`) is pydantic's validator. Whether the address is valid is the parameter `emailValid`.
- The response and request models of `backend/models.py` that carry no validator or default, and `PasswordReset`, are plain records and are not modelled.
- Python's `lower()` and JavaScript's `toLowerCase()` fold ASCII letters only in this model. The needles the source fixes are ASCII, so the parser filters and header names agree. The documents search lower-cases a term the user types, and there non-ASCII folding is lost: a search for `É` finds `été.pdf` in the source but not in the model.
- Request header order: a Python dict built from the request headers keeps arrival order and the model's `map` does not. The value kept for a repeated request header is the last one, as in the dict comprehension.
- Response headers: the upstream headers come from httpx, which lower-cases their names and joins repeated values with `, `. `BlogProxy.UpstreamResponse.headers` stands for that already-merged list. The merging itself is not modelled.
- The webhook's generic 500 for an exception inside an event handler (`backend/dodo_routes.py:241-243`) is not modelled. No modelled handler raises.
- The fingerprint's canvas, WebGL, audio and screen readings and the `crypto.subtle` SHA-256 digest are browser APIs. They are parameters, and only the hex encoding of the digest bytes is modelled.
- `frontend/frontend-nextjs/src/utils/fingerprint.js` is a thin wrapper around a library and is not modelled.
- CORS, logging, toasts, alerts and console output have no effect on the modelled state.
- Concurrency is not modelled. Each request and each page event is one atomic step.
- DodoRoutes.UpdateWhereUserIdField: updates every user whose `user_id` field matches. `update_one` updates only the first match in collection order, and the model's keyed map has no such order. The cases the lemmas state, no match or one, are the same.
- DodoRoutes.PaymentsDb.PortalCustomer: takes any of the user's subscriptions with the provider. `find_one` takes the first in collection order, which the keyed map does not keep. The provider's portal call (`backend/dodo_routes.py:166-170`) and the 500 for its errors are not modelled. The method stops at the customer id the portal is opened for.
- DodoRoutes.PaymentsDb.CreateSubscription: a subscription id that is already in the collection is overwritten. `insert_one` would store a second document. The provider's ids are unique, so this does not arise.

## Findings

| source | as written | input that shows it | evidently intended | confidence | as-written member | corrected member |
|---|---|---|---|---|---|---|
| frontend/src/utils/pdfProcessor.js:69-70 | the account pattern allows only spaces, `#` and `:` between `Account` and the digits, although the comment above it announces support for an `Account Number:` label | the statement text `Account Number: 123456789` yields no account number, so processing fails with the unsupported-format error | an optional word such as `Number` may stand between `Account` and the colon | high (not executed) | PdfPatterns.AccountNumberLabelMissed, PdfProcessor.NumberLabelStatementRejected | PdfPatterns.CorrectedAccountAt, PdfPatterns.CorrectedAccountExtends, PdfProcessor.NumberLabelStatementCorrected |
| backend/server.py:269-274 | the 400 for a user short of pages is raised inside the `try` whose `except Exception` turns every error into a 500 | a daily-free user with 2 pages left uploads `a.pdf` of 5 pages: the answer is 500 `Failed to process PDF: 400: Insufficient pages…` | the 400 reaches the client, as `dodo_routes.py` arranges with `except HTTPException: raise` | high (not executed) | Server.ProcessPdfAsWritten, Server.InsufficientPagesAnswered500 | Server.ProcessPdf, Server.ProcessPdfDiffersOnlyOnQuota |
| backend/dodo_routes.py:270-271 | the user update of an activated, held or cancelled subscription selects on a `user_id` field, which the users created by sign-up do not have: they are keyed by `_id` | a user signs up, subscribes, and the `subscription.active` event arrives: the user stays on `daily_free` | the update selects the user by `_id` | medium (not executed) | DodoRoutes.UpdateWhereUserIdField, DodoRoutes.UsersAfterAsWritten, DodoRoutes.UserIdFilterMissesSignupUsers | DodoRoutes.UpdateById, DodoRoutes.UsersAfter, DodoRoutes.SignupUserActivation |

The route methods follow the code as written: `Server.Store.ProcessPdfWithAi` answers with `Server.ProcessPdfAsWritten`, and `DodoRoutes.PaymentsDb.Webhook` updates the users by `DodoRoutes.UsersAfterAsWritten`. The corrected members stand beside them. `Server.ProcessPdfDiffersOnlyOnQuota` proves that the two conversion answers differ only for a user short of pages. `DodoRoutes.AsWrittenAgreesWhenKeyed` proves that the two user updates agree when every user's `user_id` field is its key. The parser keeps the account pattern as written, so that the processing result stays the one the source gives. `PdfPatterns.CorrectedAccountExtends` proves that the corrected pattern finds an account number wherever the written one does.
