# BillScribe invoicing rules in Dafny

BillScribe is an invoicing web application. Users sign in, keep a list of clients,
write invoices with line items and taxes, preview and print them, and subscribe
through Stripe to a Free, Pro or Enterprise tier. The tier limits how many clients
and monthly invoices a user may create, and which invoice templates they may use.

This project models the rules behind that in Dafny and proves properties of them:

- **Tiers and entitlements** (`Tiers`, `TemplateAccess`, `Usage`). The price-id table
  maps to tiers, each tier has limits, and the effective tier follows from a
  subscription. The client and invoice gates return their reasons, and a template is
  available or not.
- **Schema** (`InvoicesSchema`, `ClientsSchema`, `InvoiceItemsSchema`,
  `SubscriptionsSchema`, `Db`). This covers the row types, enums and defaults. It also
  covers the database as a class `Db.Database` whose tables are sequences, with the
  key and reference rules as its invariant. Deleting a profile or a client follows
  the cascade and set-null rules of the foreign keys. The profiles table's
  `invoice_template` column (`Db.ProfileRow.invoiceTemplate`) is taken from the
  profile queries (`src/lib/db/queries/profiles.ts:14`, `:27`, `:42`, `:64`), which read
  and write it. The schema file `src/lib/db/schema/profiles.ts:3-13` does not declare it.
- **Queries** (`InvoiceQueries`, `InvoiceStore`, `InvoiceListing`, `ClientQueries`,
  `SubscriptionQueries`). These are the invoice-number suggestion, the number-exists
  check, create, update and delete, status updates, the monthly count, and the
  filtered, sorted, paged listing with its item grouping. They also cover the client
  list and insert, and the keyed subscription updates. Each query that writes is a
  method on the database, proved against a function of the old tables.
- **Actions** (`InvoiceActions`, `ClientActions`, `ProfileActions`) and the Stripe
  webhook (`StripeWebhook`). Each is a chain of checks in a fixed order; the first
  failure decides the answer and leaves the tables unchanged. The server's totals
  are included.
- **The invoice editor** (`InvoiceForm`, `LineItems`). This covers the form's totals,
  its validation with its error keys, and the preview filter. It also covers adding,
  removing and editing rows, which keeps each amount equal to quantity × price.
- **Validation** (`InvoiceValidation`). These are the zod schemas for line items,
  invoices and clients, as predicates with the field errors they report.

A few helper modules hold the JavaScript and Postgres behaviour the rules depend on:

- `Numbers`: `parseFloat`, `parseInt`, `toFixed(2)` and `padStart`.
- `Text`: `trim()`, `ILIKE` and the C collation order of text.
- `Dates`: `new Date(…)` versus the Postgres `date` type.
- `SqlTypes`: `numeric(p, 2)` columns.
- `Sorting`: `ORDER BY` as a stable insertion sort.
- `Seqs`: filtering and distinct keys.
- `Wrappers`: `Option`.

Money is an exact real number, and NaN is `None`. A uuid primary key is a number
drawn from a counter. The signed-in user, the current time, the year and the start
of the month are parameters.

Several facts of the source are proved as stated:

- The server sums the amounts as sent and never recomputes quantity × price
  (`InvoiceActions.TotalsIgnoreQuantityAndPrice`).
- `updateInvoice` rewrites invoices of any status (`InvoiceStore.UpdateIgnoresStatus`).
- The invoice-number check is per user, while the database index is global
  (`src/lib/db/schema/invoices.ts:29`, `InvoiceStore.OtherUsersNumberBlocksInsert`).
- `createClientAction` never consults the client quota
  (`ClientActions.CreatesBeyondClientQuota`).
- A line with an empty unit price passes the form but fails the server's schema
  (`InvoiceActions.EmptyUnitPricePassesOnlyTheForm`).
- The next-number query takes the greatest existing number in text order, not by
  value (`InvoiceQueries.NextNumberRepeatsAfter9999`, see Findings).

## Model

| member | source | states |
|---|---|---|
| Db.Database.constructor | src/lib/db/schema/invoices.ts:21-40 | an empty database satisfies every key and reference rule |
| Db.DetachClients | src/lib/db/schema/invoices.ts:26-28 | `ON DELETE SET NULL`: invoices that named a deleted client keep no client, and every other invoice is unchanged, in place |
| Db.DetachClientsKeepsKeys | src/lib/db/schema/invoices.ts:22-29 | clearing clients keeps invoice ids and numbers unique |
| Db.FilterIdsBelow | src/lib/db/schema/invoices.ts:22 | deleting rows keeps every id below the counter |
| Db.ItemsOfSnoc | src/lib/db/schema/invoice-items.ts:4-14 | one more item row joins its own invoice's items at the end and no other invoice's |
| Db.AppendFreshKeys | src/lib/db/schema/invoices.ts:22 | rows given counter ids keep the primary key unique |
| Db.Database.DeleteClient | src/lib/db/schema/invoices.ts:26-28 | deleting a client removes its row, clears it from the invoices that named it, changes nothing else and keeps the tables valid |
| Db.DeleteClientKeepsReferences | src/lib/db/schema/invoices.ts:26-28 | after deleting a client no invoice names a missing client |
| Db.WithoutProfileRemovesTheUser | src/lib/db/schema/clients.ts:9-11 | deleting a profile cascades: none of the user's clients, invoices, items of those invoices or subscription remains, and no invoice names one of the user's clients |
| Db.RemainingInvoicesAreOthers | src/lib/db/schema/invoices.ts:23-28 | every invoice left after a profile delete is another user's and names none of the deleted clients |
| Db.WithoutProfileKeepsOthers | src/lib/db/schema/invoices.ts:23-28 | every other user's profile, client, subscription and kept item remains, and each other user's invoice remains, without its client when that client was deleted |
| Db.WithoutProfileKeepsValid | src/lib/db/schema/subscriptions.ts:24-27 | the cascade leaves every key unique and every reference valid |
| Db.WithoutProfileKeepsKeys | src/lib/db/schema/invoices.ts:22-29 | the cascade keeps every key unique |
| Db.WithoutProfileKeepsReferences | src/lib/db/schema/invoice-items.ts:6-8 | the cascade leaves no row pointing at a deleted one |
| Db.OtherProfilesRemain | src/lib/db/schema/clients.ts:9-11 | deleting one profile keeps every other profile id |
| Db.InvoiceReferencesRemain | src/lib/db/schema/invoices.ts:23-28 | after the cascade every invoice's user and client exist |
| Db.ItemReferencesRemain | src/lib/db/schema/invoice-items.ts:6-8 | after the cascade every item's invoice exists |
| Db.Database.DeleteProfile | src/lib/db/schema/clients.ts:9-11 | deleting a profile applies the whole cascade and keeps the tables valid |
| Tiers.LimitsOf | src/lib/subscriptions/tiers.ts:8-21 | only Enterprise has no client quota and no monthly invoice quota |
| Tiers.TierFromPriceIdCharacterized | src/lib/subscriptions/tiers.ts:25-44 | Pro and Enterprise are selected by exactly their own price id; every other value, null and "" included, selects Free |
| Tiers.DisplayName | src/lib/subscriptions/tiers.ts:50-57 | a tier is shown as "Free", "Pro" or "Enterprise" |
| Tiers.DisplayNameInjective | src/lib/subscriptions/tiers.ts:50-57 | two tiers shown under the same name are the same tier |
| Tiers.LimitsGrowWithLevel | src/lib/subscriptions/tiers.ts:8-21 | a higher tier never has a smaller client or invoice quota than a lower one |
| TemplateAccess.TemplateTier | src/lib/subscriptions/template-access.ts:30-32 | a known template's minimum tier is its table entry; an unknown id falls back to Free |
| TemplateAccess.AvailableIffReachesTemplateTier | src/lib/subscriptions/template-access.ts:18-25 | a known template is available exactly when the user's tier reaches the template's tier |
| TemplateAccess.UnknownTemplateUnavailable | src/lib/subscriptions/template-access.ts:18-32 | an unknown id is unavailable to every tier, although its reported tier is Free |
| TemplateAccess.TemplatesByTier | src/lib/subscriptions/template-access.ts:6-25 | with tiers ranked free < pro < enterprise: Free gets default and classic, Pro adds simple, Enterprise gets every listed template |
| TemplateAccess.AvailabilityGrowsWithLevel | src/lib/subscriptions/template-access.ts:18-25 | with ranked tiers, upgrading never takes a template away |
| InvoicesSchema.StatusFromLabel | src/lib/db/schema/invoices.ts:13-19 | a label the enum accepts is the label of the status it yields |
| InvoicesSchema.StatusLabelRoundTrip | src/lib/db/schema/invoices.ts:13-19 | every invoice status is accepted back from its own label |
| SubscriptionsSchema.StatusFromLabel | src/lib/db/schema/subscriptions.ts:11-20 | a label the enum accepts is the label of the status it yields |
| SubscriptionsSchema.StatusLabelRoundTrip | src/lib/db/schema/subscriptions.ts:11-20 | every subscription status is accepted back from its own label |
| Usage.UserTier | src/lib/subscriptions/usage.ts:24-38 | no subscription, or one that is neither active nor trialing, gives Free; otherwise the tier of its price id |
| Usage.CanCreateClient | src/lib/subscriptions/usage.ts:40-62 | allowed exactly when the tier has no client quota or the active-client count is below it; a denial, and only a denial, carries the quota-and-tier reason |
| Usage.CanCreateInvoice | src/lib/subscriptions/usage.ts:64-86 | allowed exactly when the tier has no monthly quota or this month's count is below it; a denial, and only a denial, carries the count/limit reason |
| Usage.ClientReasonMentionsLimitAndTier | src/lib/subscriptions/usage.ts:53-58 | the client denial names the quota and the tier's display name |
| Usage.InvoiceReasonMentionsUsageAndTier | src/lib/subscriptions/usage.ts:77-82 | the invoice denial shows "count/limit" and the tier's display name |
| Usage.UnlimitedIgnoresCounts | src/lib/subscriptions/usage.ts:46-49 | for Enterprise both gates allow, whatever the counts |
| Usage.GetUsageStats | src/lib/subscriptions/usage.ts:88-114 | the summary reports the user's tier, its name, its quotas and the two counts as given |
| Usage.UsageStatsAgreeWithGates | src/lib/subscriptions/usage.ts:97-101 | the summary's two flags equal the two gates' answers for the same counts |
| InvoiceValidation.Check | src/lib/validations/invoice.ts:3-19 | a check yields no issue exactly when it passes, and otherwise only its own field and message |
| InvoiceValidation.LineItemIssues | src/lib/validations/invoice.ts:3-19 | every issue of a line item is filed under "items" |
| InvoiceValidation.LineItemIssuesIffInvalid | src/lib/validations/invoice.ts:3-19 | a line item has no issue exactly when it has a description, a quantity above zero and a unit price of at least zero |
| InvoiceValidation.AmountIsUnconstrained | src/lib/validations/invoice.ts:18 | the amount field never changes a line item's issues |
| InvoiceValidation.ItemsIssues | src/lib/validations/invoice.ts:35-37 | the items produce no issue exactly when every item is valid |
| InvoiceValidation.InvoiceIssuesIffInvalid | src/lib/validations/invoice.ts:21-50 | the invoice schema reports nothing exactly when there is a number, an issue date, an acceptable tax rate, at least one item, every item valid and no due date before the issue date |
| InvoiceValidation.InvalidItemRejects | src/lib/validations/invoice.ts:35-37 | one invalid line item rejects the whole invoice |
| InvoiceValidation.DueDateIssue | src/lib/validations/invoice.ts:39-50 | the due-date message appears, under dueDate, exactly when both dates are given and the due date is not on or after the issue date; never without a due date |
| InvoiceValidation.ItemsFieldIsItems | src/lib/validations/invoice.ts:35-37 | every issue of every line item is filed under "items" |
| InvoiceValidation.ClientIssuesIffInvalid | src/lib/validations/invoice.ts:52-58 | the client schema reports nothing exactly when there is a name and the e-mail is absent, empty or matches zod's e-mail pattern |
| InvoiceValidation.ClientErrorKeys | src/lib/validations/invoice.ts:52-58 | the field errors hold "name" exactly when the name is empty and "email" exactly when a non-empty e-mail fails zod's pattern |
| InvoiceValidation.EmailExamples | src/lib/validations/invoice.ts:54 | zod's e-mail pattern accepts "o'neil+bills@mail.example.com" and refuses a one-letter top-level domain, a domain without a dot, a '#' in the local part, two dots in a row and a leading dot |
| InvoiceValidation.FieldErrors | src/actions/client.ts:42-50 | the flattened errors have a key exactly for each field some issue names |
| InvoiceValidation.FieldErrorsListMessages | src/actions/client.ts:42-50 | every issue's message is listed under its field |
| InvoiceValidation.FieldErrorsEmptyIffNoIssues | src/actions/client.ts:42-50 | the field errors are empty exactly when there is no issue |
| ProfileActions.WithProfilePatch | src/lib/db/queries/profiles.ts:45-68 | the patch keeps every row's id, e-mail and creation time, and leaves every other user's row unchanged |
| ProfileActions.PatchKeepsValid | src/lib/db/queries/profiles.ts:45-68 | a profile patch keeps every key and reference of the schema |
| ProfileActions.UpdateProfile | src/lib/db/queries/profiles.ts:45-68 | the store afterwards is the old one with the patch applied to the profiles, and stays valid |
| ProfileActions.ProfileOutcome | src/actions/profile.ts:24-67 | the action fails exactly when nobody is signed in, and a failure changes nothing |
| ProfileActions.ProfileFieldsWritten | src/actions/profile.ts:37-60 | a filled-in field is stored as typed, a blank one keeps the stored value; the logo, the template and the other tables are untouched |
| ProfileActions.UpdateProfileAction | src/actions/profile.ts:24-67 | the action's answer and new store are those of `ProfileOutcome`, and the store stays valid |
| ProfileActions.ValidTemplatesAreTheTable | src/actions/profile.ts:16 | the accepted templates are exactly the templates of the tier table |
| ProfileActions.TemplateOutcome | src/actions/profile.ts:74-106 | a failure leaves the store unchanged |
| ProfileActions.TemplateGuardOrder | src/actions/profile.ts:82-94 | the checks run signed-in, known template, access in that order; a denial shows the gate's reason or the fixed text; success exactly when all three pass |
| ProfileActions.OnlyTemplateWritten | src/actions/profile.ts:96-100 | on success only the user's row changes, and only its template and update time |
| ProfileActions.UpdateInvoiceTemplateAction | src/actions/profile.ts:74-106 | the action's answer and new store are those of `TemplateOutcome`, and the store stays valid |
| ClientActions.CreateClientOutcome | src/actions/client.ts:21-66 | an answer other than a created client leaves the store unchanged |
| ClientActions.ClientGuardOrder | src/actions/client.ts:30-50 | nobody signed in is answered first; then the form is rejected exactly when the client schema fails, with errors naming exactly the failing fields |
| ClientActions.CreatesBeyondClientQuota | src/actions/client.ts:52-61 | a valid form always adds the client, even when the tier's client gate would refuse |
| ClientActions.CreatedClientFields | src/actions/client.ts:52-61 | the created client has the form's non-empty name and each contact field exactly when it was filled in, as typed |
| ClientActions.CreateClientAction | src/actions/client.ts:21-66 | the action's answer and new store are those of `CreateClientOutcome`, and the store stays valid |
| ClientQueries.Summaries | src/lib/db/queries/clients.ts:16-23 | one summary per row, in order, holding the row's returned columns |
| ClientQueries.GetClients | src/lib/db/queries/clients.ts:14-29 | the list holds the summaries of the user's rows, as a multiset |
| ClientQueries.SortByNameIsSorted | src/lib/db/queries/clients.ts:26 | the sort orders clients by name and keeps every client |
| ClientQueries.GetClientsIsTheUsersByName | src/lib/db/queries/clients.ts:14-29 | the list is ordered by name, as long as the user's rows, and holds exactly the summaries of the user's rows |
| ClientQueries.SummaryOfOwned | src/lib/db/queries/clients.ts:24-25 | a summary is in the user's summaries exactly when some row of the user has it |
| ClientQueries.InsertClient | src/lib/db/queries/clients.ts:39-67 | the insert fails exactly when the user has no profile; otherwise the new row is appended and the counter advances |
| ClientQueries.StoredContactFields | src/lib/db/queries/clients.ts:45-52 | a contact field is stored as null exactly when it was absent or empty, and otherwise as given; the row is the user's and active |
| ClientQueries.InsertClientKeepsValid | src/lib/db/queries/clients.ts:39-52 | the insert keeps every key and reference of the schema |
| ClientQueries.CreatedClientIsListed | src/lib/db/queries/clients.ts:14-67 | after the insert the user's list holds one more client, the new one |
| ClientQueries.OthersListsUnchanged | src/lib/db/queries/clients.ts:14-67 | every other user's list is unchanged by the insert |
| ClientQueries.OwnedAfterInsert | src/lib/db/queries/clients.ts:25 | an appended row joins the end of its own user's rows and no one else's |
| ClientQueries.CreateClient | src/lib/db/queries/clients.ts:39-67 | returns the new client exactly when the insert succeeds, with the store then the insert's result; otherwise the database error and no change |
| SubscriptionQueries.Patched | src/lib/db/queries/subscriptions.ts:42-54 | a patch sets exactly the fields it names and `updatedAt`; id, user, customer and creation time are kept |
| SubscriptionQueries.PatchIsIdempotent | src/lib/db/queries/subscriptions.ts:42-54 | applying a patch twice is applying it once at the later time |
| SubscriptionQueries.Updated | src/lib/db/queries/subscriptions.ts:42-54 | every row the key selects is patched and every other row is left as it was, in place |
| SubscriptionQueries.FirstUpdated | src/lib/db/queries/subscriptions.ts:52-53 | the returned row is the patched form of a selected row, and there is none exactly when no row is selected |
| SubscriptionQueries.UnknownKeyIsNoOp | src/lib/db/queries/subscriptions.ts:42-54 | an update whose key selects no row changes nothing and returns nothing |
| SubscriptionQueries.CustomerSelectsOneRow | src/lib/db/schema/subscriptions.ts:28 | a customer id selects at most one row, because it is unique |
| SubscriptionQueries.SubscriptionIdSelectsOneRow | src/lib/db/schema/subscriptions.ts:29 | a Stripe subscription id selects at most one row, because non-null ids are unique |
| SubscriptionQueries.UpdateIsIdempotent | src/lib/db/queries/subscriptions.ts:42-54 | repeating an update changes nothing but `updatedAt` |
| SubscriptionQueries.UpdateKeepsKeys | src/lib/db/schema/subscriptions.ts:22-37 | an update the unique index accepts keeps every key of the table unique |
| SubscriptionQueries.UpdateWithoutNewSubscriptionIdKeepsUnique | src/lib/db/schema/subscriptions.ts:29 | an update that sets no subscription id, or clears it, never breaks the uniqueness of subscription ids |
| SubscriptionQueries.TakenSubscriptionIdIsRefused | src/lib/db/schema/subscriptions.ts:29 | setting a subscription id that another row holds violates the unique index |
| SubscriptionQueries.ApplyUpdate | src/lib/db/queries/subscriptions.ts:42-68 | the update either writes the patched table and returns the first updated row, or raises and leaves the table; other tables never change |
| SubscriptionQueries.UpdateSubscription | src/lib/db/queries/subscriptions.ts:42-54 | `updateSubscription`: the update selected by Stripe customer id, raising when the unique index refuses it |
| SubscriptionQueries.UpdateSubscriptionBySubscriptionId | src/lib/db/queries/subscriptions.ts:56-68 | `updateSubscriptionBySubscriptionId`: the update selected by Stripe subscription id, raising when the unique index refuses it |
| SubscriptionQueries.GetSubscriptionByUserId | src/lib/db/queries/subscriptions.ts:8-17 | the row found belongs to the user, and there is none exactly when the user has no row |
| SubscriptionQueries.GetSubscriptionByStripeCustomerId | src/lib/db/queries/subscriptions.ts:19-28 | the row found has the customer id, and there is none exactly when no row has it |
| SubscriptionQueries.UserSubscriptionIsUnique | src/lib/db/schema/subscriptions.ts:24-27 | with one row per user, the lookup by user returns that user's row |
| SubscriptionQueries.NewSubscription | src/lib/db/queries/subscriptions.ts:30-40 | a new row is the user's and the customer's, `incomplete`, not cancelling, with no subscription or price id |
| SubscriptionQueries.InsertSubscriptionKeepsValid | src/lib/db/schema/subscriptions.ts:22-37 | inserting for a user with a profile, no row and an unused customer id keeps every key unique and every user reference valid |
| SubscriptionQueries.NextIdIsNotASubscriptionId | src/lib/db/schema/subscriptions.ts:23 | the next id is not yet used by any subscription row |
| SubscriptionQueries.CreatedSubscriptionIsFound | src/lib/db/queries/subscriptions.ts:8-40 | after an insert the new row is what both lookups return |
| SubscriptionQueries.CreateSubscription | src/lib/db/queries/subscriptions.ts:30-40 | `createSubscription` succeeds exactly when the user has a profile, no row and an unused customer id, and then appends the new row; otherwise it raises and changes nothing |
| StripeWebhook.ReferencedSubscription | src/app/api/stripe/webhook/route.ts:81-87 | an invoice names a subscription exactly when its reference is present and not the empty id, and the id is the reference's |
| StripeWebhook.TableAfter | src/lib/db/queries/subscriptions.ts:42-68 | a successful update yields the updated table |
| StripeWebhook.Respond | src/app/api/stripe/webhook/route.ts:10-135 | the answer is 200 exactly when the signature and secret are present, the event verifies and handling succeeds; only then do the subscriptions change; every other answer is an error with 400 or 500 |
| StripeWebhook.RejectedRequestsChangeNothing | src/app/api/stripe/webhook/route.ts:15-38 | a missing signature is 400, a missing secret 500, an event that does not verify 400, checked in that order, and none of them changes the table |
| StripeWebhook.SyncEventRewritesCustomerRow | src/app/api/stripe/webhook/route.ts:42-67 | a created or updated subscription rewrites the customer's row with its id, status, price (null when empty), period in milliseconds and cancel flag, and leaves other rows |
| StripeWebhook.DeletedEventCancels | src/app/api/stripe/webhook/route.ts:69-77 | a deleted subscription always succeeds, sets the row holding it to `canceled` with subscription and price cleared, and leaves other rows |
| StripeWebhook.PaymentSucceededKeepsPlan | src/app/api/stripe/webhook/route.ts:79-109 | a paid invoice changes only the customer's row and never its subscription id, price or cancel flag |
| StripeWebhook.FailedRetrieveFailsHandling | src/app/api/stripe/webhook/route.ts:128-134 | when Stripe's retrieve fails, handling fails and the answer is 500 "Webhook processing failed" with the table unchanged |
| StripeWebhook.PaymentFailedMarksPastDue | src/app/api/stripe/webhook/route.ts:111-121 | a failed payment of a subscription invoice sets the customer's row to `past_due`; an invoice without a subscription changes nothing |
| StripeWebhook.UnhandledEventIsAcknowledged | src/app/api/stripe/webhook/route.ts:123-127 | any other event type is answered 200 and changes nothing |
| StripeWebhook.HandleWebhook | src/app/api/stripe/webhook/route.ts:10-135 | the handler answers as `Respond` says and leaves the subscriptions as it says; no other table changes |
| StripeWebhook.HandleEvent | src/app/api/stripe/webhook/route.ts:41-125 | handling succeeds exactly when the event's update is accepted, and then writes its table, else leaves the table |
| StripeWebhook.ApplyPatch | src/lib/db/queries/subscriptions.ts:42-68 | one update either writes the updated table or fails and leaves it |
| InvoiceQueries.InvoicePrefix | src/lib/db/queries/invoices.ts:70-71 | the prefix is "INV-", the year and "-" |
| InvoiceQueries.NumbersUnder | src/lib/db/queries/invoices.ts:73-81 | the selected numbers are exactly the user's numbers that start with the prefix |
| InvoiceQueries.GreatestText | src/lib/db/queries/invoices.ts:82-83 | `ORDER BY invoice_number DESC LIMIT 1` picks a number that no other selected number exceeds in text order |
| InvoiceQueries.NextInvoiceNumber | src/lib/db/queries/invoices.ts:69-97 | `getNextInvoiceNumber` always suggests a number under the year's prefix |
| InvoiceQueries.FirstNumberOfYear | src/lib/db/queries/invoices.ts:85-87 | a user with no number under the year's prefix is offered "INV-<year>-0001" |
| InvoiceQueries.NextInvoiceNumberFollowsLast | src/lib/db/queries/invoices.ts:89-96 | otherwise the suggestion is the prefix and the zero-padded successor of the sequence of the greatest number |
| InvoiceQueries.NumberBelowGreatest | src/lib/db/queries/invoices.ts:73-83 | every number of the user under the prefix is at most the one the query returns |
| InvoiceQueries.NextNumberIsFresh | src/lib/db/queries/invoices.ts:69-97 | while every sequence under the prefix has four digits, the suggestion is none of the user's numbers |
| InvoiceQueries.NextNumberDiffers | src/lib/db/queries/invoices.ts:89-96 | the suggestion differs from each numbered invoice under the prefix |
| InvoiceQueries.NotSuccessorOfGreatest | src/lib/db/queries/invoices.ts:93-94 | a four-digit number not above the greatest one is not the greatest one's successor |
| InvoiceQueries.PaddedSuccessorIsAbove | src/lib/db/queries/invoices.ts:93-94 | the padded successor of a four-digit sequence parses back as its successor, which is above every four-digit sequence at or below it, so it is none of them |
| InvoiceQueries.NextNumberExceedsAll | src/lib/db/queries/invoices.ts:69-97 | while every sequence under the prefix has four digits, the suggestion's sequence is greater than the sequence of every number the user has under the prefix |
| InvoiceQueries.SpacedAndSignedSequences | src/lib/db/queries/invoices.ts:93-94 | a suffix " 7" is followed by "0008", a suffix "-5" by "00-4" and a suffix "x7" by "0NaN" |
| InvoiceQueries.NextNumberRepeatsAfter9999 | src/lib/db/queries/invoices.ts:82-96 | with "…-9999" and "…-10000" in the table, text order returns "…-9999" and the suggestion is "…-10000", a number the user already has |
| InvoiceQueries.GreatestSequence | src/lib/db/queries/invoices.ts:93 | the greatest parsed sequence is at least every sequence that parses |
| InvoiceQueries.NextInvoiceNumberByValue | src/lib/db/queries/invoices.ts:69-97 | the corrected suggestion, by numeric value, is under the year's prefix |
| InvoiceQueries.NextNumberByValueIsFresh | src/lib/db/queries/invoices.ts:69-97 | the corrected suggestion is never one of the user's numbers, whatever their length |
| InvoiceQueries.SuggestionSequence | src/lib/db/queries/invoices.ts:93-94 | the suggested number's sequence parses back to the successor |
| InvoiceQueries.CheckInvoiceNumberExists | src/lib/db/queries/invoices.ts:210-231 | `checkInvoiceNumberExists` is true exactly when a row of the user has the number and is not the excluded invoice |
| InvoiceQueries.ExclusionOnlyNarrows | src/lib/db/queries/invoices.ts:220-222 | excluding an id can only turn true into false, and only when the excluded invoice itself holds the number |
| InvoiceQueries.MonthlyInvoiceCount | src/lib/db/queries/invoices.ts:570-586 | `getMonthlyInvoiceCount` counts at most the rows of the table |
| InvoiceQueries.MonthlyCountAppend | src/lib/db/queries/invoices.ts:575-583 | one more row adds one to the count exactly when it is the user's and created in the month |
| InvoiceQueries.MonthlyCountZero | src/lib/db/queries/invoices.ts:575-583 | the count is zero exactly when every invoice of the user was created before the month |
| InvoiceQueries.MonthlyCountAntitone | src/lib/db/queries/invoices.ts:581 | a later start of month never counts more invoices |
| InvoiceStore.WithHeader | src/lib/db/queries/invoices.ts:124-134 | on success every header column is written from the data: the number, client and issue date as given, the due date and notes as `value \|\| null`, the subtotal and total as `numeric(10,2)` values, the tax rate as `numeric(5,2)` and the tax amount as `numeric(10,2)` after `value \|\| null`, and the update time; id, owner, status and creation time are the row's own. It fails exactly when one of those values is rejected by its column |
| InvoiceStore.ItemRowsOf | src/lib/db/queries/invoices.ts:143-153 | the items insert succeeds exactly when every item's numbers fit their columns, and then writes one row per item, in order, under consecutive ids, for the invoice |
| InvoiceStore.FindOwned | src/lib/db/queries/invoices.ts:166-174 | the ownership lookup finds a row with the id and the user exactly when one exists |
| InvoiceStore.CreatedRows | src/lib/db/queries/invoices.ts:117-157 | `createInvoice` writes a draft owned by the user under the next id, with the data's number and client, and one item row per line after it, each under the next id with the line's description |
| InvoiceStore.CreatedRowsAre | src/lib/db/queries/invoices.ts:124-155 | the created invoice is exactly the header written over a fresh draft (`WithHeader`), and the created items are exactly the lines as item rows (`ItemRowsOf`), in order |
| InvoiceStore.CreateRaisesWhen | src/lib/db/queries/invoices.ts:117-157 | the transaction raises exactly when the user has no profile, the client does not exist, the number is taken by any user, a header value or an item value does not fit its column |
| InvoiceStore.CreateKeepsValid | src/lib/db/schema/invoices.ts:21-40 | a created invoice and its items keep every key unique and every reference valid |
| InvoiceStore.CreateChecks | src/lib/db/schema/invoices.ts:23-29 | a created invoice has a globally unused number, an owner with a profile and an existing client or none |
| InvoiceStore.AppendKeepsKeys | src/lib/db/schema/invoices.ts:29 | appending an invoice with a fresh id and unused number, and items with fresh ids, keeps the keys unique |
| InvoiceStore.AppendKeepsReferences | src/lib/db/schema/invoice-items.ts:6-8 | appending items that all name the new invoice keeps every reference valid |
| InvoiceStore.NextIdIsFresh | src/lib/db/schema/invoices.ts:22 | the next id names no invoice and no item |
| InvoiceStore.CreatedInvoice | src/lib/db/queries/invoices.ts:117-157 | the new invoice is a draft of the user with a fresh id, appended after the existing invoices and equal to the header written from the data; its items are exactly the data's lines as item rows, in order |
| InvoiceStore.OtherUsersNumberBlocksInsert | src/lib/db/schema/invoices.ts:29 | a number used by another user passes the per-user check but makes the insert raise |
| InvoiceStore.CreatedNumberExists | src/lib/db/queries/invoices.ts:210-231 | after a create the number check reports the new number for its user |
| InvoiceStore.CreateInvoice | src/lib/db/queries/invoices.ts:117-157 | the method returns the new id and writes the created rows, or raises and leaves every table as it was |
| InvoiceStore.ReplaceInvoice | src/lib/db/queries/invoices.ts:159-208 | `updateInvoice` changes only invoices, items and the id counter |
| InvoiceStore.ReplaceKeepsValid | src/lib/db/queries/invoices.ts:159-208 | an accepted update keeps every key unique and every reference valid |
| InvoiceStore.RewriteKeepsKeys | src/lib/db/queries/invoices.ts:177-206 | rewriting one header and replacing its items with fresh rows keeps the keys unique |
| InvoiceStore.RewriteKeepsReferences | src/lib/db/queries/invoices.ts:177-206 | rewriting one header for the same owner and replacing its items keeps every reference valid |
| InvoiceStore.SameIdsAfterRewrite | src/lib/db/queries/invoices.ts:191 | rewriting a row in place keeps the set of invoice ids |
| InvoiceStore.ReplaceRowKeepsKeys | src/lib/db/schema/invoices.ts:29 | a rewritten header whose number no other invoice holds keeps the invoice keys unique |
| InvoiceStore.ReplaceRowKeepsReferences | src/lib/db/schema/invoices.ts:23-28 | a rewritten header with the same owner and an existing client keeps the invoice references valid |
| InvoiceStore.UpdateNotFound | src/lib/db/queries/invoices.ts:172-174 | the update raises "Invoice not found" exactly when the user owns no invoice with the id |
| InvoiceStore.UpdateIgnoresStatus | src/lib/db/queries/invoices.ts:159-208 | whether the update succeeds does not depend on the invoice's status: a paid or cancelled invoice is rewritten as readily as a draft |
| InvoiceStore.ReplacedItems | src/lib/db/queries/invoices.ts:177-206 | after an update the invoice row is exactly the old row with the header rewritten from the data (`WithHeader`), so it keeps its id, owner, status and creation time; every other invoice row is unchanged; its items are exactly the new lines as item rows, in order; and every other invoice keeps its items |
| InvoiceStore.ReplacementItemsOf | src/lib/db/queries/invoices.ts:194-206 | deleting an invoice's items and inserting new ones leaves exactly the new ones for it and every other invoice's items as they were |
| InvoiceStore.FilterOfFilter | src/lib/db/queries/invoices.ts:194 | dropping one invoice's items does not change another invoice's items |
| InvoiceStore.UpdateInvoice | src/lib/db/queries/invoices.ts:159-208 | the method writes the replaced tables, or raises the update's error and leaves every table as it was |
| InvoiceStore.WithStatus | src/lib/db/queries/invoices.ts:338-347 | the status update changes only the status, and only of the row with the id owned by the user |
| InvoiceStore.ForeignStatusUpdateIsNoOp | src/lib/db/queries/invoices.ts:346 | a status update for an invoice the user does not own changes nothing |
| InvoiceStore.StatusUpdateIdempotent | src/lib/db/queries/invoices.ts:338-347 | setting the same status twice is setting it once |
| InvoiceStore.UpdateInvoiceStatus | src/lib/db/queries/invoices.ts:338-347 | the method changes only the invoice statuses, as the status update says, from any status to any status |
| InvoiceStore.StatusKeepsReferences | src/lib/db/queries/invoices.ts:338-347 | a status update keeps every reference valid |
| InvoiceStore.DeleteOutcome | src/lib/db/queries/invoices.ts:349-377 | the delete succeeds exactly when it reports no error; "Invoice not found" exactly when the user owns no invoice with the id; success only for a draft |
| InvoiceStore.WithoutInvoiceKeepsValid | src/lib/db/schema/invoice-items.ts:6-8 | removing an invoice and, by the cascade, its items keeps the tables valid |
| InvoiceStore.WithoutInvoiceKeepsKeys | src/lib/db/queries/invoices.ts:372-374 | removing an invoice and its items keeps the keys unique |
| InvoiceStore.WithoutInvoiceKeepsItemReferences | src/lib/db/schema/invoice-items.ts:6-8 | after the cascade no item is left without its invoice |
| InvoiceStore.DeletedInvoiceIsGone | src/lib/db/queries/invoices.ts:371-374 | the deleted invoice and all its items are gone, and every other invoice remains |
| InvoiceStore.DeleteInvoice | src/lib/db/queries/invoices.ts:349-377 | the method answers as the delete outcome says and removes the invoice with its items only on success |
| InvoiceListing.PageSize | src/lib/db/queries/invoices.ts:402 | the page size, 10 when none or zero is given, is never zero |
| InvoiceListing.StatusCondition | src/lib/db/queries/invoices.ts:407-409 | a status other than empty or "all" filters by that status, and the query raises exactly when it names no status of the enum |
| InvoiceListing.ClientById | src/lib/db/queries/invoices.ts:429 | the left join finds the client with the id, and none exactly when no client has it |
| InvoiceListing.Joined | src/lib/db/queries/invoices.ts:474-475 | every invoice appears once, in order, with its client or with none when it has no client |
| InvoiceListing.Matching | src/lib/db/queries/invoices.ts:405-423 | the filtered rows are exactly the joined rows of the user that pass the status and search conditions |
| InvoiceListing.BeforeTotal | src/lib/db/queries/invoices.ts:436-452 | any two rows are ordered one way or the other under each sort |
| InvoiceListing.BeforeTransitive | src/lib/db/queries/invoices.ts:436-452 | each sort order is transitive |
| InvoiceListing.OrderIsTotalPreorder | src/lib/db/queries/invoices.ts:436-452 | every sort order is total and transitive |
| InvoiceListing.SortRowsIsSorted | src/lib/db/queries/invoices.ts:477 | `ORDER BY` puts the rows in the chosen order and keeps every row |
| InvoiceListing.PageSlice | src/lib/db/queries/invoices.ts:478-479 | `LIMIT`/`OFFSET` keeps at most `limit` rows starting at `offset`, in order |
| InvoiceListing.CeilDivBounds | src/lib/db/queries/invoices.ts:433 | `Math.ceil(total / pageSize)` pages are just enough to hold every row |
| InvoiceListing.ListPage | src/lib/db/queries/invoices.ts:397-568 | `getInvoices` raises exactly for an unknown status or a negative limit or offset; otherwise it returns at most a page of rows with the page number and size asked for |
| InvoiceListing.PageRowsMatch | src/lib/db/queries/invoices.ts:405-421 | every listed row is an invoice of the user that passes the filters, with the requested status |
| InvoiceListing.PageElement | src/lib/db/queries/invoices.ts:474-479 | every listed row is one of the sorted matching rows |
| InvoiceListing.SortedRowMatches | src/lib/db/queries/invoices.ts:474-477 | sorting keeps only matching rows of the table |
| InvoiceListing.PageIsSorted | src/lib/db/queries/invoices.ts:477-479 | a page is in the chosen order |
| InvoiceListing.SliceKeepsOrder | src/lib/db/queries/invoices.ts:478-479 | a slice of an ordered list is ordered |
| InvoiceListing.PageWithinTotalPages | src/lib/db/queries/invoices.ts:426-433 | the total counts every matching row, and a page has rows exactly when its number is at most the page count |
| InvoiceListing.PageStartWithinTotal | src/lib/db/queries/invoices.ts:433 | a page starts before the last row exactly when its number is at most the page count |
| InvoiceListing.EveryMatchIsOnAPage | src/lib/db/queries/invoices.ts:401-403 | the k-th matching row appears on page k / pageSize + 1 at position k mod pageSize |
| InvoiceListing.RowOnPage | src/lib/db/queries/invoices.ts:401-403 | the row at position m of page p is the sorted row after the `(p - 1) * pageSize` rows before it |
| InvoiceListing.PageRows | src/lib/db/queries/invoices.ts:478-479 | a page is the sorted matches sliced at `(page - 1) * pageSize` |
| InvoiceListing.GroupItems | src/lib/db/queries/invoices.ts:540-552 | the grouping loop gives each listed invoice exactly its items, in table order |
| InvoiceListing.AddToGroup | src/lib/db/queries/invoices.ts:542-551 | one item is appended to its own invoice's group and no other |
| InvoiceListing.GetInvoices | src/lib/db/queries/invoices.ts:397-568 | the method returns the page's rows, each with its client and its items, and the page's metadata, or raises when the query does |
| InvoiceActions.ServerAmounts | src/actions/invoice.ts:82-85 | each line contributes `parseFloat` of its amount text as sent |
| InvoiceActions.ServerSubtotal | src/actions/invoice.ts:82-85 | the subtotal is NaN exactly when some amount does not parse |
| InvoiceActions.ServerTotals | src/actions/invoice.ts:86-101 | with an unreadable amount all three stored texts are "NaN"; otherwise they are the `toFixed(2)` texts of the subtotal, the tax at the rate (0 when none) and their sum |
| InvoiceActions.TotalsIgnoreQuantityAndPrice | src/actions/invoice.ts:82-85 | two item lists with the same amounts give the same totals, whatever their quantities and prices: the server never recomputes quantity × price |
| InvoiceActions.ServerTotalsReadBack | src/actions/invoice.ts:86-101 | the stored texts read back as the subtotal, tax and total rounded to cents |
| InvoiceActions.AcceptedTaxRateIsANumber | src/lib/validations/invoice.ts:27-33 | a tax rate the schema accepts always parses |
| InvoiceActions.FormAndServerTotalsAgree | src/actions/invoice.ts:82-101 | when every amount is the one the editor shows, the server stores the totals the form displays |
| InvoiceActions.EmptyUnitPricePassesOnlyTheForm | src/components/invoice/invoice-form.tsx:96-102 | a line with an empty unit price passes the form's check but fails the server's schema |
| InvoiceActions.ItemDataOf | src/actions/invoice.ts:103-108 | each stored line keeps the description, quantity, price and amount it was sent with, in order |
| InvoiceActions.CreateOutcome | src/actions/invoice.ts:23-116 | a failed or rejected create leaves every table as it was; a saved one appends exactly one invoice, of the user, created now |
| InvoiceActions.CreateGuardOrder | src/actions/invoice.ts:32-80 | the checks run in order (signed in, invoice quota, items parse, schema, number unused for the user) and the first that fails decides the answer |
| InvoiceActions.CreateSavedMeans | src/actions/invoice.ts:92-111 | a saved invoice passed every check, gets the next id, is the user's draft with the form's number, and the number check reports it afterwards |
| InvoiceActions.CreateKeepsMonthlyQuota | src/actions/invoice.ts:36-40 | a create never takes a user with a monthly limit above that limit in the month |
| InvoiceActions.CreateInvoiceAction | src/actions/invoice.ts:23-116 | the action answers and changes the tables as the create outcome says |
| InvoiceActions.UpdateOutcome | src/actions/invoice.ts:118-209 | a failed or rejected update leaves every table as it was; a saved one answers with the invoice's id |
| InvoiceActions.UpdateSkipsQuota | src/actions/invoice.ts:118-171 | the update's answer does not depend on the subscription: no quota is consulted |
| InvoiceActions.OwnNumberIsNoDuplicate | src/actions/invoice.ts:160-164 | an invoice keeping its own number is not reported as a duplicate |
| InvoiceActions.UpdateGuardOrder | src/actions/invoice.ts:128-208 | the checks run in order (signed in, items parse, schema, number unused by the user's other invoices) and a saved update is one the store accepted |
| InvoiceActions.UpdateInvoiceAction | src/actions/invoice.ts:118-209 | the action answers and changes the tables as the update outcome says |
| InvoiceActions.DeleteActionOutcome | src/actions/invoice.ts:295-319 | the delete succeeds exactly when the user is signed in and the store deletes the invoice; every failure carries the sign-in message or the store's error and changes nothing |
| InvoiceActions.DeleteInvoiceAction | src/actions/invoice.ts:295-319 | the action answers and changes the tables as the delete outcome says |
| InvoiceActions.UpdateInvoiceStatusAction | src/actions/invoice.ts:270-293 | without a user the action throws and changes nothing; with one it always succeeds and sets the status as the store's status update does |
| InvoiceForm.AmountValues | src/components/invoice/invoice-form.tsx:42-45 | each row contributes `parseFloat` of its amount, an empty amount counting as "0" |
| InvoiceForm.AmountSum | src/components/invoice/invoice-form.tsx:42-45 | the subtotal is NaN exactly when some row's amount does not parse |
| InvoiceForm.TotalsOf | src/components/invoice/invoice-form.tsx:46-54 | the three texts read back as the subtotal, the tax on it and their sum, each rounded to cents |
| InvoiceForm.Calculations | src/components/invoice/invoice-form.tsx:41-55 | the `calculations` memo: all "NaN" when an amount is unreadable, otherwise the rounded subtotal, tax and total |
| InvoiceForm.BlankAmountCountsZero | src/components/invoice/invoice-form.tsx:43 | a row with an empty amount does not change the subtotal |
| InvoiceForm.UnreadableTaxRateCountsZero | src/components/invoice/invoice-form.tsx:46 | a tax rate that does not parse counts as no tax |
| InvoiceForm.RowProducts | src/components/invoice/line-items.tsx:50-54 | each row's product is its quantity times its unit price, rounded to cents |
| InvoiceForm.SubtotalOfEditedRows | src/components/invoice/invoice-form.tsx:42-45 | when every amount is the one the editor shows, the subtotal is the sum of the rounded row products |
| InvoiceForm.AmountValuesAreProducts | src/components/invoice/invoice-form.tsx:42-45 | each shown amount reads back as its row's rounded product |
| InvoiceForm.RowAmountValue | src/components/invoice/line-items.tsx:50-54 | an amount the editor computed reads back as the rounded product |
| InvoiceForm.CheckRow | src/components/invoice/invoice-form.tsx:88-104 | one pass of the row loop adds exactly that row's errors |
| InvoiceForm.FormOkWithRow | src/components/invoice/invoice-form.tsx:62-108 | adding a row that passes its checks to an accepted form keeps it accepted |
| InvoiceForm.ValidateForm | src/components/invoice/invoice-form.tsx:62-108 | `validateForm` computes the form's errors and is true exactly when the form is acceptable field by field |
| InvoiceForm.RowErrorsEmpty | src/components/invoice/invoice-form.tsx:88-104 | a row's checks only add keys, and add none exactly when the row passes |
| InvoiceForm.ErrorsThroughEmpty | src/components/invoice/invoice-form.tsx:62-104 | after some rows there are no errors exactly when the header passes and each of those rows passes |
| InvoiceForm.HeaderErrorsEmpty | src/components/invoice/invoice-form.tsx:65-86 | the header adds no error exactly when the number is not blank, the issue date is set, the due date is not before it and some row is usable |
| InvoiceForm.FormErrorsEmptyIffOk | src/components/invoice/invoice-form.tsx:107 | `Object.keys(newErrors).length === 0` exactly when the form is acceptable |
| InvoiceForm.RowKeyIsNoHeaderKey | src/components/invoice/invoice-form.tsx:91-100 | a row's error key never collides with a header key |
| InvoiceForm.RowKeyInjective | src/components/invoice/invoice-form.tsx:91-100 | two row error keys are equal only for the same row and field |
| InvoiceForm.RowErrorsKeepOtherKeys | src/components/invoice/invoice-form.tsx:88-104 | a row's checks leave every key that is not one of its own as it was |
| InvoiceForm.HeaderKeysKept | src/components/invoice/invoice-form.tsx:65-104 | the row loop never touches a header error |
| InvoiceForm.FormLevelErrors | src/components/invoice/invoice-form.tsx:65-86 | each header key is set exactly when its check fails, with its message |
| InvoiceForm.RowErrorsRowKey | src/components/invoice/invoice-form.tsx:89-103 | one row sets its own field's key exactly when it is checked and the field fails |
| InvoiceForm.RowKeysSet | src/components/invoice/invoice-form.tsx:88-104 | `items.<i>.<field>` is set exactly when row i has a description or price and that field fails |
| InvoiceForm.NoRowKeyInHeader | src/components/invoice/invoice-form.tsx:65-86 | the header checks set no row key |
| InvoiceForm.RowKeysStep | src/components/invoice/invoice-form.tsx:88-104 | one more row of the loop extends the row-key fact to that row |
| InvoiceForm.PreviewItems | src/components/invoice/invoice-form.tsx:123-125 | the preview keeps exactly the rows with a description or a positive unit price |
| InvoiceForm.AcceptedFormHasPreviewRow | src/components/invoice/invoice-form.tsx:110-127 | an accepted form always shows at least one row in the preview |
| LineItems.LineAmount | src/components/invoice/line-items.tsx:50-54 | the amount text reads back as quantity times price rounded to cents, an unreadable quantity or price counting as 0 |
| LineItems.BlankItemShowsItsAmount | src/components/invoice/line-items.tsx:28-34 | the blank row's "0.00" is the amount its quantity 1 and empty price give |
| LineItems.AddItem | src/components/invoice/line-items.tsx:27-36 | `addItem` keeps every row and appends a blank one with the new id |
| LineItems.RemoveItem | src/components/invoice/line-items.tsx:38-42 | `removeItem` never touches a list of one row; otherwise it drops exactly the rows with the id and keeps the others |
| LineItems.UpdateItem | src/components/invoice/line-items.tsx:44-59 | `updateItem` edits exactly the rows with the id, in place, and keeps every other row |
| LineItems.AmountShownReadsBack | src/components/invoice/line-items.tsx:50-54 | an amount the editor shows is never empty and reads back as the rounded product |
| LineItems.LineAmountIsNotEmpty | src/components/invoice/line-items.tsx:53 | a computed amount is never empty |
| LineItems.LineAmountReadsBack | src/components/invoice/line-items.tsx:51-53 | a computed amount parses as the rounded product |
| LineItems.EditingPriceSetsAmount | src/components/invoice/line-items.tsx:48-54 | editing a quantity or price sets that field, keeps the others and recomputes the amount |
| LineItems.EditingDescriptionKeepsAmount | src/components/invoice/line-items.tsx:48-56 | editing a description changes only the description |
| LineItems.AddItemKeepsAmountsShown | src/components/invoice/line-items.tsx:27-36 | adding a row keeps every amount equal to its row's product |
| LineItems.RemoveItemKeepsAmountsShown | src/components/invoice/line-items.tsx:38-42 | removing a row keeps every amount equal to its row's product |
| LineItems.UpdateItemKeepsAmountsShown | src/components/invoice/line-items.tsx:44-59 | editing any field but the amount keeps every amount equal to its row's product |
| LineItems.AddThenRemove | src/components/invoice/line-items.tsx:27-42 | a row just added has a fresh id, and removing it restores the list |
| LineItems.RemoveDropsOneRow | src/components/invoice/line-items.tsx:38-42 | with distinct ids, removing a row of a longer list drops exactly that row |
| LineItems.RemoveNeverEmpties | src/components/invoice/line-items.tsx:39 | removing never leaves the list empty, and ids stay distinct |
| LineItems.UpdateKeepsIds | src/components/invoice/line-items.tsx:44-59 | editing a field other than the id keeps every row's id |
| Numbers.NatToString | src/lib/db/queries/invoices.ts:94 | `toString()` of a natural number is a digit string without leading zeros whose value is the number |
| Numbers.NatToStringInjective | src/lib/db/queries/invoices.ts:94 | different numbers print differently |
| Numbers.PadStart | src/lib/db/queries/invoices.ts:94 | `padStart(4, "0")` fills on the left up to the width and never shortens |
| Numbers.ParseIntIsNaNWhen | src/lib/db/queries/invoices.ts:93 | `parseInt(…, 10)` is NaN exactly when no digit follows the leading white space and one optional sign, and is negative only after a '-' |
| Numbers.ParseIntSkipsWhitespace | src/lib/db/queries/invoices.ts:93 | white space in front of the text does not change what `parseInt` reads |
| Numbers.ParseIntOfDigits | src/lib/db/queries/invoices.ts:93 | a digit string reads as its value, and a '-' before it as the negated value |
| Numbers.IntToString | src/lib/db/queries/invoices.ts:94 | `toString()` of an integer starts with '-' exactly when it is negative and reads back through `parseInt` as the integer |
| Numbers.PaddedNumberParses | src/lib/db/queries/invoices.ts:93-94 | a zero-padded number parses back to the number |
| Numbers.TextOrderIsNumericOrder | src/lib/db/queries/invoices.ts:82 | for digit strings of one length, text order is numeric order |
| Numbers.SumOf | src/actions/invoice.ts:82-85 | a sum is NaN exactly when one of its terms is |
| Numbers.SumOfNumbers | src/actions/invoice.ts:82-85 | a sum of numbers is their real sum |
| Numbers.FixedNumber | src/actions/invoice.ts:98-101 | `toFixed(2)` of a number reads back as the number rounded to cents |
| Numbers.ToFixed2RoundTrip | src/actions/invoice.ts:98-101 | `toFixed(2)` reads back as the rounded number, and NaN as NaN |
| Numbers.Round2Error | src/components/invoice/invoice-form.tsx:51-53 | rounding to cents moves a value by at most half a cent |
| SqlTypes.NumericInput | src/lib/db/schema/invoice-items.ts:10-12 | a `numeric(p, 2)` column accepts only values of fewer than p digits, stored in hundredths |
| SqlTypes.RoundingKeepsHundredths | src/lib/db/schema/invoices.ts:33-36 | a value already in hundredths is stored as it is |
| SqlTypes.StoredFixedText | src/lib/db/schema/invoices.ts:33-36 | a `toFixed(2)` text that fits the column is stored as the value in hundredths, and "NaN" as NaN |
| SqlTypes.StoredFixedNumber | src/lib/db/schema/invoices.ts:33-36 | a `toFixed(2)` text of a number that fits is stored as its hundredths |
| SqlTypes.FixedTextIsNotNaN | src/lib/db/schema/invoices.ts:33-36 | the text of a number is never read as NaN |
| Dates.DaysInMonth | src/lib/db/schema/invoices.ts:31-32 | every month of a `date` column has 28 to 31 days |
| Dates.SqlDateIsJsDate | src/lib/validations/invoice.ts:39-45 | a date Postgres accepts is the day `new Date` reads |
| Dates.InvalidDatesCompareFalse | src/components/invoice/invoice-form.tsx:73 | comparing with an invalid date is always false, so such a due date raises no error |
| Text.Lower | src/lib/db/queries/invoices.ts:411-417 | lower-casing keeps the length and folds each character |
| Text.LexLeReflexive | src/lib/db/queries/clients.ts:26 | text order is reflexive |
| Text.LexLeTotal | src/lib/db/queries/clients.ts:26 | text order relates any two texts |
| Text.LexLeAntisymmetric | src/lib/db/queries/clients.ts:26 | texts ordered both ways are equal |
| Text.LexLeTransitive | src/lib/db/queries/clients.ts:26 | text order is transitive |
| Text.LexLeCommonPrefix | src/lib/db/queries/invoices.ts:82 | a common prefix does not change the order of two texts |
| Text.NullIfEmpty | src/lib/db/queries/clients.ts:48-51 | the stored value is null exactly for an absent or empty value, and the value otherwise |
| Text.OrEmpty | src/actions/client.ts:34-40 | the value read from the form is the value when present and "" otherwise |
| Sorting.Insert | src/lib/db/queries/clients.ts:26 | inserting adds exactly the one element |
| Sorting.InsertionSort | src/lib/db/queries/clients.ts:26 | sorting keeps exactly the elements |
| Sorting.InsertKeepsSorted | src/lib/db/queries/clients.ts:26 | inserting into a sorted list under a total, transitive order keeps it sorted |
| Sorting.InsertionSortIsSorted | src/lib/db/queries/clients.ts:26 | under a total, transitive order the result is sorted |
| Sorting.SliceSorted | src/lib/db/queries/invoices.ts:478-479 | a contiguous run of a sorted list is sorted |

## Left out

- Signing in, cookies and the Supabase client are left out. The signed-in user is an `Option<nat>` parameter.
- `canUseTemplate`, the active-client count and `hasAccessToTier` come from code that is not part of this model. The first two are inputs. `hasAccessToTier` is a function parameter, and the properties that need it assume the rank order free < pro < enterprise (`Tiers.LevelAccess`).
- `JSON.parse` of the items field is an input: the parsed list, or `Malformed` when parsing throws. Zod's handling of other JSON shapes is not modelled: JSON that is not an array of line items is the single `WrongShape` value, whose one issue under "items" carries a placeholder message ("Invalid input"). Zod instead reports "Expected array, received …" for a non-array, and one issue per ill-typed element ("Expected string, received number", "Required"), all under "items"; the field errors the model returns for such input therefore differ in their messages, not in their key.
- Stripe is an input. The signature check of `constructEvent` gives the event or `None`, and `stripe.subscriptions.retrieve` gives a subscription or an error.
- Numbers: `parseFloat` is modelled for plain decimal literals with an optional sign. Leading whitespace, trailing garbage after a number, exponents and `Infinity` all parse as NaN in the model.
- Numbers: IEEE-754 floating point is not modelled. Sums and products are exact reals, and `toFixed(2)` rounds the exact value half away from zero.
- Text order is the C collation, code point by code point. `ILIKE` folds ASCII letters only. Other database collations and the `%` and `_` wildcards inside a search term are not modelled.
- Dates: `new Date` of a `YYYY-MM-DD` text is modelled as the Postgres `date` reading. Other formats JavaScript accepts are not modelled.
- Times are whole numbers. Time zones are not modelled; the month start is a parameter.
- `ORDER BY` is a stable insertion sort. Postgres may return tied rows in any order; the model keeps table order.
- The items query of `getInvoices` (`src/lib/db/queries/invoices.ts:527-537`) has no `ORDER BY`, so Postgres promises no order of the items within an invoice. The model returns them in table order (`ItemsOf`).
- uuids are numbers from the database's counter, so two rows never share one. Random generation is not modelled.
- Each database call either succeeds or raises a constraint violation. Lost connections and timeouts are not modelled.
- Transactions are atomic by construction. Concurrent requests, and the races between a quota check and the insert that follows it, are not modelled.
- `revalidatePath`, `console` logging, redirects and `sessionStorage` have no effect on the tables and are left out.
- The React components' rendering, the PDF templates and the preview page are left out. From the editor only `calculations`, `validateForm`, the preview filter and the three row edits are modelled.
- `getInvoiceStats`, `getClientInvoiceStats`, `getRecentInvoices` and `getInvoiceById` are left out. They are display-only reads.
- `uploadLogoAction` and the profile queries other than `updateProfile` are left out; they are outside the invoicing rules.
- Numbers.ParseInt: integers are exact. JavaScript rounds digit strings beyond 2^53 to the nearest double, and `toString()` switches to exponent notation from 1e21; neither is modelled, so sequences that long are read and printed exactly.
- InvoiceValidation.IsEmail: follows the e-mail pattern of zod 3.22 and later, which zod 4 keeps. Earlier zod releases used a different pattern; the zod version is not part of this model.
- InvoiceQueries.NextNumberIsFresh: proved only while every sequence under the year's prefix has four digits. With five digits the property fails (see Findings).
- InvoiceQueries.NextNumberExceedsAll: proved under the same four-digit condition, for the same reason.

## Findings

| source | as written | input that shows it | evidently intended | confidence | as-written member | corrected member |
|---|---|---|---|---|---|---|
| src/lib/db/queries/invoices.ts:82-96 | the last number is picked by `ORDER BY invoice_number DESC`, in text order, and its sequence plus one becomes the suggestion | a user with "INV-2026-9999" and "INV-2026-10000": text order picks "INV-2026-9999", so the suggestion is "INV-2026-10000", a number the user already has | one past the greatest sequence by numeric value, which is never an existing number | high, not executed | InvoiceQueries.NextNumberRepeatsAfter9999 | InvoiceQueries.NextNumberByValueIsFresh |
