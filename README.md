# Recruiter ledger and payment ingestion — a Dafny model

This project models the money-keeping core of a small marketplace where recruiters post paid listings, earners apply, and recruiters top up a balance through a payment provider. It proves properties of that model.

- **Ledger.** A recruiter's balance is never stored. It is recomputed from an append-only ledger: credits add, debits subtract, and entries of any other type are ignored. Every append is idempotent on an idempotency key.
- **Payment ingestion.** Provider payments reach the ledger by two routes:
  - the provider's webhook, which upserts the payment and credits `add_funds` top-ups;
  - a manual connect route, which fetches a payment by id and credits it if it succeeded.

  Both routes key their credit `payment_<id>`.
- **Gated inserts.** Applications, listings, payout-account setup and the admin company link are each an ordered chain of checks ending in one insert.
- **Route guard.** A middleware decision guards the `/admin`, `/earner` and `/recruiter` pages.

How the model is built:

- Each database table the core writes is a class whose `rows` field the handlers change in place. The user table, which the core only reads, is a plain sequence parameter. Its class invariant `Valid()` holds the table's unique index, and for listings one more rule:
  - ledger entries are unique on the idempotency key;
  - payments are unique on the provider's id;
  - submissions are unique on the (listing, earner) pair;
  - payout companies are unique on the user;
  - listings have unique ids. All their amounts are positive, a rule the listings route enforces rather than a database index.
- Each handler that writes is a method that follows the route's steps and is proved equal to a pure function of the old rows. The `GET` routes differ: `BalanceRoute.GetBalance` is a method that states its result directly, and `Listings.Browse` and `Submissions.MySubmissions` are functions. The lemmas are about the pure functions:
  - redelivering one event;
  - any interleaving of webhook deliveries and manual connects;
  - any sequence of applications or payout-company requests.
- Amounts are integers in minor currency units, with an explicit `NaN`.
- The provider's HTTP API and SDK are function parameters: an oracle from the request to the reply.
- Creation times, and the ids and keys the database or `crypto` would generate, are parameters.

Where the system's design description and its code disagree, the model follows the code:

- The ledger append does not check that the amount is positive, although the design lists that as an input constraint.
- The manual connect route credits any succeeded payment with a positive amount. Unlike the webhook, it does not look at the purpose tag.

Modules, one per source file, plus `Common` for shared definitions, plus `Store` and `PaymentIngestion`:

- `Common`: options, results, JavaScript numbers and truthiness, sessions, sequence queries.
- `Ledger`: `src/lib/ledger.ts`.
- `Store`: the tables.
- `WhopEvents`: the webhook.
- `ConnectPayment`: the manual connect route.
- `PaymentIngestion`: both payment routes in any interleaving.
- `BalanceRoute`: `GET /api/balance`.
- `Submissions`, `Listings`, `PayoutsSetup`, `ConnectCompany`: the gated inserts.
- `Middleware`: the route guard.

## Model

| member | source | states |
|---|---|---|
| Common.Upper | src/app/api/whop/events/route.ts:41 | `toUpperCase` keeps the length and upper-cases every character, position by position |
| Common.BeforeFirst | src/app/api/payouts/setup/route.ts:52 | `split('@')[0]` is a prefix of the email with no `@` in it, ending just before the first `@` when there is one |
| Ledger.LedgerTable.Create | src/lib/ledger.ts:39-48 | inserting with a key not in the table appends exactly that entry and keeps keys unique |
| Ledger.Append | src/lib/ledger.ts:18-51 | with the key present: the ledger is unchanged and the existing entry is returned, whatever the new amount, type or description. Otherwise: exactly one entry is appended, carrying the given recruiter, amount, currency, type, description and key, and nothing else changes. Keys stay unique and the key is present afterwards |
| Ledger.CreateLedgerEntry | src/lib/ledger.ts:18-51 | the look-up-then-insert method leaves the table and returns the entry exactly as `Append` says. The key is the supplied one, else the generated one (line 25) |
| Ledger.AppendIdempotent | src/lib/ledger.ts:28-50 | two calls with the same key: the second changes nothing and returns the first's entry, and exactly one entry has the key |
| Ledger.AppendAll | src/lib/ledger.ts:28-48 | any sequence of calls keeps keys unique and only adds at the end |
| Ledger.BalanceAfterAppend | src/lib/ledger.ts:64-71 | appending a credit of `a` for `r` adds `a` to `r`'s balance, a debit subtracts it. Another recruiter's entry, or an entry of another type, leaves it unchanged |
| Ledger.NoEntriesZeroBalance | src/lib/ledger.ts:63-73 | a recruiter without entries has balance 0 |
| Ledger.BalanceOrderIndependent | src/lib/ledger.ts:64-71 | the balance depends only on the multiset of entries, not on their order |
| Ledger.BalanceOfOwnEntries | src/lib/ledger.ts:59-61 | folding over the recruiter's own entries gives the same credits, debits and balance as folding over the whole ledger |
| Ledger.GetRecruiterBalance | src/lib/ledger.ts:58-74 | the loop returns the reference balance: credits minus debits, or NaN once a counted amount is NaN |
| Store.UpsertPayment | src/app/api/whop/events/route.ts:65-80 | an unknown id appends the new payment. A known id rewrites only that row's status and metadata, so its amount, currency and recruiter keep their first values, and no other row changes. Ids stay unique, and the set of ids gains exactly the new id |
| Store.UpsertIdempotent | src/app/api/whop/events/route.ts:65-80 | two upserts with the same status and metadata equal one |
| Store.PaymentTable.Upsert | src/app/api/whop/events/route.ts:65-80 | the in-place upsert gives exactly `UpsertPayment`'s rows |
| Store.PaymentTable.Create | src/app/api/admin/connect-payment/route.ts:75-84 | creating a payment with an unused id appends it and keeps ids unique |
| Store.ListingTable.Create | src/app/api/listings/route.ts:35-54 | inserting a listing with a fresh id and a positive amount keeps ids unique and every amount positive |
| Store.SubmissionTable.Create | src/app/api/submissions/route.ts:64-69 | inserting a submission whose (listing, earner) pair is unused keeps the pair unique |
| Store.CompanyTable.Create | src/app/api/payouts/setup/route.ts:68-75 | inserting a company for a user without one keeps one company per user |
| WhopEvents.WebhookAmount | src/app/api/whop/events/route.ts:40 | the amount is `total` when it is a non-zero number. Otherwise it is the metadata amount when one is given, else 0 |
| WhopEvents.Ingest | src/app/api/whop/events/route.ts:27-116 | see the note below the table |
| WhopEvents.HandleEvent | src/app/api/whop/events/route.ts:24-116 | the handler, with its reassigned `paymentStatus`, always answers `received` and leaves the tables exactly as `Ingest` says |
| WhopEvents.IngestIdempotent | src/app/api/whop/events/route.ts:65-108 | redelivering an event, at any later time, changes nothing more |
| WhopEvents.IngestBalance | src/app/api/whop/events/route.ts:85-108 | an event raises the metadata recruiter's balance by exactly the payment amount when it credits. It leaves every other balance, and every balance when it does not credit, unchanged |
| WhopEvents.RedeliveryCreditsOnce | src/app/api/whop/events/route.ts:86-108 | after a redelivery at most one `payment_<id>` entry exists, exactly one when the event credits, and the balance is what one delivery gave |
| WhopEvents.IngestKeepsEntries | src/app/api/whop/events/route.ts:65-108 | no event, including a later `payment.failed`, rewrites or drops a ledger entry. The old ledger is a prefix of the new one, and every key keeps its entry |
| ConnectPayment.Connect | src/app/api/admin/connect-payment/route.ts:7-129 | see the note below the table |
| ConnectPayment.HttpStatus | src/app/api/admin/connect-payment/route.ts:9-64 | a failed fetch answers with the provider's own status. Every other rejection is a client error: 401 only without a session, 404 only for an unknown email |
| ConnectPayment.ProviderStatusForwarded | src/app/api/admin/connect-payment/route.ts:51-64 | when every earlier check passes and the fetch fails, nothing is stored and the answer's status is the provider's |
| ConnectPayment.HandleConnect | src/app/api/admin/connect-payment/route.ts:7-130 | the route, with its reassigned `ledgerEntry`, leaves the tables and answers exactly as `Connect` says |
| ConnectPayment.ConnectIgnoresAdminFlag | src/app/api/admin/connect-payment/route.ts:7-14 | only a session is required: two sessions that are both present or both absent give the same outcome, whatever their admin flags |
| ConnectPayment.WebhookAfterConnect | src/app/api/whop/events/route.ts:86-108 | after the manual route credited a payment, a webhook for the same id adds no ledger entry |
| ConnectPayment.ConnectAfterWebhook | src/app/api/admin/connect-payment/route.ts:27-36 | once a webhook stored a payment, the manual route refuses that id with `PaymentExists` and changes nothing |
| PaymentIngestion.Run | src/app/api/admin/connect-payment/route.ts:89-112 | any interleaving of webhook deliveries and manual connects keeps payment ids and ledger keys unique, and only appends to the ledger |
| PaymentIngestion.NoDoubleCredit | src/app/api/whop/events/route.ts:86-103 | across any such interleaving, each payment id has at most one `payment_<id>` credit |
| PaymentIngestion.StepBalance | src/app/api/whop/events/route.ts:85 | one delivery either leaves a balance as it was or adds a positive amount to it |
| PaymentIngestion.RunNeverLowersBalance | src/app/api/admin/connect-payment/route.ts:90 | payment ingestion never lowers a numeric balance and never makes it NaN |
| BalanceRoute.PaymentsOf | src/app/api/balance/route.ts:17-24 | the payments query returns exactly the recruiter's payments, each as often as stored, newest first |
| BalanceRoute.EntriesNewestFirst | src/app/api/balance/route.ts:27-34 | the entries query returns exactly the recruiter's ledger entries, newest first |
| BalanceRoute.SumAmounts | src/app/api/balance/route.ts:37-47 | the loop gives credits minus debits, skipping amounts that are not numbers and entries of other types |
| BalanceRoute.GetBalance | src/app/api/balance/route.ts:9-54 | see the note below the table |
| Submissions.Apply | src/app/api/submissions/route.ts:9-69 | see the note below the table |
| Submissions.HttpStatus | src/app/api/submissions/route.ts:9-60 | every rejection is a client error: 401 only without a session, 404 only for an unknown listing |
| Submissions.Submit | src/app/api/submissions/route.ts:5-98 | the route leaves the submissions and answers exactly as `Apply` says, keeping one submission per pair |
| Submissions.ApplyAll | src/app/api/submissions/route.ts:47-69 | any sequence of applications keeps (listing, earner) pairs unique. If every submission was for an open listing, every one still is, while the listings table stays as it was |
| Submissions.OneSubmissionPerApplicant | src/app/api/submissions/route.ts:47-69 | after any sequence of applications from a unique table, each earner has at most one submission per listing. Submissions for open listings stay so |
| Submissions.ReapplyRefused | src/app/api/submissions/route.ts:56-61 | applying again after a success is refused with `AlreadyApplied` and changes nothing |
| Submissions.MySubmissions | src/app/api/submissions/route.ts:108-143 | `GET` gives 401 without a session. Otherwise it returns exactly the session user's submissions, each as often as stored, newest first |
| Listings.Post | src/app/api/listings/route.ts:9-54 | see the note below the table |
| Listings.HttpStatus | src/app/api/listings/route.ts:9-31 | every rejection is a client error, and 401 only without a session |
| Listings.CreateListing | src/app/api/listings/route.ts:5-69 | the route leaves the listings and answers exactly as `Post` says, keeping every amount positive |
| Listings.Browse | src/app/api/listings/route.ts:71-128 | with a non-empty `userId`: exactly that recruiter's listings in any status. Without one: exactly the `Active` listings. Both newest first |
| Listings.CreatedListingIsListed | src/app/api/listings/route.ts:78-117 | a new listing appears both in the open listings and under its recruiter |
| PayoutsSetup.CompanyTitle | src/app/api/payouts/setup/route.ts:52 | the title is the user's name when non-empty, else the email up to its first `@` |
| PayoutsSetup.Setup | src/app/api/payouts/setup/route.ts:9-75 | see the note below the table |
| PayoutsSetup.HttpStatus | src/app/api/payouts/setup/route.ts:9-62 | a failed creation answers with the provider's own status. Every other rejection is a client error: 401 only without a session, 404 only without a user row |
| PayoutsSetup.ProviderStatusForwarded | src/app/api/payouts/setup/route.ts:42-62 | when every earlier check passes and the provider refuses, nothing is recorded and the answer's status is the provider's |
| PayoutsSetup.SetupPayouts | src/app/api/payouts/setup/route.ts:5-86 | the route leaves the companies and answers exactly as `Setup` says |
| PayoutsSetup.SetupOnce | src/app/api/payouts/setup/route.ts:17-26 | after a successful setup a second request is refused with `AlreadySetUp` and changes nothing, whatever the provider would say |
| ConnectCompany.Link | src/app/api/admin/connect-company/route.ts:9-80 | see the note below the table |
| ConnectCompany.HttpStatus | src/app/api/admin/connect-company/route.ts:10-69 | 500 only for a failed provider lookup. Every other rejection is a client error: 401 only without a session, 403 only for a non-admin |
| ConnectCompany.HandleConnect | src/app/api/admin/connect-company/route.ts:6-93 | the route leaves the companies and answers exactly as `Link` says |
| ConnectCompany.Run | src/app/api/admin/connect-company/route.ts:41-80 | any interleaving of self-service setups and admin links keeps one company per user and only adds rows |
| ConnectCompany.OneCompanyPerUser | src/app/api/admin/connect-company/route.ts:49-54 | across such an interleaving no user has two payout companies |
| Middleware.Decide | src/middleware.ts:9-29 | see the note below the table |
| Middleware.Guard | src/middleware.ts:4-34 | unmatched paths pass. On `/admin` and below: pass iff the admin flag is set, go to sign-in iff there is no session, and go to `/earner/listings` for a session without the admin flag. On `/earner` or `/recruiter` and below: pass iff there is a session, and go to sign-in otherwise |
| Middleware.DecisionDependsOnFlagsOnly | src/middleware.ts:5-7 | two sessions with the same logged-in and admin flags get the same decision on every path |

Notes for the rows that say "see below":

- **WhopEvents.Ingest.**
  - Non-payment events, and payment events without a recruiter id, change nothing.
  - A credit is appended iff the event is `payment.succeeded`, the metadata purpose is `add_funds`, the amount is positive and `payment_<id>` is absent. Otherwise the ledger is unchanged.
  - The stored payment is the new one on the first event, or the old one with only the status (from the event type) and metadata updated.
  - The payments table afterwards is exactly `Store.UpsertPayment` of the old one, so every other payment row stays as it was.
  - Both unique indexes are kept.
- **ConnectPayment.Connect.**
  - Rejections change nothing and come in the source's order: 401, then 400 for missing fields, then 400 for an existing payment, then 404 for an unknown email, then the provider's status.
  - On success the payment is created with these fields:
    - amount `total || 0`;
    - currency upper-cased, defaulting to `USD`;
    - status `substatus || status || 'unknown'`;
    - recruiter: the user looked up by email.
  - Success happens iff all of these hold: there is a session, both fields are given, the payment id is not stored, a user has the email, and the provider fetch succeeds.
  - The returned `ledgerEntry` is present iff the status is `succeeded`, the amount is positive and the key is absent. No purpose is checked.
  - Both unique indexes are kept.
- **BalanceRoute.GetBalance.**
  - 401 without a session.
  - Otherwise the balance is credits minus debits over the user's entries with numeric amounts, and 0 without entries.
  - When no counted amount is NaN, this is the value `Ledger.GetRecruiterBalance` returns.
  - The currency is always `USD`.
  - Payments and entries are exactly the user's, each newest first.
- **Submissions.Apply.**
  - Checks run in order, and the first failure wins: 401, 400 for missing fields, 404 for no listing, 400 when the listing is not `Active`, 400 for already applied.
  - Rejections change nothing.
  - Success happens iff all five checks pass.
  - Success appends exactly one submission with the given listing and message. Its earner is the session user.
  - Pairs stay unique, and submissions stay for open listings.
- **Listings.Post.**
  - 401 without a session.
  - A falsy title, description, amount (absent, 0 or NaN), duration or type gives 400.
  - A negative amount gives 400.
  - Success happens iff all checks pass. It appends a listing with:
    - currency `USD` unless given;
    - the session user as recruiter;
    - status `Active`;
    - a positive amount.
  - Rejections change nothing.
- **PayoutsSetup.Setup.**
  - 401, then 400 when the user already has a company, then 404 for no user row, then the provider's status. None of these changes anything.
  - When the first three checks pass, the provider's answer decides. A failure answers with the provider's HTTP status, and a created company means success.
  - On success the provider was sent the user's email and title, and exactly one company is appended for the session user, with the provider's id and title.
- **ConnectCompany.Link.**
  - 401, then 403 for non-admins, then 400, then 404, then 409 when the user has a company, then 500 when the provider lookup fails or returns no id.
  - Rejections change nothing, so a non-admin never adds a row.
  - Success happens iff all six checks pass.
  - Success appends the provider's company for the looked-up user.
- **Middleware.Decide.**
  - Redirect to `/auth/signin` iff there is no session and the path starts with `/admin`, `/earner` or `/recruiter`.
  - Redirect to `/earner/listings` iff there is a session without the admin flag on an `/admin` path.
  - Pass iff neither applies.

## Left out

- Floating point. Amounts are integers in minor units, with `NaN` as its own case. `parseFloat`, `Number()` and `isNaN` are modelled on that representation. The amount in a credit's description is printed as an integer, not as JavaScript prints a number.
- `toUpperCase` is modelled on ASCII letters only.
- Concurrency. Each handler runs as one sequential step. The check-then-insert races are left to the database's unique indexes, which the model states as the tables' `Valid()` invariants.
- The webhook signature check is a TODO in the source and is not modelled.
- Malformed JSON bodies, thrown database errors and the catch-all 500 answers are not modelled.
- Logging, `updatedAt`, response JSON shapes, the `include`d relations, and the `Number(...)` conversions when responses are formatted are not modelled.
- Provider calls (HTTP `fetch` and the SDK's `companies.retrieve`) are oracle parameters. The API key and the parent company id are deployment settings and are not modelled.
- Row ids the database generates are not modelled, except a listing's id, which is a parameter required to be unused. This covers ledger entries, submissions and companies.
- Ledger.CreateLedgerEntry: requires a credit or debit type, as the source's parameter type does. The ledger column itself may hold other strings, which the balance fold ignores.
- BalanceRoute.SumAmounts: requires entries of the one recruiter, which is what the query before it returns. `balance || 0` is the identity on integers; a negative zero is not modelled.
- Listings.Post: the new listing's status `Active` stands for the table's default. The database schema is not part of this model.
- Submissions.Submit: a listing's status is read as stored. `PUT /api/listings/[id]`, which rewrites a listing's status, and its `DELETE`, which removes a listing, are not part of this model. So `Submissions.ApplyAll`'s open-listing invariant holds only while the listings table does not change.
- The manual connect and the admin company link look users up by email and take the first match. Emails are assumed unique, as the user table's unique look-up implies.
- The middleware builds redirect URLs from the request's origin, which is not modelled. Only the path is.
- Among rows with equal timestamps, any order is accepted. The database promises no tie order either.
- The complete-and-pay route (`src/app/api/submissions/[id]/complete/route.ts`) is not modelled. It checks the balance, makes the provider transfer, appends the `<key>_debit` entry and marks the submission completed. The delivery route (`src/app/api/submissions/[id]/delivery/route.ts`) is not modelled either. So no trace in this model produces a debit. `Ledger.BalanceAfterAppend` and `Ledger.BalanceOrderIndependent` are the only facts stated about debits.
- Not part of this model:
  - the checkout session route, beyond the metadata the webhook reads;
  - the payout status route and the recruiter submissions route;
  - the authentication configuration;
  - the user interface.
