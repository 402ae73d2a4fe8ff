# Enterprise One backend: access control and tenant-scoped records in Dafny

This project models the request handlers of the Enterprise One API server
(`backend/server.py`): a multi-tenant business suite (CRM leads, projects and
tasks, HR leaves, invoices and expenses, subscriptions, notifications, users,
idea voting, project estimation and domain registration) over a MongoDB
database.

The model has three layers:

- **Gate** (`gate.dfy`, `access.dfy`). `get_current_user` checks the
  `Authorization: Bearer <token>` header, decodes the token and looks the user
  up. `require_roles` adds a role allow-list. The role lists the routes
  declare are constants. The leave and expense visibility rules are
  predicates.
- **Handlers** (`store.dfy`). One class, `Server.Store`, holds one sequence per
  collection. Each route is a method: the gate, then the route's checks in the
  order the route makes them, then the writes. Each method states the complete
  new database (`Db()`) for every outcome, including the error outcomes, which
  change nothing. Every method preserves `Valid()`:
  - each idea's vote count equals its number of distinct voters;
  - each invoice is numbered after the invoice count its tenant had when the
    invoice was created.
- **Helpers** (`query.dfy`, `text.dfy`, `estimation.dfy`, `domains.dfy`,
  `invoicing.dfy`, `ideas.dfy`):
  - the MongoDB query shapes: `find_one`, `update_one` and `delete_one` act on
    the first matching document, `find` keeps collection order;
  - Python's `strip`, `lower`, `title` and `replace`;
  - the estimation tables and loop;
  - the domain normalisation;
  - invoice numbering and totals;
  - the vote toggle.

Outside collaborators become parameters:

- the JWT library is the function `decode` (token to user id, "expired" or
  "invalid");
- `create_token` is the function `sign`;
- `uuid4` values, today's date, `random.random() > 0.25` (`draw`) and Stripe's
  answers are passed in.

Money, a float in the server, is an integer number of cents.

Behaviour the model keeps as written:

- `delete_task` is not tenant-scoped.
- `create_new_user` checks duplicates against the normalised email but stores
  the email as typed and accepts any role. So a user invited as `Bob@x.io`
  never blocks `bob@x.io` (`Server.InvitedBobDoesNotBlockBob`).
- The checkout status route upgrades the caller's subscription, not the
  subscription of the user who opened the checkout.
- `update_lead`, `update_task` and `update_leave` write the first document
  matching id and tenant, then answer with the first document matching the id
  alone.
- `update_project` writes the first project with the id, whatever its tenant.
- The bearer token is the header with every `"Bearer "` removed, not only the
  leading one.

## Model

| member | source | states |
|---|---|---|
| Gate.CurrentUser | backend/server.py:53-67 | No "Bearer " prefix gives 401 "Not authenticated". An expired token gives 401 "Token expired", a bad one 401 "Invalid token". A token for an unknown user gives 401 "User not found". Otherwise the answer is a stored user with the token's id. Every failure is a 401. |
| Gate.Authorize | backend/server.py:69-74 | Authentication failures pass through unchanged. An authenticated caller is admitted exactly when their role is in the list; otherwise the answer is 403 "Insufficient permissions". |
| Gate.UnauthenticatedWhateverTheUsers | backend/server.py:55-56 | A header without the prefix is refused with 401 whatever the users and the decoder are, so no lookup decides it. |
| Gate.TenantAdminRoutesClosed | backend/server.py:255-273 | The lead routes (and the other tenant-admin routes) admit exactly super_admin, main_handler and admin. |
| Access.BearerTokenOfWellFormedHeader | backend/server.py:55-57 | For `"Bearer " + token` with no second prefix inside, the prefix check passes and the token passed on is exactly `token`. |
| Access.BearerToken | backend/server.py:57 | The token is never longer than the header, and a header holding no `"Bearer "` is passed on unchanged. |
| Access.BearerTokenCutsEveryPrefix | backend/server.py:57 | Every copy of `"Bearer "` is cut, not only the leading one: `"Bearer " + a + "Bearer " + b` yields `a + b` when no further copy starts inside `a` or `b`. |
| Access.RoleListsNested | backend/server.py:71 | Role checks (`HasRole`) against the declared allow-lists are nested: cross-tenant roles are tenant admins, who may edit projects and roles, who may manage users; user managers are exactly the valid roles other than "server" and "employee". |
| Access.MayManageScope | backend/server.py:669 | An actor may act on a user of another company exactly when it is super_admin or main_handler; any actor may act within its own company, itself included. |
| Query.FirstIndex | backend/server.py:266-274 | The index `update_one`/`delete_one` act on: a match with no earlier match, or none exactly when nothing matches. |
| Query.FindOne | backend/server.py:270 | `find_one`'s document is the element at the first matching index, and it matches. |
| Query.Filter | backend/server.py:252 | `find`'s answer holds exactly the matching elements and is no longer than the collection. |
| Query.Count | backend/server.py:343 | `count_documents` is at most the collection's size, and zero exactly when nothing matches. |
| Query.FilterAppend | backend/server.py:252 | `find` keeps collection order: filtering a concatenation concatenates the filtered parts. |
| Query.CountIsFilterLength | backend/server.py:343-344 | `count_documents` equals the length of `find` with the same filter. |
| Query.CountConcat | backend/server.py:444 | The count over two collections side by side is the sum of their counts; in particular inserting one document raises a count by one exactly when it matches. |
| Text.Lower | backend/server.py:727 | `lower()` keeps the length and maps each character on its own: an upper-case letter moves up by 32 to its lower-case form, anything else stays. So no upper-case letter is left, and whitespace, dots and spaces stay where they were. |
| Text.LowerAppend | backend/server.py:1230 | Lowering distributes over concatenation. |
| Text.LowerSlice | backend/server.py:1230 | Lowering a slice equals slicing the lowered text. |
| Text.LowerAllSpace | backend/server.py:1230 | Lowering whitespace gives whitespace. |
| Text.Strip | backend/server.py:727 | `strip()` gives a slice of the input with no whitespace at either end; everything cut away is whitespace. |
| Text.StripClean | backend/server.py:1230 | Text without surrounding whitespace is unchanged by `strip()`. |
| Text.StripUnique | backend/server.py:727 | `strip()` is the one slice with only whitespace before and after it and none at either end. |
| Text.StripPadding | backend/server.py:727 | Whitespace added around a text does not change its strip. |
| Text.NoUpperStrip | backend/server.py:1230 | Stripping text without upper-case letters leaves none. |
| Text.NormaliseEmail | backend/server.py:1257 | The normalised email is no longer than the input, has no upper-case letter and no surrounding whitespace. |
| Text.NormaliseEmailIdempotent | backend/server.py:1257 | Normalising a normalised email changes nothing. |
| Text.NormaliseEmailIgnoresCase | backend/server.py:1257 | Two emails that differ only in the case of their letters normalise to the same email. |
| Text.NormaliseEmailIgnoresPadding | backend/server.py:1257 | Whitespace added around an email does not change its normal form. |
| Text.SameSpaces | backend/server.py:1257 | Texts with the same lower-case form have whitespace in the same places. |
| Text.NormaliseSameSpaces | backend/server.py:1257 | A text with whitespace where another has it normalises to the stretch of its lowered form that the other's strip keeps. |
| Text.StartsWithSplit | backend/server.py:55 | `startswith(prefix)` holds for prefix + anything, and a text that starts with a prefix is the prefix followed by the rest. |
| Text.RemoveAll | backend/server.py:57 | `replace(pat, "")` never lengthens the text and leaves it unchanged when `pat` does not occur. |
| Text.RemoveAllLeading | backend/server.py:57 | An occurrence at the front is deleted and scanning resumes after it. |
| Text.RemoveAllKeeps | backend/server.py:57 | Text in front of which no occurrence starts is kept in place, in order. |
| Text.RemoveAllCons | backend/server.py:57 | A first character at which no occurrence starts is kept in front of what the rest becomes. |
| Text.RemoveAllStep | backend/server.py:57 | Where no occurrence starts, the first character is kept and scanning moves on by one. |
| Text.RemoveAllBetween | backend/server.py:57 | Both occurrences around a stretch without one are deleted and everything else is kept: `pat + a + pat + b` becomes `a + b`. |
| Text.TitleCase | backend/server.py:432 | Each character of `title()` depends only on itself and the character before it: a non-letter stays, a letter after a letter is lowered, any other letter is raised. The length is kept. |
| Text.TitleFromAt | backend/server.py:432 | Position by position, title-casing from a given state maps each character by whether the character before it (or the starting state) is a letter. |
| Text.TitleCasePattern | backend/server.py:432 | The case pattern: non-letters unchanged, letters keep their identity, a letter after a letter is not upper-case, a letter at the start of a run is not lower-case. |
| Text.LowerOfUpper | backend/server.py:432 | Raising a letter and lowering it again is lowering it. |
| Text.TitleFromIdempotent | backend/server.py:432 | Title-casing twice equals title-casing once. |
| Text.LastFour | backend/server.py:541 | `s[-4:]` is the suffix of length min(4, len(s)). |
| Estimation.HoursFor | backend/server.py:934-940 | The hours table: low 2, medium 4, high 8, urgent 16; any other priority 4; always between 2 and 16. |
| Estimation.RateFor | backend/server.py:928-931 | The rate table: INR 3000, USD 40, EUR 35, GBP 30, AUD 60, CAD 55, JPY 5000; any other currency 3000; always positive. |
| Estimation.SymbolFor | backend/server.py:932 | The symbol table: INR ₹; USD, AUD and CAD $; EUR €; GBP £; every other currency, JPY included, ¥. Always one character. |
| Estimation.TotalHoursBounds | backend/server.py:936-941 | The total hours lie between 2 and 16 per task. |
| Estimation.TimelineWeeks | backend/server.py:1041 | The timeline is max(1, hours div 30) weeks: at least one, and hours lie in [30w, 30w+30) once hours reach 30. |
| Estimation.CostsOfBreakdown | backend/server.py:939-944 | The breakdown's per-task costs add up to total hours times the rate. |
| Estimation.Tally | backend/server.py:933-941 | The loop sums the per-priority hours of every task (the total of `TotalHours`) and emits one breakdown line per task, in order. |
| Estimation.EstimateTasks | backend/server.py:923-944 | No tasks gives the error result. Otherwise the quote has the task count, the total of the per-priority hours, cost = hours × rate, one breakdown line per task in order, and the fallback timeline. |
| Domains.RemoveSpaces | backend/server.py:1230 | `replace(" ", "")` leaves no space and never lengthens; a single space becomes empty and any other single character stays; text without spaces is unchanged; no dot is added. |
| Domains.RemoveSpacesAppend | backend/server.py:1230 | Removing spaces from two pieces side by side removes them from each, so the kept characters stay in order. |
| Domains.DottedStaysDotted | backend/server.py:1230 | Space removal keeps a leading dot in front. |
| Domains.BeforeFirstDot | backend/server.py:1230 | `split(".")[0]` is the prefix up to the first dot; it holds no dot. |
| Domains.Base | backend/server.py:1230 | The checked name has no dot, no space and no upper-case letter, and is no longer than the request. |
| Domains.BaseOfRequest | backend/server.py:1230-1235 | For a dot-free label that neither starts nor ends with whitespace, any whitespace around the request, any case of the label, and anything from the first dot on, the checked name is the lower-cased label with its spaces removed. |
| Domains.StrippedRequest | backend/server.py:1230 | Stripping the lowered request leaves the lowered label followed by a dotted rest. |
| Domains.BaseOfStripped | backend/server.py:1230 | When the stripped, lowered request is a dot-free label followed by a dotted rest, the checked name is that label without its spaces. |
| Domains.LowerRequest | backend/server.py:1230 | Lowering the request lowers its pieces one by one. |
| Domains.LowerLabel | backend/server.py:1230 | Lowering keeps a label trimmed (no whitespace at either end) and a dotted extension dotted. |
| Domains.StripPaddedLabel | backend/server.py:1230 | Stripping whitespace around a trimmed label and a dotted suffix keeps the label and a dotted part of the suffix. |
| Domains.StripLabel | backend/server.py:1230 | Stripping a trimmed label followed by a dotted suffix keeps the label and a dotted part of the suffix. |
| Invoicing.Decimal | backend/server.py:346 | `str(n)` is a non-empty string of decimal digits with no leading zero; it is one character exactly when n < 10. |
| Invoicing.DecimalRoundTrip | backend/server.py:346 | Parsing the printed number gives the number back. |
| Invoicing.ZeroPad | backend/server.py:346 | `04d` padding ends with the digits, has only zeros before them, and has width max(4, digits). |
| Invoicing.InvoiceNumber | backend/server.py:445 | The number is "INV-" followed by the digits of count + 1001; padding never applies. |
| Invoicing.InvoiceNumberInjective | backend/server.py:343-346 | Different tenant counts give different invoice numbers. |
| Invoicing.FirstInvoiceNumber | backend/server.py:445 | Example: a tenant's first invoice is INV-1001. |
| Invoicing.NumberedAppend | backend/server.py:444-451 | Inserting an invoice numbered after its tenant's current count keeps every invoice numbered after its tenant's count at creation. |
| Invoicing.NumbersDistinct | backend/server.py:343-358 | Under that invariant, no two invoices of one tenant share a number. |
| Invoicing.TotalAppend | backend/server.py:443 | The total of concatenated item lists is the sum of their totals. |
| Ideas.Without | backend/server.py:1143 | `$pull` removes exactly the voter and keeps every other voter. |
| Ideas.WithoutDistinct | backend/server.py:1143 | Pulling from a repeat-free voter list keeps it repeat-free and shortens it by one exactly when the voter was there. |
| Ideas.WithoutAppended | backend/server.py:1143-1146 | Pulling a voter just pushed gives the old list back. |
| Ideas.Toggle | backend/server.py:1142-1147 | The voter is listed afterwards exactly when they were not before. Other voters stay. The count moves by one in the matching direction. Nothing else in the idea changes. |
| Ideas.ToggleKeepsTally | backend/server.py:1127-1146 | Starting from votes = number of distinct voters, a vote keeps that true. |
| Ideas.VoteTwice | backend/server.py:1142-1147 | Voting twice restores the count and the set of voters, and restores the idea when the first vote was new. |
| Ideas.VoteTwiceRestores | backend/server.py:1142-1147 | Voting twice restores the idea exactly when the first vote was new or the voter was listed last, since a withdrawn vote is pushed back at the end. |
| Server.ActivatedPlan | backend/server.py:527 | The activated plan is the transaction's plan when it has one; otherwise the plan in Stripe's metadata when there is one; otherwise "professional". |
| Server.PurchasablePlans | backend/server.py:483 | A checkout may be opened exactly for "professional" and "enterprise". |
| Server.MaskCard | backend/server.py:541 | The stored card number is "**** **** **** " followed by a suffix of at most four characters of the card. |
| Server.PatchProject | backend/server.py:337 | Each of name, description, value, client name, client email and status takes the update's value when the update names one and keeps the old value otherwise; an empty update changes nothing. |
| Server.PatchProjectTwice | backend/server.py:337 | Applying a project update twice equals applying it once. |
| Server.PatchTask | backend/server.py:384 | Each of title, description, status, priority, project, due date and assignee takes the update's value when it names one and keeps the old one otherwise; the id, tenant and creator never change. |
| Server.PatchTaskTwice | backend/server.py:384 | Applying a task update twice equals applying it once. |
| Server.CompletionInvoice | backend/server.py:344-357 | The completion invoice is paid, for the project's client, and its total equals both the project value and the sum of its items. |
| Server.MixedCaseEmailNeverMatches | backend/server.py:727-741 | A stored email with an upper-case letter never matches a normalised lookup. |
| Server.InvitedBobDoesNotBlockBob | backend/server.py:741 | Example: a user stored as "Bob@x.io" does not block "bob@x.io". |
| Server.InProjectMatches | backend/server.py:921 | A task is estimated exactly when it is in the caller's tenant and carries the requested project name; a request without a name matches no task. |
| Server.Store.GetLeads | backend/server.py:250-252 | The caller sees exactly the leads of their company. |
| Server.Store.GetTasks | backend/server.py:368-370 | The caller sees exactly the tasks of their company. |
| Server.Store.GetProjects | backend/server.py:312-314 | The caller sees exactly the projects of their company. |
| Server.Store.GetInvoices | backend/server.py:437-439 | The caller sees exactly the invoices of their company. |
| Server.Store.GetLeaves | backend/server.py:406-411 | Tenant admins see every leave of their company. Anyone else sees exactly their own leaves in their company. Nobody sees another company's leaves. |
| Server.Store.GetExpenses | backend/server.py:457-462 | Tenant admins see every expense of their company. Anyone else sees exactly the expenses they submitted in their company. Nobody sees another company's expenses. |
| Server.Store.GetUsers | backend/server.py:652-660 | Cross-tenant roles in "Enterprise One" see every user. Other permitted callers see exactly their company's users. |
| Server.Store.CreateLead | backend/server.py:254-262 | A tenant admin's lead is appended, assigned to and created by them, in their tenant. Refused callers change nothing. |
| Server.Store.UpdateLead | backend/server.py:264-270 | Only the first lead with the id in the caller's tenant gets the new fields; none gives 404 and no change. The answer is the first lead with the id. |
| Server.Store.DeleteLead | backend/server.py:272-278 | Exactly the first lead with the id in the caller's tenant is removed; none gives 404 and no change. |
| Server.Store.CreateProject | backend/server.py:316-329 | A project editor's project is appended in their tenant. |
| Server.Store.UpdateProject | backend/server.py:331-366 | A project outside the caller's tenant gives 404 and no change. Only the named fields change. Exactly one paid invoice, numbered after the tenant count, plus one notification, are added exactly when the status becomes "completed" from anything else. |
| Server.Store.LogCompletion | backend/server.py:343-360 | Completing a project appends one paid invoice for the project value, numbered next for the tenant, and one notification, and keeps the numbering invariant. |
| Server.Store.CreateTask | backend/server.py:372-380 | Any signed-in caller's task is appended in their tenant, assigned to them. |
| Server.Store.UpdateTask | backend/server.py:382-390 | Only the first task with the id in the caller's tenant is patched; none gives 404 and no change. |
| Server.Store.DeleteTask | backend/server.py:392-398 | A tenant admin removes the first task with the id in any tenant; none gives 404 "Task not found". |
| Server.Store.CreateLeave | backend/server.py:413-423 | The leave is appended as pending with no approver, and the caller gets a "Leave Submitted" email notification. |
| Server.Store.UpdateLeave | backend/server.py:425-433 | A tenant admin sets the status and becomes the approver of the first matching leave in their tenant; none gives 404. The leave's owner gets "Leave " + the title-cased status. |
| Server.Store.CreateInvoice | backend/server.py:441-455 | A draft invoice is appended, numbered after the tenant count, with total = sum of quantity × rate. The numbering invariant is kept. |
| Server.Store.InsertInvoice | backend/server.py:444-451 | Inserting an invoice numbered after its tenant's count appends it, changes nothing else, and keeps the numbering and tally invariants. |
| Server.Store.CreateExpense | backend/server.py:464-473 | The expense is appended as pending, submitted by the caller, in their tenant. |
| Server.Store.CreateCheckout | backend/server.py:481-510 | Only "professional" and "enterprise" open a checkout; anything else gives 400 "Invalid plan" and no change. The transaction is recorded as initiated, in usd, at the plan's price. |
| Server.Store.CheckoutStatus | backend/server.py:512-533 | A paid transaction is never changed. An unpaid one takes Stripe's status. Payment sets the caller's subscription to the activated plan and notifies them. |
| Server.Store.SetPaymentStatus | backend/server.py:520-523 | Only the payment status of the chosen transaction changes. |
| Server.Store.Activate | backend/server.py:525-527 | Only the chosen user's subscription changes, and one notification is appended. |
| Server.Store.StripeWebhook | backend/server.py:556-572 | A paid event marks the session's first transaction paid. An unverifiable event answers "error" and changes nothing. A paid transaction is never changed. |
| Server.Store.AddPaymentMethod | backend/server.py:535-550 | The stored card keeps only the masked number. |
| Server.Store.MarkNotificationRead | backend/server.py:580-583 | Only the caller's notification with the id is marked read; any other id is ignored. |
| Server.Store.MarkAllRead | backend/server.py:585-588 | Every notification of the caller is read afterwards; nobody else's changes. |
| Server.Store.DeleteUser | backend/server.py:662-674 | An unknown target gives 404. Another company's user gives 403 unless the actor is super_admin or main_handler. Otherwise exactly that user is removed. |
| Server.Store.UpdateUserRole | backend/server.py:676-691 | A role outside the eight valid roles gives 400 before the lookup; then 404 and 403 as for deletion. Otherwise only the target's role changes. |
| Server.Store.CreateUser | backend/server.py:725-774 | A normalised email already stored gives 400 "User already exists". Otherwise the user is appended with the raw email, the given role, the actor's company and the free plan. |
| Server.Store.Register | backend/server.py:1255-1272 | A normalised email already stored gives 400 "Email already registered". Otherwise the user is added as admin with the normalised email, gets a welcome notification, and receives a token for (id, "admin"). |
| Server.Store.CreateIdea | backend/server.py:1124-1135 | A new idea starts open with 0 votes and no voters. |
| Server.Store.VoteIdea | backend/server.py:1137-1149 | An unknown idea gives 404. Otherwise the caller's vote is toggled, the answer says "voted" or "unvoted", and the tally invariant is kept. |
| Server.Store.AnalyzeProject | backend/server.py:914-944 | The quote covers exactly the caller's tenant's tasks of the named project; no such task gives the error result. It names the requested project and the symbol of the currency, which defaults to INR. Hours, cost and weeks follow the tables. |
| Server.Store.CheckDomain | backend/server.py:1228-1239 | A base shorter than 2 gives 400. Otherwise there is one offer per extension, in table order, named base + extension at the table price. An offer is available exactly when the name is unregistered and the draw succeeds. |
| Server.Store.OffersFor | backend/server.py:1233-1238 | One offer per extension in table order, named base + extension, at the table price, available exactly when the name is unregistered and the draw succeeds. |
| Server.Store.PurchaseDomain | backend/server.py:1241-1253 | A registered name gives 400 "Domain already taken". Otherwise the domain is recorded as active for the buyer. |

## Left out

- Password login, biometric registration and login, and password change (`login`, `biometric_*`, `change_password`): bcrypt hashing is not modelled, so no password or credential is stored.
- Audit logging (`log_audit`), the audit-log listing, and every audit entry the handlers write: no property depends on them.
- Deals (`get_deals`, `create_deal`): tenant-scoped listing and creation like the leads routes, outside the modelled core.
- The dashboard counters, burn rate, unit economics and product optimisation: floating-point analytics, rounding and LLM calls.
- The AI or HTML quotation text of the estimation route, the pitch deck, the e-mail invitation (SMTP) and the database seeding.
- `update_company_profile`, `get_employees`, `get_payment_methods`, `get_notifications`, `get_ideas`, `add_feedback`, `get_plans` and `get_me`: outside the modelled core.
- `update_company_profile` also renames the tenant: with a new company name it sets `company` to that name for every user of the caller's company, while the company's leads, projects, tasks, leaves, invoices and expenses keep the old tenant name. This route is not modelled, so the model never changes a user's company.
- Notification messages, timestamps (`created_at`, `updated_at`, `expires_at`), `to_list` limits and `_id`/`password_hash` projections. Notifications carry id, recipient, kind, title and read flag only.
- Case mapping (`lower`, `title`) is modelled for ASCII letters only; `strip` uses Python's full whitespace set.
- Server.Store.Register: the user's `domain` field, password hash and biometric flags are not stored.
- Server.Store.CreateUser: the password hash, biometric flags and the default company "Enterprise One" for an actor without a company are not modelled, because every modelled user has a company.
- Gate.CurrentUser: a token that decodes without a `user_id` claim raises a server error (500) in the code. The decoder here always yields an id, an expiry or an invalid verdict, so that case is not modelled.
- Server.Store.AnalyzeProject: a request whose `currency` is JSON `null` reaches the code as `None`, which gets the rate 3000 and the symbol ¥. The model has no null currency: an absent or null currency is treated alike, as INR (rate 3000, symbol ₹).
- Server.Store.StripeWebhook: only a failed signature check is modelled as the "error" answer; a database failure inside the handler is not.
- Server.Store.CheckoutStatus: Stripe's answer is returned as given. The subscription message's `plan_id.title()` text is not modelled.
- Prices and amounts (domain prices, plan prices, invoice rates, expense amounts, project values) are integer cents; float rounding is not modelled.
- Concurrency: the handlers are `async`; each is modelled as one uninterrupted step.
