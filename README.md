# Divine Encounter 2026 registration: a Dafny model

This project models the registration and payment path of the Divine
Encounter 2026 site:

- the signup page's checks, its phone-field filter and its
  submit → register → pay → verify flow;
- the server's handlers for registering, verifying a payment, the
  payment provider's webhook, reading one registration and the
  statistics;
- the calendar file that the success page offers for download.

The model is in six modules:

- `Wrappers` (`wrappers.dfy`): the `Option` type.
- `Text` (`text.dfy`): JavaScript's whitespace set. `String.prototype.trim`.
  The UTF-16 `length` of a string. The `replace(/[...]/g, '')` character
  filter that both scripts use, as a generic `Filter`.
- `SignupValidation` (`signup_validation.dfy`): `validateForm`'s five rules,
  in checking order, over a `Form` value:
  - the email regular expression, stated by its match semantics;
  - the phone regular expression, stated by its match semantics;
  - the phone field's `input` filter.
- `SignupFlow` (`signup_flow.dfy`): the page as an object, `SignupPage`.
  - Its fields are the button's disabled flag, the error box's text, the
    options of the payment widget that was opened, whether the page
    navigated to `/success`, and the log of fetch calls.
  - Each handler is a method: submit, register reply, widget callback,
    widget close and verification reply.
  - Each network result and each widget callback is a parameter.
  - Whole runs of the page are methods that build a page and play the
    events in order.
- `Registrations` (`registrations.dfy`): the `registrations` table as a
  `map<int, Record>` owned by a `Ledger` object.
  - `register_user`, `verify_payment`, `paystack_webhook`,
    `get_registration` and `get_stats` are methods of `Ledger`.
  - Everything else is a parameter: what the database client returns or
    raises, what the payment provider answers, and the UUID's hex digits.
  - `register_user`, `verify_payment`, `get_registration` and `get_stats`
    turn any exception into HTTP 500. So the 400 and 404 raised inside
    their `try` blocks reach the client as 500, and the model says so.
  - `paystack_webhook` raises nothing: on an exception it answers with an
    "error" status.
- `Calendar` (`calendar.dfy`): the text that `downloadCalendarEvent`
  builds. That is ten lines joined by line feeds, with the timestamps'
  `-` and `:` removed.

Facts about the code that the model makes explicit:

- The phone pattern `/^[+]?[\d\s-()]+$/` accepts a `+` only as the first
  character (`PhoneOkIsShape`, `PhoneRejectsInnerPlus`).
- The phone field's input filter lets a `+` through anywhere, so a value
  it leaves intact can still fail the pattern (`SanitisedPhoneMayFail`).
- The page charges 500000 kobo, that is NGN 5,000 (`RunPaidRegistration`).
- The 400 and 404 raised inside the server's `try` blocks reach the
  client as 500 (`Ledger.VerifyPayment`, `Ledger.GetRegistration`).
- The name and phone length checks use the trimmed values, measured in
  UTF-16 code units (`Utf16Length`).

## Model

| member | source | states |
|---|---|---|
| Text.TrimSpec | static/js/signup.js:12-14 | trim leaves an infix that neither starts nor ends with JavaScript whitespace, and only whitespace is removed around it |
| Text.TrimIdempotent | static/js/signup.js:86-91 | trimming a value twice is trimming it once |
| Text.TrimFixed | static/js/signup.js:12-14 | a value without edge whitespace is left unchanged by trim |
| Text.Utf16Length | static/js/signup.js:23 | `length` counts UTF-16 code units: between one and two per character, exactly one per character inside the Basic Multilingual Plane |
| SignupValidation.FirstFailure | static/js/signup.js:11-55 | validateForm answers true exactly when all five rules pass; otherwise the rule it reports is one the form fails |
| SignupValidation.FirstFailureIsFirst | static/js/signup.js:22-52 | the reported rule is the first failing one: every rule checked before it passes |
| SignupValidation.ShortNameWins | static/js/signup.js:23-26 | a trimmed name shorter than 3 is reported, whatever the other fields hold |
| SignupValidation.EmailMatchesIsShape | static/js/signup.js:29-30 | the email pattern matches exactly the strings without whitespace, with one `@` not at the start, and a dot after it that is neither right after the `@` nor last |
| SignupValidation.EmailExamples | static/js/signup.js:29-30 | `a@b.c` matches; `a@b` and `a@.c` do not |
| SignupValidation.PhoneOkIsShape | static/js/signup.js:36-37 | the phone rule holds exactly when there are at least 10 characters, the first is `+` or a digit, whitespace, `-`, `(` or `)`, and every later one is one of the latter |
| SignupValidation.PhoneAcceptsSpacedNumber | static/js/signup.js:36-37 | `+234 801 234 5678` passes |
| SignupValidation.PhoneRejectsShortNumber | static/js/signup.js:36-37 | `12345` fails |
| SignupValidation.PhoneRejectsInnerPlus | static/js/signup.js:36-37 | a `+` after the first character fails |
| SignupValidation.SanitisePhoneSpec | static/js/signup.js:213-217 | the input filter keeps every digit, `+`, whitespace, `(`, `)` and `-` as often as it occurs and nothing else, works piece by piece and is idempotent |
| SignupValidation.ValidPhoneSurvivesSanitiser | static/js/signup.js:213-217 | a value the phone pattern accepts is unchanged by the input filter |
| SignupValidation.SanitisedPhoneMayFail | static/js/signup.js:213-217 | a value the filter leaves intact can still fail the phone pattern (a `+` after the first position) |
| SignupFlow.SignupPage.constructor | static/js/signup.js:3-8 | the page starts with the button enabled, no error, no widget and no request |
| SignupFlow.SignupPage.ShowError | static/js/signup.js:57-61 | the message replaces the error text; nothing else changes |
| SignupFlow.SignupPage.SetLoading | static/js/signup.js:63-72 | the button is disabled exactly while loading; nothing else changes |
| SignupFlow.SignupPage.ValidateForm | static/js/signup.js:11-55 | clears the error; answers true iff no rule fails, else shows the first failing rule's message |
| SignupFlow.SignupPage.Submit | static/js/signup.js:75-103 | an invalid form sends nothing and leaves the button alone; a valid one disables the button and posts the trimmed form data once |
| SignupFlow.SignupPage.RegisterResult | static/js/signup.js:105-159 | an ok, parsable reply opens the widget with the sent email and name, 500000, NGN and the server's reference, provided the widget's setup and open do not throw; any other outcome, a throwing widget included, shows the generic error and re-enables the button |
| SignupFlow.SignupPage.WidgetCallback | static/js/signup.js:148-151 | the widget's reported reference is posted for verification; nothing else changes |
| SignupFlow.SignupPage.WidgetClose | static/js/signup.js:152-156 | the cancel message shows and the button is enabled; no verification is requested |
| SignupFlow.SignupPage.VerifyResult | static/js/signup.js:163-191 | an ok reply with status "success" navigates with the button still disabled; anything else shows the support message ending in the reference and re-enables the button |
| SignupFlow.RunInvalidSubmission | static/js/signup.js:75-80 | an invalid form issues no request, keeps the button enabled and shows the first failing rule's message |
| SignupFlow.RunFailedRegistration | static/js/signup.js:95-118 | a failed registration, or a widget that cannot be opened, leaves one request, no widget, the generic error and an enabled button |
| SignupFlow.RunCancelledPayment | static/js/signup.js:152-156 | closing the widget leaves zero verification calls, the cancel message and an enabled button |
| SignupFlow.RunPaidRegistration | static/js/signup.js:122-181 | the widget charges 500000 in NGN under the server's reference to the trimmed email and name; the requests are exactly the registration then the verification; the page navigates with the button disabled |
| SignupFlow.RunRejectedVerification | static/js/signup.js:163-190 | a rejected verification does not navigate, re-enables the button and shows a message ending with the reference |
| Registrations.TransactionReference | main.py:78 | a reference is `DE2026-` followed by 12 upper-case hex digits, 19 characters in all |
| Registrations.ReferenceKeepsDigits | main.py:78 | lower-casing a reference's tail gives back the UUID's first 12 hex digits |
| Registrations.ReferenceInjective | main.py:78 | equal references come from UUIDs with equal first 12 hex digits |
| Registrations.MarkPaid | main.py:140-147 | the paid update keeps the set of row ids |
| Registrations.MarkPaidTouchesOnlyMatches | main.py:140-147 | the update sets "paid" on rows with the reference, changes no other field, and leaves other rows as they were |
| Registrations.MarkPaidIdempotent | main.py:140-147 | applying the update twice is applying it once |
| Registrations.MarkPaidWithoutMatch | main.py:140-149 | with no row under the reference the update changes nothing |
| Registrations.VirtualAttendeesArePaidElsewhere | main.py:236-256 | the virtual count equals the number of paid rows not "in-person", so it lies between 0 and the paid count, which is at most the total |
| Registrations.Ledger.Register | main.py:71-111 | a successful insert adds one pending row under a well-formed reference built from the UUID and returns its id and reference; an insert without data or one that raises answers 500 (the table is unchanged, see Left out) |
| Registrations.Ledger.VerifyPayment | main.py:114-165 | rows under the reference become paid iff the provider answers 200 with a truthy status and data.status "success", the amount is numeric and the update does not raise; the reply is a paid row under the reference iff such a row exists, else 500 |
| Registrations.Ledger.Webhook | main.py:168-206 | only "charge.success" with usable data marks rows paid (under the payload's reference, "None" if absent) and answers success; other events are ignored; failures answer error with the table unchanged |
| Registrations.Ledger.GetRegistration | main.py:209-226 | answers the row iff the id exists and the query does not raise; else 500 |
| Registrations.Ledger.GetStats | main.py:229-259 | answers the total, the paid, the paid in-person and the paid not-in-person counts of the table, or 500 when a query raises |
| Calendar.StripSeparatorsSpec | static/js/success.js:114-115 | the timestamp strip removes every `-` and `:`, keeps every other character in order, and is idempotent |
| Calendar.IsoLocalToFloating | static/js/success.js:107-115 | a `YYYY-MM-DDTHH:MM:SS` value strips to `YYYYMMDDTHHMMSS`, the floating local DATE-TIME of section 3.3.5 of RFC 5545 |
| Calendar.IcsContentLines | static/js/success.js:111-120 | for fields without line feeds the file splits back into exactly the ten template lines in order: the stripped times, and title, description and location verbatim |
| Calendar.PageEventLines | static/js/success.js:102-120 | the page's own event gives the lines `DTSTART:20260315T180000` and `DTEND:20260317T130000`, both floating local times, and `LOCATION:Grace Convention Center, Lagos` with its comma (index 32) unescaped |
| Calendar.ExportedStart | static/js/success.js:107-114 | the exported DTSTART is `20260315T180000`, a floating time without `Z` or TZID |
| Calendar.ExportedEnd | static/js/success.js:108-115 | the exported DTEND is `20260317T130000`, a floating time |

## Left out

- Page styling is not modelled: the button's text/spinner swap,
  `classList`, `scrollIntoView`, the border colours set on blur and input
  (static/js/signup.js:193-209), and the console output.
- The network is not modelled. `fetch`, the payment widget
  (`PaystackPop`), the provider call (`httpx`) and the database client
  (Supabase) are not part of this model. Their outcomes are parameters:
  `RegisterReply`, `VerifyReply`, `ProviderReply`, `InsertOutcome`, and
  the `updateRaises`/`queryRaises` flags.
- Randomness and clocks are inputs or left out:
  - `uuid.uuid4()` is an input (its hex digits).
  - The `created_at` and `paid_at` timestamps are not stored.
- Registrations.Record: the `payment_amount` column (`amount / 100`, a
  float) is not stored. Only whether the amount can be divided is
  modelled, because an amount that cannot be divided makes the handler
  fail.
- A database call that raises is taken to have changed nothing: the
  model does not capture a partial or committed write before an
  exception (Registrations.Ledger.Register with `InsertRaised`,
  VerifyPayment and Webhook with `updateRaises`).
- Registrations.Ledger.Register: the reference carries only 48 bits of
  the UUID and is inserted without checking for an existing row with the
  same reference. The model does not exclude such a collision, and
  MarkPaid would then mark both rows paid.
- Registrations.Ledger.VerifyPayment: with several rows under one
  reference, the reply is one of the updated rows, not necessarily the
  first row that the database returns.
- Registrations.Ledger.Webhook: the signature header is read but never
  checked in the code, so it is not modelled. A JSON body that is not an
  object is treated like one that is not JSON at all.
- Registrations.Ledger.GetRegistration: the path parameter is a string
  that the database compares with the id column. The model uses integer
  ids.
- Registrations.Ledger.GetStats: the three counts come from three
  separate queries. The model takes them from one state of the table.
- Registrations.Ledger.Register: the request body's validation (the email
  format check, which answers 422 before the handler runs) is not
  modelled. An `Application` is taken as already validated.
- Error replies are modelled by status code only: the `detail` strings
  and the webhook's error `message` are not modelled. verify_payment's
  success reply is modelled by its `data` row, without its `status` and
  `message` fields.
- Registrations.Upper handles only ASCII letters, because only hex digits
  reach it.
- SignupFlow.SignupPage.RegisterResult: a 2xx reply whose JSON lacks
  `registration_id` or `transaction_reference` would hand `undefined` to
  the widget. The model treats a reply body as either complete or
  unparsable.
- SignupFlow.SignupPage.Submit: the handler itself does not check the
  loading flag. A second submit while the button is disabled is prevented
  by the browser and is not modelled.
- The payment widget's public key, the server configuration, the routes
  serving HTML pages, and the start-up printing of configuration values
  are not modelled.
- The success page's other features are not modelled. These are the
  confetti, the share links, printing, and the download itself (the
  `Blob`, the object URL and the file name). Only the calendar text is
  modelled.
