# Payment webhooks: a Dafny model of the decision layer

The landing page receives payment notifications from two gateways, Fapshi and
CamPay. Each gateway has its own `POST` handler. Each handler does four things:

1. It works out the secret the request presents and checks it against the
   configured webhook key.
2. It reads the payment status and the references from the JSON body.
3. It classifies the external reference as a listing boost, a donation or
   something unknown.
4. For a boost or a donation, it runs a short sequence of database writes.

This project models that decision layer and proves what the handlers promise.
It covers who gets a 401, which notifications cause writes, what the writes
leave in the tables, and what a failure or a redelivery leaves behind.

The modules are:

- `JsText`: the JavaScript behaviour the handlers rely on.
  - `||` on possibly missing strings.
  - `startsWith`, `includes`, and `split` on one character, with a round-trip proof against `Join`.
  - `replace` with a string pattern, which removes only the first occurrence wherever it is.
  - `trim`, using the ECMAScript white-space set.
  - The global `parseInt`: leading white space, an optional sign, `0x` for hexadecimal, the longest digit run, NaN as `None`.
- `Store`: the three tables the handlers write.
  - The tables are `listings`, `boost_payments` and `donations`.
  - The spec functions `BoostWrites` and `DonationWrites` describe the write sequences.
  - A `Db` class holds the tables as fields. Its methods stand for the database calls: select, update, and upserts keyed by payment reference.
  - The methods `RunBoost` and `RunDonation` carry out the sequences on a `Db`. Each is proved equal to its spec function.
  - Each database call may answer with an error, given as a `Faults` value.
- `Webhook`: what both handlers share.
  - The presented secret (`ProvidedKey`).
  - The classified reference (`Ref`).
  - The duration default of `'7'`.
  - The status codes 200, 401 and 500.
- `Fapshi` and `Campay`: one module per handler file.
  - Each gives the environment, the payload, the key check, the status test and the classifier.
  - Each gives a spec function `Respond`, which maps tables, environment, presented secret and payload to the status code and the new tables.
  - Each gives methods for the handler (`Post`) and its helpers, proved against `Respond` and the `Store` spec functions.

Time is an integer number of milliseconds, `now`.

- A boost expires `parseInt(duration)` days of 86,400,000 ms after `now`.
- A duration that does not parse makes `setDate` produce an invalid `Date`. The same happens when the expiry leaves the ECMAScript time range of ±8.64e15 ms. In both cases `toISOString` later throws, so the handler answers 500. This happens after the listing has been fetched and before any write.
- In the Fapshi handler, a missing database configuration makes `getSupabase()` return nothing, and the helper throws. The model gives this as `Env.databaseConfigured`.

## Model

| member | source | states |
|---|---|---|
| Webhook.ProvidedKey | landingPage/src/routes/api/webhooks/fapshi/+server.js:37-39 | the key header wins when it is non-empty; otherwise the result is trimmed at both ends (the exact result for bearer, bare and empty credentials is given by the three lemmas below) |
| Webhook.BearerTokenPresented | landingPage/src/routes/api/webhooks/campay/+server.js:32-34 | `Bearer <token>` with any white space around the token presents exactly the token when the key header is empty or missing |
| Webhook.BareAuthorizationPresented | landingPage/src/routes/api/webhooks/fapshi/+server.js:37-39 | an `Authorization` value with no `Bearer ` anywhere in it is presented unchanged, if it is already trimmed |
| Webhook.NoCredentialsPresentEmpty | landingPage/src/routes/api/webhooks/campay/+server.js:32-34 | with neither header, the presented secret is the empty string |
| Webhook.DurationOf | landingPage/src/routes/api/webhooks/fapshi/+server.js:63 | the duration is the third segment when it is present and non-empty, and `'7'` otherwise; it is never empty |
| Webhook.Reply | landingPage/src/routes/api/webhooks/fapshi/+server.js:79-83 | the answer is 200 exactly when the write sequence completed, and 500 otherwise; the tables are those the sequence left |
| JsText.Or | landingPage/src/routes/api/webhooks/fapshi/+server.js:53-56 | `a \|\| b` is truthy exactly when either operand is; it is the first operand when that one is truthy, and the second otherwise |
| JsText.Split | landingPage/src/routes/api/webhooks/fapshi/+server.js:61 | at least one part; at least two parts exactly when the separator occurs; no part contains the separator; joining the parts gives the input back |
| JsText.SplitJoin | landingPage/src/routes/api/webhooks/campay/+server.js:49 | splitting separator-free parts joined by the separator gives back exactly those parts |
| JsText.RemoveFirst | landingPage/src/routes/api/webhooks/fapshi/+server.js:39 | without an occurrence the string is unchanged; otherwise exactly the first occurrence of the pattern is cut out, and the pieces around it are kept in order |
| JsText.RemoveLeadingPattern | landingPage/src/routes/api/webhooks/fapshi/+server.js:39 | a string that starts with the pattern loses exactly that leading copy |
| JsText.Trim | landingPage/src/routes/api/webhooks/fapshi/+server.js:39 | the result neither starts nor ends with white space |
| JsText.TrimPadded | landingPage/src/routes/api/webhooks/campay/+server.js:34 | trimming white space around a trimmed core gives the core back |
| JsText.ParseIntOfDecimal | landingPage/src/routes/api/webhooks/fapshi/+server.js:88 | `parseInt` reads back the decimal form of every integer, also when text that is neither a digit nor an `x` follows |
| JsText.ParseInt | landingPage/src/routes/api/webhooks/fapshi/+server.js:88 | defined as the global `parseInt` without a radix; specified by `JsText.ParseIntOfDecimal`, `Store.NonNumericDuration` and `Store.AmountOfDecimal` |
| Store.NonNumericDuration | landingPage/src/routes/api/webhooks/fapshi/+server.js:88 | a duration without a leading digit, after white space and a sign, gives no boost window, so `setDate(NaN)` follows and the boost fails |
| Store.WindowMeaning | landingPage/src/routes/api/webhooks/fapshi/+server.js:87-88 | a window exists exactly when the duration parses and `now` plus that many days stays a valid time; it then holds that day count and that instant |
| Store.SevenDayWindow | landingPage/src/routes/api/webhooks/campay/+server.js:74-75 | the default duration `'7'` gives a seven-day window |
| Store.DecimalWindow | landingPage/src/routes/api/webhooks/fapshi/+server.js:87-88 | a duration that is the decimal form of a day count gives a window of that many days, expiring that many days after `now`, whenever the expiry is a valid time |
| Store.BoostWindow | landingPage/src/routes/api/webhooks/fapshi/+server.js:87-88 | defined as `now` advanced by `parseInt(duration)` days, absent when that is NaN or out of range; specified by `Store.WindowMeaning`, `Store.DecimalWindow`, `Store.SevenDayWindow` and `Store.NonNumericDuration` |
| Store.AmountOf | landingPage/src/routes/api/webhooks/fapshi/+server.js:130 | defined as `parseInt(amount)`, null when the amount is missing or NaN; specified by `Store.AmountOfDecimal` |
| Store.AmountOfDecimal | landingPage/src/routes/api/webhooks/fapshi/+server.js:130 | an amount written in decimal is stored as that number, and a missing amount as null |
| Store.DonorOf | landingPage/src/routes/api/webhooks/fapshi/+server.js:154 | the stored donor is null exactly for `anonymous`, and is the user id otherwise |
| Store.BoostCompletes | landingPage/src/routes/api/webhooks/fapshi/+server.js:96-139 | a boost completes exactly when the listing exists, the window exists and no call fails; then the listing is boosted until the expiry, the reference holds one record with the listing, its seller, the days and `successful`, and nothing else changes |
| Store.BoostWrites | landingPage/src/routes/api/webhooks/fapshi/+server.js:86-139 | defined as the fetch, update and upsert of a boost, stopping at the first error; specified by `Store.BoostCompletes`, `Store.BoostFailureRecordsNothing`, `Store.BoostWithoutPayment` and `Store.BoostRedelivered` |
| Store.BoostFailureRecordsNothing | landingPage/src/routes/api/webhooks/campay/+server.js:80-105 | a failed boost records no payment; a failed fetch, a missing listing, an unusable duration or a failed update leaves every table unchanged |
| Store.BoostWithoutPayment | landingPage/src/routes/api/webhooks/fapshi/+server.js:110-139 | when only the payment upsert fails, the listing stays boosted while no payment record exists |
| Store.BoostReplay | landingPage/src/routes/api/webhooks/campay/+server.js:108-118 | running a completed boost again at the same instant changes nothing, so each reference keeps exactly one record |
| Store.BoostRedelivered | landingPage/src/routes/api/webhooks/campay/+server.js:74-118 | a boost redelivered at any later instant, after a first delivery that met any database error or none, ends as a single clean delivery at that instant would: same outcome; on success the same tables, with the expiry and record time from the second instant and exactly one record under the reference (also after a first delivery whose payment upsert failed); on failure the tables the first delivery left |
| Store.DonationCompletes | landingPage/src/routes/api/webhooks/fapshi/+server.js:150-163 | a donation completes exactly when its upsert does; it then holds one record under the reference, made of the reference, the donor (null exactly for `anonymous`, the user id otherwise), the parsed amount, `successful` and the delivery time; nothing else changes |
| Store.DonationWrites | landingPage/src/routes/api/webhooks/fapshi/+server.js:150-163 | defined as the single donation upsert; specified by `Store.DonationCompletes` and `Store.DonationRedelivered` |
| Store.DonationReplay | landingPage/src/routes/api/webhooks/campay/+server.js:131-139 | running a completed donation again at the same instant changes nothing |
| Store.DonationRedelivered | landingPage/src/routes/api/webhooks/campay/+server.js:131-139 | a donation redelivered at any later instant, after a first upsert that succeeded or failed, leaves exactly what a single delivery at that instant leaves: one record under the reference, made at the second instant |
| Store.Db.SelectSeller | landingPage/src/routes/api/webhooks/fapshi/+server.js:96-105 | the seller is returned exactly when the call succeeds and the listing exists, and it is that listing's seller |
| Store.Db.MarkBoosted | landingPage/src/routes/api/webhooks/fapshi/+server.js:110-121 | on success the listing is boosted until the expiry; the payment tables are untouched |
| Store.Db.UpsertBoostPayment | landingPage/src/routes/api/webhooks/fapshi/+server.js:124-139 | on success the record replaces any record with the same payment reference; the other tables are untouched |
| Store.Db.UpsertDonation | landingPage/src/routes/api/webhooks/fapshi/+server.js:150-163 | on success the record replaces any record with the same payment reference; the other tables are untouched |
| Store.RunBoost | landingPage/src/routes/api/webhooks/campay/+server.js:73-126 | the fetch, update and upsert, stopping at the first error, leave exactly the tables and outcome of `BoostWrites` |
| Store.RunDonation | landingPage/src/routes/api/webhooks/campay/+server.js:128-145 | the upsert leaves exactly the tables and outcome of `DonationWrites` |
| Fapshi.Post | landingPage/src/routes/api/webhooks/fapshi/+server.js:27-84 | the handler's status and the tables it leaves are those of `Respond` on the secret the headers present |
| Fapshi.HandleBoostSuccess | landingPage/src/routes/api/webhooks/fapshi/+server.js:86-142 | without a database client the helper fails and changes nothing; otherwise it runs the boost write sequence |
| Fapshi.HandleDonationSuccess | landingPage/src/routes/api/webhooks/fapshi/+server.js:144-164 | without a database client the helper fails and changes nothing; otherwise it runs the donation upsert |
| Fapshi.Authorized | landingPage/src/routes/api/webhooks/fapshi/+server.js:43 | with no key, an empty key or the placeholder configured every secret passes; otherwise a secret passes exactly when it is the configured key |
| Fapshi.StatusOf | landingPage/src/routes/api/webhooks/fapshi/+server.js:53 | `status` when it is truthy, `state` otherwise |
| Fapshi.ReferenceOf | landingPage/src/routes/api/webhooks/fapshi/+server.js:54 | the first truthy field of `transId`, `transactionId`, and `id` otherwise |
| Fapshi.ExternalReferenceOf | landingPage/src/routes/api/webhooks/fapshi/+server.js:56 | the first truthy field of `externalId`, `externalReference`, and `custom` otherwise |
| Fapshi.IsPaid | landingPage/src/routes/api/webhooks/fapshi/+server.js:58 | defined as a status of `SUCCESSFUL` or `SUCCESS`; specified by `Fapshi.UnpaidWritesNothing` |
| Fapshi.Classify | landingPage/src/routes/api/webhooks/fapshi/+server.js:59-74 | a boost exactly for a truthy reference tagged `boost:` or `boost_`; a donation exactly for one tagged `donation:` or `donation_` and not a boost tag; a boost's duration is never empty, and the named listing, duration and donor never contain the separator |
| Fapshi.Respond | landingPage/src/routes/api/webhooks/fapshi/+server.js:43-83 | defined as the key check, the status test and the dispatch on the classified reference; specified by `Fapshi.RejectedExactly`, `Fapshi.UnpaidWritesNothing`, `Fapshi.UnrecognizedWritesNothing`, `Fapshi.ErrorRecordsNoPayment`, `Fapshi.BoostAccepted` and `Fapshi.DonationAccepted` |
| Fapshi.RejectedExactly | landingPage/src/routes/api/webhooks/fapshi/+server.js:43-46 | the answer is 401 exactly when a real key is configured and the presented secret differs from it; a 401 leaves the tables unchanged |
| Fapshi.OpenWithoutKey | landingPage/src/routes/api/webhooks/fapshi/+server.js:41-43 | with no key, an empty key or the placeholder configured, no request is refused |
| Fapshi.BearerKeyChecked | landingPage/src/routes/api/webhooks/fapshi/+server.js:37-46 | with a real key configured, a bearer token passes exactly when it is that key |
| Fapshi.Separator | landingPage/src/routes/api/webhooks/fapshi/+server.js:60 | the separator is `_` exactly when the reference contains no colon, and `:` otherwise |
| Fapshi.ColonBoost | landingPage/src/routes/api/webhooks/fapshi/+server.js:59-63 | `boost:<listing>:<days>` names that listing and that duration text |
| Fapshi.ColonBoostDefault | landingPage/src/routes/api/webhooks/fapshi/+server.js:59-63 | `boost:<listing>` names the listing, with duration `'7'` |
| Fapshi.UnderscoreBoost | landingPage/src/routes/api/webhooks/fapshi/+server.js:59-63 | `boost_<listing>_<days>` without any colon names that listing and that duration text |
| Fapshi.MixedSeparator | landingPage/src/routes/api/webhooks/fapshi/+server.js:59-63 | in a `boost_` reference, a colon makes `:` the separator, so the text after the colon is taken as the listing and the duration falls back to `'7'` |
| Fapshi.MixedSeparatorExample | landingPage/src/routes/api/webhooks/fapshi/+server.js:59-63 | `boost_abc:14` names listing `14` with duration `'7'` |
| Fapshi.TaggedDonation | landingPage/src/routes/api/webhooks/fapshi/+server.js:67-71 | `donation:<user>` and `donation_<user>` name that donor |
| Fapshi.UnrecognizedExactly | landingPage/src/routes/api/webhooks/fapshi/+server.js:59-74 | a reference is unrecognised exactly when it is missing or empty, or carries none of the four tags |
| Fapshi.UnpaidWritesNothing | landingPage/src/routes/api/webhooks/fapshi/+server.js:58-79 | an authorised notification whose status is neither `SUCCESSFUL` nor `SUCCESS` is answered 200 with the tables unchanged |
| Fapshi.UnrecognizedWritesNothing | landingPage/src/routes/api/webhooks/fapshi/+server.js:72-79 | a paid notification with a missing or unrecognised external reference is answered 200 with the tables unchanged |
| Fapshi.ErrorRecordsNoPayment | landingPage/src/routes/api/webhooks/fapshi/+server.js:80-83 | a 401 or 500 answer never leaves a new payment or donation record |
| Fapshi.ReplayIdempotent | landingPage/src/routes/api/webhooks/fapshi/+server.js:124-134 | redelivering a notification at the same instant while the database answers every call gives the same answer and leaves the same tables |
| Fapshi.Redelivered | landingPage/src/routes/api/webhooks/fapshi/+server.js:58-139 | a notification redelivered at any later instant, after a first delivery that met any database error or none, gets the answer of a single clean delivery at that instant; on 200 the tables are those that single delivery leaves, and otherwise those the first delivery left |
| Fapshi.BoostCredited | landingPage/src/routes/api/webhooks/fapshi/+server.js:96-139 | a paid `boost:<listing>:<days>` notification for an existing listing is answered 200; the listing is boosted until `now` plus the days, and the payment is recorded with the listing, its seller, the days and `successful` |
| Fapshi.BoostAccepted | landingPage/src/routes/api/webhooks/fapshi/+server.js:58-139 | a paid boost for an existing listing with a usable duration is answered 200; the new tables are exactly the old ones with that listing boosted until the expiry and the full payment record under the reference; the donations are unchanged |
| Fapshi.DonationAccepted | landingPage/src/routes/api/webhooks/fapshi/+server.js:67-71 | a paid donation is answered 200; the donations table gains or replaces exactly the record under the reference, made of the donor (null exactly for `anonymous`, the user id otherwise), the parsed amount, `successful` and the delivery time; the other tables are unchanged |
| Fapshi.AnonymousDonation | landingPage/src/routes/api/webhooks/fapshi/+server.js:150-158 | a paid `donation:anonymous` notification is answered 200 and stores a donation with a null donor |
| Campay.Post | landingPage/src/routes/api/webhooks/campay/+server.js:23-71 | the handler's status and the tables it leaves are those of `Respond` on the secret the headers present |
| Campay.HandleBoostSuccess | landingPage/src/routes/api/webhooks/campay/+server.js:73-126 | the helper runs the boost write sequence |
| Campay.HandleDonationSuccess | landingPage/src/routes/api/webhooks/campay/+server.js:128-145 | the helper runs the donation upsert |
| Campay.Authorized | landingPage/src/routes/api/webhooks/campay/+server.js:36 | an unset key refuses every secret; a configured key, empty included, admits exactly the secret equal to it |
| Campay.IsPaid | landingPage/src/routes/api/webhooks/campay/+server.js:47 | only `SUCCESSFUL` is paid: every status it accepts Fapshi accepts too, and `SUCCESS` is refused |
| Campay.Classify | landingPage/src/routes/api/webhooks/campay/+server.js:48-61 | a boost exactly for a truthy reference starting with `boost:`; a donation exactly for one starting with `donation:`; a boost's duration is never empty, and the named listing, duration and donor never contain a colon |
| Campay.Respond | landingPage/src/routes/api/webhooks/campay/+server.js:36-70 | defined as the key check, the status test and the dispatch on the classified reference; specified by `Campay.RejectedExactly`, `Campay.UnpaidWritesNothing`, `Campay.UnrecognizedWritesNothing`, `Campay.ErrorRecordsNoPayment`, `Campay.BoostAccepted` and `Campay.DonationAccepted` |
| Campay.RejectedExactly | landingPage/src/routes/api/webhooks/campay/+server.js:36-39 | the answer is 401 exactly when the presented secret is not the configured key; a 401 leaves the tables unchanged |
| Campay.UnsetKeyRejectsAll | landingPage/src/routes/api/webhooks/campay/+server.js:36-39 | with no key configured, every request is refused |
| Campay.EmptyKeyAdmitsBareRequest | landingPage/src/routes/api/webhooks/campay/+server.js:32-36 | with the key configured as the empty string, a request carrying neither header passes the check |
| Campay.BearerKeyChecked | landingPage/src/routes/api/webhooks/campay/+server.js:32-39 | a bearer token passes exactly when it is the configured key |
| Campay.ColonBoost | landingPage/src/routes/api/webhooks/campay/+server.js:48-51 | `boost:<listing>:<days>` names that listing and that duration text |
| Campay.ColonBoostDefault | landingPage/src/routes/api/webhooks/campay/+server.js:48-51 | `boost:<listing>` names the listing, with duration `'7'` |
| Campay.ColonDonation | landingPage/src/routes/api/webhooks/campay/+server.js:55-58 | `donation:<user>` names that donor |
| Campay.UnderscoreUnrecognized | landingPage/src/routes/api/webhooks/campay/+server.js:48-61 | `boost_…` and `donation_…` references are unrecognised |
| Campay.AgreesWithFapshi | landingPage/src/routes/api/webhooks/campay/+server.js:48-58 | on references starting with `boost:` or `donation:`, the two handlers classify alike |
| Campay.UnpaidWritesNothing | landingPage/src/routes/api/webhooks/campay/+server.js:47-66 | any status other than `SUCCESSFUL`, `SUCCESS` included, is answered 200 with the tables unchanged |
| Campay.UnrecognizedWritesNothing | landingPage/src/routes/api/webhooks/campay/+server.js:59-66 | a paid notification with a missing or unrecognised external reference is answered 200 with the tables unchanged |
| Campay.ErrorRecordsNoPayment | landingPage/src/routes/api/webhooks/campay/+server.js:67-70 | a 401 or 500 answer never leaves a new payment or donation record |
| Campay.ReplayIdempotent | landingPage/src/routes/api/webhooks/campay/+server.js:108-118 | redelivering a notification at the same instant while the database answers every call gives the same answer and leaves the same tables |
| Campay.Redelivered | landingPage/src/routes/api/webhooks/campay/+server.js:47-139 | a notification redelivered at any later instant, after a first delivery that met any database error or none, gets the answer of a single clean delivery at that instant; on 200 the tables are those that single delivery leaves, and otherwise those the first delivery left |
| Campay.BoostAccepted | landingPage/src/routes/api/webhooks/campay/+server.js:80-123 | a paid boost for an existing listing with a usable duration is answered 200; the new tables are exactly the old ones with that listing boosted until the expiry and the full payment record under the reference; the donations are unchanged |
| Campay.DefaultBoostCredited | landingPage/src/routes/api/webhooks/campay/+server.js:48-54 | a paid `boost:<listing>` notification boosts an existing listing for seven days and records seven days |
| Campay.DonationAccepted | landingPage/src/routes/api/webhooks/campay/+server.js:131-139 | a paid donation is answered 200; the donations table gains or replaces exactly the record under the reference, made of the donor (null exactly for `anonymous`, the user id otherwise), the parsed amount, `successful` and the delivery time; the other tables are unchanged |
| Campay.AnonymousDonation | landingPage/src/routes/api/webhooks/campay/+server.js:55-58 | a paid `donation:anonymous` notification stores a donation with a null donor |

## Left out

- The `GET` health-check endpoints. They only report which environment variables are set.
- Logging and the dump of the request headers.
- Response bodies. Only the status code and the tables are modelled, not the body's contents (the received key, error messages, stack traces).
- Parsing of the JSON body. The handlers take an already parsed payload whose fields are strings or missing. Body fields that are numbers or objects are not modelled. Neither is the 500 that an unparsable body causes.
- Construction of the database client. In the Fapshi handler, lazy `getSupabase()` is reduced to whether it yields a client. The CamPay handler's module-level `createClient` call, which fails when the module loads, is not modelled.
- The database itself. Each call's failure is an input, and each table is a map keyed by id or payment reference. When the payment reference is missing, it is one more key, not SQL NULL. Under SQL NULL semantics, an upsert with a null key inserts a fresh row.
- Concurrent deliveries and races between them. The model runs one request at a time.
- Calendar arithmetic on local time. `setDate` in a time zone with daylight-saving changes can move the expiry by an hour. The model adds whole days of 86,400,000 ms.
- JavaScript `Number` rounding. `parseInt` results beyond 2^53 are exact integers here.
- Normalisation of header values by the Fetch `Headers` object, such as stripping leading and trailing white space. A header value is taken as the handler receives it.
- Webhook.ProvidedKey: its contract gives the trimmed shape of the result, and the lemmas beside it give the exact result for bearer, bare and empty credentials. It does not state the result for an `Authorization` value where `Bearer ` occurs after other text.
