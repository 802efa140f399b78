/** The Fapshi webhook (`POST /api/webhooks/fapshi`): a key check that is
    skipped while no key is configured, payload fields read with `||`
    fallbacks, `SUCCESSFUL` or `SUCCESS` as paid, and external references
    `boost:`/`boost_` and `donation:`/`donation_` split on `:` when the
    reference contains one anywhere, else on `_`. */
module Fapshi {
  import opened Wrappers
  import opened JsText
  import opened Store
  import opened Webhook

  /** The configured key that stands for "no key yet". */
  const Placeholder := "PLACEHOLDER_WEBHOOK_KEY_CREATE_LATER"

  /** The environment: `FAPSHI_WEBHOOK_KEY`, and whether the database URL and
      service key are both set so that `getSupabase()` yields a client. */
  datatype Env = Env(webhookKey: Field, databaseConfigured: bool)

  /** The string fields of the parsed JSON body that the handler reads. */
  datatype Payload = Payload(
    status: Field, state: Field,
    transId: Field, transactionId: Field, id: Field,
    amount: Field,
    externalId: Field, externalReference: Field, custom: Field)

  /** The key check: a request is turned away only when a key is configured,
      it is not the placeholder, and the presented secret differs from it. */
  function Authorized(configured: Field, provided: string): (ok: bool)
    ensures !Truthy(configured) || configured.value == Placeholder ==> ok
    ensures Truthy(configured) && configured.value != Placeholder ==> (ok <==> provided == configured.value)
  {
    !(Truthy(configured) && configured.value != Placeholder && provided != configured.value)
  }

  /** `status || state`. */
  function StatusOf(p: Payload): (r: Field)
    ensures Truthy(p.status) ==> r == p.status
    ensures !Truthy(p.status) ==> r == p.state
  {
    Or(p.status, p.state)
  }

  /** `transId || transactionId || id`. */
  function ReferenceOf(p: Payload): (r: Field)
    ensures Truthy(p.transId) ==> r == p.transId
    ensures !Truthy(p.transId) && Truthy(p.transactionId) ==> r == p.transactionId
    ensures !Truthy(p.transId) && !Truthy(p.transactionId) ==> r == p.id
  {
    Or(Or(p.transId, p.transactionId), p.id)
  }

  /** `externalId || externalReference || custom`. */
  function ExternalReferenceOf(p: Payload): (r: Field)
    ensures Truthy(p.externalId) ==> r == p.externalId
    ensures !Truthy(p.externalId) && Truthy(p.externalReference) ==> r == p.externalReference
    ensures !Truthy(p.externalId) && !Truthy(p.externalReference) ==> r == p.custom
  {
    Or(Or(p.externalId, p.externalReference), p.custom)
  }

  /** Only these two statuses lead to writes. */
  predicate IsPaid(status: Field) {
    status == Some("SUCCESSFUL") || status == Some("SUCCESS")
  }

  /** `':'` when the reference contains one anywhere, else `'_'`. */
  function Separator(s: string): (c: char)
    ensures c == ':' || c == '_'
    ensures c == '_' <==> ':' !in s
  {
    if Includes(s, ':') then ':' else '_'
  }

  predicate IsBoostTag(s: string) {
    StartsWith(s, "boost:") || StartsWith(s, "boost_")
  }

  predicate IsDonationTag(s: string) {
    StartsWith(s, "donation:") || StartsWith(s, "donation_")
  }

  /** A reference with a tag contains its separator, so splitting gives at
      least two parts. */
  lemma TaggedHasTwoParts(s: string, tag: string)
    requires |tag| > 0 && StartsWith(s, tag) && (tag[|tag| - 1] == ':' || tag[|tag| - 1] == '_')
    ensures |Split(s, Separator(s))| >= 2
  {
    assert s[|tag| - 1] == tag[|tag| - 1];
  }

  /** The classification of the external reference. */
  function Classify(ext: Field): (r: Ref)
    ensures r.BoostRef? <==> Truthy(ext) && IsBoostTag(ext.value)
    ensures r.DonationRef? <==> Truthy(ext) && !IsBoostTag(ext.value) && IsDonationTag(ext.value)
    ensures r.BoostRef? ==>
      r.duration != "" && Separator(ext.value) !in r.listingId && Separator(ext.value) !in r.duration
    ensures r.DonationRef? ==> Separator(ext.value) !in r.userId
  {
    if !Truthy(ext) then Unrecognized
    else
      var s := ext.value;
      if IsBoostTag(s) then
        var parts := Split(s, Separator(s));
        TaggedHasTwoParts(s, if StartsWith(s, "boost:") then "boost:" else "boost_");
        BoostRef(parts[1], DurationOf(parts))
      else if IsDonationTag(s) then
        var parts := Split(s, Separator(s));
        TaggedHasTwoParts(s, if StartsWith(s, "donation:") then "donation:" else "donation_");
        DonationRef(parts[1])
      else Unrecognized
  }

  /** `handleBoostSuccess`: without a database client it throws; otherwise
      the boost write sequence. */
  function BoostSuccess(t: Tables, env: Env, listingId: string, reference: Field, amount: Field,
                        duration: string, now: int, f: Faults): Written
  {
    if !env.databaseConfigured then Written(t, false)
    else BoostWrites(t, listingId, reference, amount, duration, now, f)
  }

  /** `handleDonationSuccess`: without a database client it throws; otherwise
      the donation upsert. */
  function DonationSuccess(t: Tables, env: Env, userId: string, reference: Field, amount: Field,
                           now: int, f: Faults): Written
  {
    if !env.databaseConfigured then Written(t, false)
    else DonationWrites(t, userId, reference, amount, now, f.upsert)
  }

  /** The answer to an authorised, paid notification, by the classification
      of its external reference. */
  function Dispatch(t: Tables, env: Env, ref: Ref, p: Payload, now: int, f: Faults): Response
  {
    match ref
    case BoostRef(listingId, duration) =>
      Reply(BoostSuccess(t, env, listingId, ReferenceOf(p), p.amount, duration, now, f))
    case DonationRef(userId) =>
      Reply(DonationSuccess(t, env, userId, ReferenceOf(p), p.amount, now, f))
    case Unrecognized => Response(t, StatusOk)
  }

  /** The whole `POST` handler on the tables, given the secret the request
      presents: status and resulting tables. */
  function Respond(t: Tables, env: Env, key: string, p: Payload, now: int, f: Faults): Response
  {
    if !Authorized(env.webhookKey, key) then Response(t, StatusUnauthorized)
    else if !IsPaid(StatusOf(p)) then Response(t, StatusOk)
    else Dispatch(t, env, Classify(ExternalReferenceOf(p)), p, now, f)
  }

  method HandleBoostSuccess(db: Db, env: Env, listingId: string, reference: Field, amount: Field,
                            duration: string, now: int, f: Faults) returns (ok: bool)
    modifies db
    ensures Written(db.State(), ok) == BoostSuccess(old(db.State()), env, listingId, reference, amount, duration, now, f)
  {
    if !env.databaseConfigured {
      return false;
    }
    ok := RunBoost(db, listingId, reference, amount, duration, now, f);
  }

  method HandleDonationSuccess(db: Db, env: Env, userId: string, reference: Field, amount: Field,
                               now: int, f: Faults) returns (ok: bool)
    modifies db
    ensures Written(db.State(), ok) == DonationSuccess(old(db.State()), env, userId, reference, amount, now, f)
  {
    if !env.databaseConfigured {
      return false;
    }
    ok := RunDonation(db, userId, reference, amount, now, f.upsert);
  }

  /** `POST`: authenticate, read the payload, dispatch on the status and the
      external reference, and answer 200, 401 or 500. */
  method Post(db: Db, env: Env, h: Headers, p: Payload, now: int, f: Faults) returns (status: int)
    modifies db
    ensures Response(db.State(), status) == Respond(old(db.State()), env, ProvidedKey(h), p, now, f)
  {
    var providedKey := ProvidedKey(h);
    if !Authorized(env.webhookKey, providedKey) {
      return StatusUnauthorized;
    }
    var paymentStatus := StatusOf(p);
    var reference := ReferenceOf(p);
    var externalReference := ExternalReferenceOf(p);
    if IsPaid(paymentStatus) {
      match Classify(externalReference)
      case BoostRef(listingId, duration) =>
        var ok := HandleBoostSuccess(db, env, listingId, reference, p.amount, duration, now, f);
        if !ok {
          return StatusServerError;
        }
      case DonationRef(userId) =>
        var ok := HandleDonationSuccess(db, env, userId, reference, p.amount, now, f);
        if !ok {
          return StatusServerError;
        }
      case Unrecognized =>
    }
    status := StatusOk;
  }

  // ---------------------------------------------------------------------
  // Key check

  /** 401 exactly when the key check fails, and then nothing is written. */
  lemma RejectedExactly(t: Tables, env: Env, key: string, p: Payload, now: int, f: Faults)
    ensures var r := Respond(t, env, key, p, now, f);
      (r.status == StatusUnauthorized <==> !Authorized(env.webhookKey, key))
      && (r.status == StatusUnauthorized ==> r.after == t)
  {
  }

  /** With no key, an empty key or the placeholder configured, every request
      passes the key check. */
  lemma OpenWithoutKey(t: Tables, env: Env, key: string, p: Payload, now: int, f: Faults)
    requires !Truthy(env.webhookKey) || env.webhookKey.value == Placeholder
    ensures Respond(t, env, key, p, now, f).status != StatusUnauthorized
  {
  }

  /** With a real key configured, a request presenting it as a bearer token
      passes and one presenting any other secret is refused. */
  lemma BearerKeyChecked(key: string, token: string, keyHeader: Field)
    requires key != "" && key != Placeholder && Trimmed(token) && !Truthy(keyHeader)
    ensures Authorized(Some(key), ProvidedKey(Headers(Some(BearerPrefix + token), keyHeader))) <==> token == key
  {
    assert BearerPrefix + token == BearerPrefix + [] + token + [];
    BearerTokenPresented([], token, [], keyHeader);
  }

  // ---------------------------------------------------------------------
  // Classification

  /** A boost-tagged reference names the second part as the listing and
      takes the duration from the third. */
  lemma ClassifiedBoost(s: string, parts: seq<string>)
    requires IsBoostTag(s) && Split(s, Separator(s)) == parts
    ensures |parts| >= 2 && Classify(Some(s)) == BoostRef(parts[1], DurationOf(parts))
  {
    TaggedHasTwoParts(s, if StartsWith(s, "boost:") then "boost:" else "boost_");
  }

  /** A donation-tagged reference names the second part as the donor. */
  lemma ClassifiedDonation(s: string, parts: seq<string>)
    requires !IsBoostTag(s) && IsDonationTag(s) && Split(s, Separator(s)) == parts
    ensures |parts| >= 2 && Classify(Some(s)) == DonationRef(parts[1])
  {
    TaggedHasTwoParts(s, if StartsWith(s, "donation:") then "donation:" else "donation_");
  }

  /** `boost:<listing>:<days>` names the listing and the duration text. */
  lemma ColonBoost(listingId: string, duration: string)
    requires ':' !in listingId && ':' !in duration && duration != ""
    ensures Classify(Some("boost:" + listingId + ":" + duration)) == BoostRef(listingId, duration)
  {
    var s := "boost:" + listingId + ":" + duration;
    assert IsBoostTag(s) && Separator(s) == ':' by {
      assert s[..6] == "boost:";
      assert s[5] == ':';
    }
    assert Split(s, ':') == ["boost", listingId, duration] by {
      assert s == "boost" + [':'] + listingId + [':'] + duration;
      SplitThree("boost", listingId, duration, ':');
    }
    ClassifiedBoost(s, ["boost", listingId, duration]);
  }

  /** Without a duration segment the duration is seven days. */
  lemma ColonBoostDefault(listingId: string)
    requires ':' !in listingId
    ensures Classify(Some("boost:" + listingId)) == BoostRef(listingId, "7")
  {
    var s := "boost:" + listingId;
    assert IsBoostTag(s) && Separator(s) == ':' by {
      assert s[..6] == "boost:";
      assert s[5] == ':';
    }
    assert Split(s, ':') == ["boost", listingId] by {
      assert s == "boost" + [':'] + listingId;
      SplitTwo("boost", listingId, ':');
    }
    ClassifiedBoost(s, ["boost", listingId]);
  }

  /** `boost_<listing>_<days>` is read the same way when nothing in it is a colon. */
  lemma UnderscoreBoost(listingId: string, duration: string)
    requires '_' !in listingId && '_' !in duration && duration != ""
    requires ':' !in listingId && ':' !in duration
    ensures Classify(Some("boost_" + listingId + "_" + duration)) == BoostRef(listingId, duration)
  {
    var s := "boost_" + listingId + "_" + duration;
    assert IsBoostTag(s) by {
      assert s[..6] == "boost_";
    }
    assert Separator(s) == '_' by {
      assert s == "boost_" + listingId + "_" + duration;
      assert ':' !in "boost_" && ':' !in "_";
    }
    assert Split(s, '_') == ["boost", listingId, duration] by {
      assert s == "boost" + ['_'] + listingId + ['_'] + duration;
      SplitThree("boost", listingId, duration, '_');
    }
    ClassifiedBoost(s, ["boost", listingId, duration]);
  }

  /** The separator quirk: a colon anywhere makes `:` the separator even
      after a `boost_` tag, so in `boost_abc:14` the listing is `14` and the
      duration falls back to seven days. */
  lemma MixedSeparator(tag: string, listingId: string)
    requires StartsWith(tag, "boost_") && ':' !in tag && ':' !in listingId
    ensures Classify(Some(tag + ":" + listingId)) == BoostRef(listingId, "7")
  {
    var s := tag + ":" + listingId;
    assert IsBoostTag(s) && Separator(s) == ':' by {
      assert s[..6] == tag[..6];
      assert s[|tag|] == ':';
    }
    assert Split(s, ':') == [tag, listingId] by {
      assert s == tag + [':'] + listingId;
      SplitTwo(tag, listingId, ':');
    }
    ClassifiedBoost(s, [tag, listingId]);
  }

  /** The quirk on the reference `boost_abc:14`. */
  lemma MixedSeparatorExample()
    ensures Classify(Some("boost_abc:14")) == BoostRef("14", "7")
  {
    MixedSeparator("boost_abc", "14");
    assert "boost_abc" + ":" + "14" == "boost_abc:14";
  }

  /** `donation:<user>` and `donation_<user>` name the donor. */
  lemma TaggedDonation(userId: string, sep: char)
    requires sep == ':' || sep == '_'
    requires ':' !in userId && sep !in userId
    ensures Classify(Some("donation" + [sep] + userId)) == DonationRef(userId)
  {
    var s := "donation" + [sep] + userId;
    assert !IsBoostTag(s) by {
      assert s[0] == 'd';
    }
    assert IsDonationTag(s) && Separator(s) == sep by {
      assert s[..9] == "donation" + [sep];
      assert s[8] == sep;
      assert ':' !in "donation";
    }
    assert Split(s, sep) == ["donation", userId] by {
      SplitTwo("donation", userId, sep);
    }
    ClassifiedDonation(s, ["donation", userId]);
  }

  /** A reference is unrecognised exactly when it is missing or empty or has
      none of the four tags. */
  lemma UnrecognizedExactly(ext: Field)
    ensures Classify(ext) == Unrecognized <==>
      !Truthy(ext) || (!IsBoostTag(ext.value) && !IsDonationTag(ext.value))
  {
  }

  // ---------------------------------------------------------------------
  // The handler

  /** An unpaid status writes nothing and is acknowledged. */
  lemma UnpaidWritesNothing(t: Tables, env: Env, key: string, p: Payload, now: int, f: Faults)
    requires Authorized(env.webhookKey, key) && !IsPaid(StatusOf(p))
    ensures Respond(t, env, key, p, now, f) == Response(t, StatusOk)
  {
  }

  /** A paid notification whose external reference is missing or
      unrecognised writes nothing and is acknowledged. */
  lemma UnrecognizedWritesNothing(t: Tables, env: Env, key: string, p: Payload, now: int, f: Faults)
    requires Authorized(env.webhookKey, key) && IsPaid(StatusOf(p))
    requires !Truthy(ExternalReferenceOf(p)) ||
             (!IsBoostTag(ExternalReferenceOf(p).value) && !IsDonationTag(ExternalReferenceOf(p).value))
    ensures Respond(t, env, key, p, now, f) == Response(t, StatusOk)
  {
    UnrecognizedExactly(ExternalReferenceOf(p));
  }

  /** An answer of 500 never leaves a payment or donation record behind (the
      listing update may persist, see `BoostWithoutPayment`), so the
      gateway's redelivery finds the payment unrecorded. */
  lemma ErrorRecordsNoPayment(t: Tables, env: Env, key: string, p: Payload, now: int, f: Faults)
    ensures var r := Respond(t, env, key, p, now, f);
      r.status != StatusOk ==> r.after.boostPayments == t.boostPayments && r.after.donations == t.donations
  {
    DispatchRecordsNoPayment(t, env, Classify(ExternalReferenceOf(p)), p, now, f);
  }

  lemma DispatchRecordsNoPayment(t: Tables, env: Env, ref: Ref, p: Payload, now: int, f: Faults)
    ensures var r := Dispatch(t, env, ref, p, now, f);
      r.status != StatusOk ==> r.after.boostPayments == t.boostPayments && r.after.donations == t.donations
  {
    match ref
    case BoostRef(listingId, duration) =>
      BoostFailureRecordsNothing(t, listingId, ReferenceOf(p), p.amount, duration, now, f);
    case DonationRef(userId) =>
      DonationCompletes(t, userId, ReferenceOf(p), p.amount, now, f.upsert);
    case Unrecognized =>
  }

  /** Redelivering a notification with the database answering every call
      leaves the tables and the answer as the first delivery did: one record
      per payment reference. */
  lemma ReplayIdempotent(t: Tables, env: Env, key: string, p: Payload, now: int)
    ensures var r := Respond(t, env, key, p, now, NoFaults);
      Respond(r.after, env, key, p, now, NoFaults) == r
  {
    if Authorized(env.webhookKey, key) && IsPaid(StatusOf(p)) {
      DispatchReplay(t, env, Classify(ExternalReferenceOf(p)), p, now);
    }
  }

  /** A redelivery at a later instant `now2`, after a first delivery at
      `now` that met the database errors `f1` (none, or one that made the
      handler answer 500), gets the answer a single delivery at `now2` with
      the database answering every call would get. When that answer is 200 the tables are
      those a single delivery at `now2` leaves (so one record per reference,
      the expiry and record time taken from `now2`); otherwise they stay as
      the first delivery left them. */
  lemma Redelivered(t: Tables, env: Env, key: string, p: Payload, now: int, now2: int, f1: Faults)
    ensures var r := Respond(t, env, key, p, now, f1);
      var r2 := Respond(r.after, env, key, p, now2, NoFaults);
      var single := Respond(t, env, key, p, now2, NoFaults);
      && r2.status == single.status
      && (r2.status == StatusOk ==> r2.after == single.after)
      && (r2.status != StatusOk ==> r2.after == r.after)
  {
    if Authorized(env.webhookKey, key) && IsPaid(StatusOf(p)) {
      DispatchRedelivered(t, env, Classify(ExternalReferenceOf(p)), p, now, now2, f1);
    }
  }

  lemma DispatchRedelivered(t: Tables, env: Env, ref: Ref, p: Payload, now: int, now2: int, f1: Faults)
    ensures var r := Dispatch(t, env, ref, p, now, f1);
      var r2 := Dispatch(r.after, env, ref, p, now2, NoFaults);
      var single := Dispatch(t, env, ref, p, now2, NoFaults);
      && r2.status == single.status
      && (r2.status == StatusOk ==> r2.after == single.after)
      && (r2.status != StatusOk ==> r2.after == r.after)
  {
    if env.databaseConfigured {
      match ref
      case BoostRef(listingId, duration) =>
        BoostRedelivered(t, listingId, ReferenceOf(p), p.amount, duration, now, now2, f1);
      case DonationRef(userId) =>
        DonationRedelivered(t, userId, ReferenceOf(p), p.amount, now, now2, f1.upsert);
      case Unrecognized =>
    }
  }

  lemma DispatchReplay(t: Tables, env: Env, ref: Ref, p: Payload, now: int)
    ensures var r := Dispatch(t, env, ref, p, now, NoFaults);
      Dispatch(r.after, env, ref, p, now, NoFaults) == r
  {
    if env.databaseConfigured {
      match ref
      case BoostRef(listingId, duration) =>
        BoostReplay(t, listingId, ReferenceOf(p), p.amount, duration, now);
      case DonationRef(userId) =>
        DonationReplay(t, userId, ReferenceOf(p), p.amount, now);
      case Unrecognized =>
    }
  }

  /** A paid `boost:<listing>:<days>` notification for an existing listing
      answers 200, boosts the listing until `now` plus the days, and records
      the payment with the listing, its seller and the days. */
  lemma BoostCredited(t: Tables, env: Env, key: string, p: Payload, now: int, listingId: string, days: int)
    requires Authorized(env.webhookKey, key) && env.databaseConfigured
    requires IsPaid(StatusOf(p))
    requires ExternalReferenceOf(p) == Some("boost:" + listingId + ":" + DecimalString(days))
    requires ':' !in listingId && listingId in t.listings
    requires ValidTime(DaysLater(now, days))
    ensures var r := Respond(t, env, key, p, now, NoFaults);
      && r.status == StatusOk
      && listingId in r.after.listings
      && r.after.listings[listingId] == Boosted(t.listings[listingId], DaysLater(now, days))
      && ReferenceOf(p) in r.after.boostPayments
      && r.after.boostPayments[ReferenceOf(p)].listingId == listingId
      && r.after.boostPayments[ReferenceOf(p)].userId == t.listings[listingId].sellerId
      && r.after.boostPayments[ReferenceOf(p)].durationDays == days
      && r.after.boostPayments[ReferenceOf(p)].status == Successful
  {
    var d := DecimalString(days);
    var w := Window(days, DaysLater(now, days));
    assert Classify(ExternalReferenceOf(p)) == BoostRef(listingId, d) by {
      DecimalHasNoColon(days);
      ColonBoost(listingId, d);
    }
    assert BoostWindow(now, d) == Some(w) by {
      DecimalWindow(now, days);
    }
    BoostAccepted(t, env, key, p, now, listingId, d, w);
  }

  /** A paid boost notification for an existing listing with a usable
      duration answers 200 and performs both writes: the listing is boosted
      until the expiry, the payment is recorded under its reference, and
      nothing else changes. */
  lemma BoostAccepted(t: Tables, env: Env, key: string, p: Payload, now: int,
                      listingId: string, duration: string, w: Window)
    requires Authorized(env.webhookKey, key) && env.databaseConfigured && IsPaid(StatusOf(p))
    requires Classify(ExternalReferenceOf(p)) == BoostRef(listingId, duration)
    requires listingId in t.listings && BoostWindow(now, duration) == Some(w)
    ensures var r := Respond(t, env, key, p, now, NoFaults);
      && r.status == StatusOk
      && listingId in r.after.listings
      && r.after.listings[listingId] == Boosted(t.listings[listingId], w.expiresAt)
      && ReferenceOf(p) in r.after.boostPayments
      && r.after.boostPayments[ReferenceOf(p)]
         == BoostPayment(ReferenceOf(p), listingId, t.listings[listingId].sellerId, AmountOf(p.amount), w.days, Successful, now)
      && r.after == Tables(
           t.listings[listingId := Boosted(t.listings[listingId], w.expiresAt)],
           t.boostPayments[ReferenceOf(p) := BoostPayment(ReferenceOf(p), listingId, t.listings[listingId].sellerId, AmountOf(p.amount), w.days, Successful, now)],
           t.donations)
  {
    BoostCompletes(t, listingId, ReferenceOf(p), p.amount, duration, now, NoFaults);
    RespondToBoost(t, env, key, p, now, NoFaults, listingId, duration);
  }

  /** A paid, accepted boost notification is answered by the boost writes. */
  lemma RespondToBoost(t: Tables, env: Env, key: string, p: Payload, now: int, f: Faults,
                       listingId: string, duration: string)
    requires Authorized(env.webhookKey, key) && env.databaseConfigured && IsPaid(StatusOf(p))
    requires Classify(ExternalReferenceOf(p)) == BoostRef(listingId, duration)
    ensures Respond(t, env, key, p, now, f) == Reply(BoostWrites(t, listingId, ReferenceOf(p), p.amount, duration, now, f))
  {
  }

  /** A paid donation notification, with a database client, stores the
      donation under the payment reference: the donor (null exactly for
      `anonymous`), the parsed amount, `successful` and the delivery time;
      nothing else changes. */
  lemma DonationAccepted(t: Tables, env: Env, key: string, p: Payload, now: int, userId: string)
    requires Authorized(env.webhookKey, key) && env.databaseConfigured && IsPaid(StatusOf(p))
    requires Classify(ExternalReferenceOf(p)) == DonationRef(userId)
    ensures var r := Respond(t, env, key, p, now, NoFaults);
      && r.status == StatusOk
      && r.after.listings == t.listings && r.after.boostPayments == t.boostPayments
      && r.after.donations == t.donations[ReferenceOf(p) := Donation(ReferenceOf(p), DonorOf(userId), AmountOf(p.amount), Successful, now)]
      && (r.after.donations[ReferenceOf(p)].userId.None? <==> userId == "anonymous")
      && (userId != "anonymous" ==> r.after.donations[ReferenceOf(p)].userId == Some(userId))
  {
    DonationCompletes(t, userId, ReferenceOf(p), p.amount, now, false);
  }

  /** A paid `donation:anonymous` notification stores a donation with no donor. */
  lemma AnonymousDonation(t: Tables, env: Env, key: string, p: Payload, now: int)
    requires Authorized(env.webhookKey, key) && env.databaseConfigured
    requires IsPaid(StatusOf(p))
    requires ExternalReferenceOf(p) == Some("donation:anonymous")
    ensures var r := Respond(t, env, key, p, now, NoFaults);
      r.status == StatusOk && ReferenceOf(p) in r.after.donations && r.after.donations[ReferenceOf(p)].userId == None
  {
    assert Classify(ExternalReferenceOf(p)) == DonationRef("anonymous") by {
      assert "donation:anonymous" == "donation" + [':'] + "anonymous";
      TaggedDonation("anonymous", ':');
    }
    DonationAccepted(t, env, key, p, now, "anonymous");
  }

  lemma DecimalHasNoColon(n: int)
    ensures ':' !in DecimalString(n) && DecimalString(n) != ""
  {
    var d := if n < 0 then Digits(-n) else Digits(n);
    forall k | 0 <= k < |d| ensures d[k] != ':' {
      assert IsDigitIn(d[k], 10);
    }
  }
}
