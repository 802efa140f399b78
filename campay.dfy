/** The CamPay webhook (`POST /api/webhooks/campay`): a strict key check,
    the payload fields read as they are, `SUCCESSFUL` as the only paid
    status, and external references `boost:` and `donation:` split on `:`. */
module Campay {
  import opened Wrappers
  import opened JsText
  import opened Store
  import opened Webhook
  import Fapshi

  /** The environment: `CAMPAY_WEBHOOK_KEY`. The database client is created
      when the module loads, so the handler itself never finds it missing. */
  datatype Env = Env(webhookKey: Field)

  /** The string fields of the parsed JSON body that the handler reads. */
  datatype Payload = Payload(status: Field, reference: Field, amount: Field, currency: Field, externalReference: Field)

  /** The key check: the presented secret must be the configured key; an
      unset key (`undefined`) never equals a string. */
  function Authorized(configured: Field, provided: string): (ok: bool)
    ensures configured.None? ==> !ok
    ensures configured.Some? ==> (ok <==> provided == configured.value)
  {
    configured == Some(provided)
  }

  function IsPaid(status: Field): (ok: bool)
    ensures ok ==> Fapshi.IsPaid(status)
    ensures status == Some("SUCCESS") ==> !ok
  {
    status == Some("SUCCESSFUL")
  }

  /** The classification of `external_reference`. */
  function Classify(ext: Field): (r: Ref)
    ensures r.BoostRef? <==> Truthy(ext) && StartsWith(ext.value, "boost:")
    ensures r.DonationRef? <==> Truthy(ext) && !StartsWith(ext.value, "boost:") && StartsWith(ext.value, "donation:")
    ensures r.BoostRef? ==> r.duration != "" && ':' !in r.listingId && ':' !in r.duration
    ensures r.DonationRef? ==> ':' !in r.userId
  {
    if !Truthy(ext) then Unrecognized
    else
      var s := ext.value;
      if StartsWith(s, "boost:") then
        assert s[5] == ':';
        var parts := Split(s, ':');
        BoostRef(parts[1], DurationOf(parts))
      else if StartsWith(s, "donation:") then
        assert s[8] == ':';
        var parts := Split(s, ':');
        DonationRef(parts[1])
      else Unrecognized
  }

  /** The answer to an authorised, paid notification, by the classification
      of its external reference. */
  function Dispatch(t: Tables, ref: Ref, p: Payload, now: int, f: Faults): Response
  {
    match ref
    case BoostRef(listingId, duration) =>
      Reply(BoostWrites(t, listingId, p.reference, p.amount, duration, now, f))
    case DonationRef(userId) =>
      Reply(DonationWrites(t, userId, p.reference, p.amount, now, f.upsert))
    case Unrecognized => Response(t, StatusOk)
  }

  /** The whole `POST` handler on the tables, given the secret the request
      presents: status and resulting tables. */
  function Respond(t: Tables, env: Env, key: string, p: Payload, now: int, f: Faults): Response
  {
    if !Authorized(env.webhookKey, key) then Response(t, StatusUnauthorized)
    else if !IsPaid(p.status) then Response(t, StatusOk)
    else Dispatch(t, Classify(p.externalReference), p, now, f)
  }

  /** `handleBoostSuccess`. */
  method HandleBoostSuccess(db: Db, listingId: string, reference: Field, amount: Field,
                            duration: string, now: int, f: Faults) returns (ok: bool)
    modifies db
    ensures Written(db.State(), ok) == BoostWrites(old(db.State()), listingId, reference, amount, duration, now, f)
  {
    ok := RunBoost(db, listingId, reference, amount, duration, now, f);
  }

  /** `handleDonationSuccess`. */
  method HandleDonationSuccess(db: Db, userId: string, reference: Field, amount: Field,
                               now: int, f: Faults) returns (ok: bool)
    modifies db
    ensures Written(db.State(), ok) == DonationWrites(old(db.State()), userId, reference, amount, now, f.upsert)
  {
    ok := RunDonation(db, userId, reference, amount, now, f.upsert);
  }

  /** `POST`: authenticate, read the payload, dispatch on the status and the
      external reference, and answer 200, 401 or 500. */
  method Post(db: Db, env: Env, h: Headers, p: Payload, now: int, f: Faults) returns (status: int)
    modifies db
    ensures Response(db.State(), status) == Respond(old(db.State()), env, ProvidedKey(h), p, now, f)
  {
    var providedKey := ProvidedKey(h);
    if !Authorized(env.webhookKey, providedKey) {
      return StatusUnauthorized;
    }
    if IsPaid(p.status) {
      match Classify(p.externalReference)
      case BoostRef(listingId, duration) =>
        var ok := HandleBoostSuccess(db, listingId, p.reference, p.amount, duration, now, f);
        if !ok {
          return StatusServerError;
        }
      case DonationRef(userId) =>
        var ok := HandleDonationSuccess(db, userId, p.reference, p.amount, now, f);
        if !ok {
          return StatusServerError;
        }
      case Unrecognized =>
    }
    status := StatusOk;
  }

  // ---------------------------------------------------------------------
  // Key check

  /** 401 exactly when the presented secret is not the configured key, and
      then nothing is written. */
  lemma RejectedExactly(t: Tables, env: Env, key: string, p: Payload, now: int, f: Faults)
    ensures var r := Respond(t, env, key, p, now, f);
      (r.status == StatusUnauthorized <==> env.webhookKey != Some(key))
      && (r.status == StatusUnauthorized ==> r.after == t)
  {
  }

  /** Without a configured key every request is refused: there is no bypass. */
  lemma UnsetKeyRejectsAll(t: Tables, key: string, p: Payload, now: int, f: Faults)
    ensures Respond(t, Env(None), key, p, now, f) == Response(t, StatusUnauthorized)
  {
  }

  /** With the key configured as the empty string, a request carrying
      neither header presents the empty string and passes the check. */
  lemma EmptyKeyAdmitsBareRequest(t: Tables, h: Headers, p: Payload, now: int, f: Faults)
    requires !Truthy(h.webhookKey) && !Truthy(h.authorization)
    ensures Respond(t, Env(Some("")), ProvidedKey(h), p, now, f).status != StatusUnauthorized
  {
    var key := ProvidedKey(h);
    assert key == "" by {
      NoCredentialsPresentEmpty(h);
    }
    RejectedExactly(t, Env(Some("")), key, p, now, f);
  }

  /** A bearer token passes exactly when it is the configured key. */
  lemma BearerKeyChecked(key: Field, token: string, keyHeader: Field)
    requires Trimmed(token) && !Truthy(keyHeader)
    ensures Authorized(key, ProvidedKey(Headers(Some(BearerPrefix + token), keyHeader))) <==> key == Some(token)
  {
    assert BearerPrefix + token == BearerPrefix + [] + token + [];
    BearerTokenPresented([], token, [], keyHeader);
  }

  // ---------------------------------------------------------------------
  // Classification

  /** A `boost:` reference names the second part as the listing and takes
      the duration from the third. */
  lemma ClassifiedBoost(s: string, parts: seq<string>)
    requires StartsWith(s, "boost:") && Split(s, ':') == parts
    ensures |parts| >= 2 && Classify(Some(s)) == BoostRef(parts[1], DurationOf(parts))
  {
    assert s[5] == ':';
  }

  /** A `donation:` reference names the second part as the donor. */
  lemma ClassifiedDonation(s: string, parts: seq<string>)
    requires StartsWith(s, "donation:") && Split(s, ':') == parts
    ensures |parts| >= 2 && Classify(Some(s)) == DonationRef(parts[1])
  {
    assert s[8] == ':';
    assert s[0] == 'd';
  }

  /** `boost:<listing>:<days>` names the listing and the duration text. */
  lemma ColonBoost(listingId: string, duration: string)
    requires ':' !in listingId && ':' !in duration && duration != ""
    ensures Classify(Some("boost:" + listingId + ":" + duration)) == BoostRef(listingId, duration)
  {
    var s := "boost:" + listingId + ":" + duration;
    assert StartsWith(s, "boost:") by {
      assert s[..6] == "boost:";
    }
    assert Split(s, ':') == ["boost", listingId, duration] by {
      assert s == "boost" + [':'] + listingId + [':'] + duration;
      SplitThree("boost", listingId, duration, ':');
    }
    ClassifiedBoost(s, ["boost", listingId, duration]);
  }

  /** Without a duration segment the duration is seven days. */
  lemma ColonBoostDefault(listingId: string)
    requires ':' !in listingId
    ensures Classify(Some("boost:" + listingId)) == BoostRef(listingId, "7")
  {
    var s := "boost:" + listingId;
    assert StartsWith(s, "boost:") by {
      assert s[..6] == "boost:";
    }
    assert Split(s, ':') == ["boost", listingId] by {
      assert s == "boost" + [':'] + listingId;
      SplitTwo("boost", listingId, ':');
    }
    ClassifiedBoost(s, ["boost", listingId]);
  }

  /** `donation:<user>` names the donor. */
  lemma ColonDonation(userId: string)
    requires ':' !in userId
    ensures Classify(Some("donation:" + userId)) == DonationRef(userId)
  {
    var s := "donation:" + userId;
    assert StartsWith(s, "donation:") by {
      assert s[..9] == "donation:";
    }
    assert Split(s, ':') == ["donation", userId] by {
      assert s == "donation" + [':'] + userId;
      SplitTwo("donation", userId, ':');
    }
    ClassifiedDonation(s, ["donation", userId]);
  }

  /** The underscore forms that the Fapshi handler accepts are unrecognised here. */
  lemma UnderscoreUnrecognized(rest: string)
    ensures Classify(Some("boost_" + rest)) == Unrecognized
    ensures Classify(Some("donation_" + rest)) == Unrecognized
  {
    var b := "boost_" + rest;
    var d := "donation_" + rest;
    assert b[5] == '_' && b[0] == 'b';
    assert d[8] == '_' && d[0] == 'd';
  }

  /** On references that start with `boost:` or `donation:` the two handlers
      classify alike, whatever follows. */
  lemma AgreesWithFapshi(s: string)
    requires StartsWith(s, "boost:") || StartsWith(s, "donation:")
    ensures Classify(Some(s)) == Fapshi.Classify(Some(s))
  {
    var parts := Split(s, ':');
    if StartsWith(s, "boost:") {
      assert Fapshi.IsBoostTag(s) && Fapshi.Separator(s) == ':' by {
        assert s[5] == ':';
      }
      ClassifiedBoost(s, parts);
      Fapshi.ClassifiedBoost(s, parts);
    } else {
      assert !Fapshi.IsBoostTag(s) && Fapshi.IsDonationTag(s) && Fapshi.Separator(s) == ':' by {
        assert s[8] == ':' && s[0] == 'd';
      }
      ClassifiedDonation(s, parts);
      Fapshi.ClassifiedDonation(s, parts);
    }
  }

  // ---------------------------------------------------------------------
  // The handler

  /** A status other than `SUCCESSFUL`, `SUCCESS` included, writes nothing
      and is acknowledged. */
  lemma UnpaidWritesNothing(t: Tables, env: Env, key: string, p: Payload, now: int, f: Faults)
    requires Authorized(env.webhookKey, key) && p.status != Some("SUCCESSFUL")
    ensures Respond(t, env, key, p, now, f) == Response(t, StatusOk)
  {
  }

  /** A paid notification whose external reference is missing or lacks both
      tags writes nothing and is acknowledged. */
  lemma UnrecognizedWritesNothing(t: Tables, env: Env, key: string, p: Payload, now: int, f: Faults)
    requires Authorized(env.webhookKey, key) && IsPaid(p.status)
    requires !Truthy(p.externalReference) ||
             (!StartsWith(p.externalReference.value, "boost:") && !StartsWith(p.externalReference.value, "donation:"))
    ensures Respond(t, env, key, p, now, f) == Response(t, StatusOk)
  {
  }

  /** An answer of 500 never leaves a payment or donation record behind. */
  lemma ErrorRecordsNoPayment(t: Tables, env: Env, key: string, p: Payload, now: int, f: Faults)
    ensures var r := Respond(t, env, key, p, now, f);
      r.status != StatusOk ==> r.after.boostPayments == t.boostPayments && r.after.donations == t.donations
  {
    DispatchRecordsNoPayment(t, Classify(p.externalReference), p, now, f);
  }

  lemma DispatchRecordsNoPayment(t: Tables, ref: Ref, p: Payload, now: int, f: Faults)
    ensures var r := Dispatch(t, ref, p, now, f);
      r.status != StatusOk ==> r.after.boostPayments == t.boostPayments && r.after.donations == t.donations
  {
    match ref
    case BoostRef(listingId, duration) =>
      BoostFailureRecordsNothing(t, listingId, p.reference, p.amount, duration, now, f);
    case DonationRef(userId) =>
      DonationCompletes(t, userId, p.reference, p.amount, now, f.upsert);
    case Unrecognized =>
  }

  /** Redelivering a notification with the database answering every call
      leaves the tables and the answer as the first delivery did. */
  lemma ReplayIdempotent(t: Tables, env: Env, key: string, p: Payload, now: int)
    ensures var r := Respond(t, env, key, p, now, NoFaults);
      Respond(r.after, env, key, p, now, NoFaults) == r
  {
    if Authorized(env.webhookKey, key) && IsPaid(p.status) {
      DispatchReplay(t, Classify(p.externalReference), p, now);
    }
  }

  /** A redelivery at a later instant `now2`, after a first delivery at
      `now` that met the database errors `f1` (none, or one that made the
      handler answer 500), gets the answer a single delivery at `now2` with
      the database answering every call would get. When that answer is 200 the tables are
      those a single delivery at `now2` leaves (so one record per reference,
      the expiry and record time taken from `now2`); otherwise they stay as
      the first delivery left them. */
  lemma Redelivered(t: Tables, env: Env, key: string, p: Payload, now: int, now2: int, f1: Faults)
    ensures var r := Respond(t, env, key, p, now, f1);
      var r2 := Respond(r.after, env, key, p, now2, NoFaults);
      var single := Respond(t, env, key, p, now2, NoFaults);
      && r2.status == single.status
      && (r2.status == StatusOk ==> r2.after == single.after)
      && (r2.status != StatusOk ==> r2.after == r.after)
  {
    if Authorized(env.webhookKey, key) && IsPaid(p.status) {
      DispatchRedelivered(t, Classify(p.externalReference), p, now, now2, f1);
    }
  }

  lemma DispatchRedelivered(t: Tables, ref: Ref, p: Payload, now: int, now2: int, f1: Faults)
    ensures var r := Dispatch(t, ref, p, now, f1);
      var r2 := Dispatch(r.after, ref, p, now2, NoFaults);
      var single := Dispatch(t, ref, p, now2, NoFaults);
      && r2.status == single.status
      && (r2.status == StatusOk ==> r2.after == single.after)
      && (r2.status != StatusOk ==> r2.after == r.after)
  {
    match ref
    case BoostRef(listingId, duration) =>
      BoostRedelivered(t, listingId, p.reference, p.amount, duration, now, now2, f1);
    case DonationRef(userId) =>
      DonationRedelivered(t, userId, p.reference, p.amount, now, now2, f1.upsert);
    case Unrecognized =>
  }

  lemma DispatchReplay(t: Tables, ref: Ref, p: Payload, now: int)
    ensures var r := Dispatch(t, ref, p, now, NoFaults);
      Dispatch(r.after, ref, p, now, NoFaults) == r
  {
    match ref
    case BoostRef(listingId, duration) =>
      BoostReplay(t, listingId, p.reference, p.amount, duration, now);
    case DonationRef(userId) =>
      DonationReplay(t, userId, p.reference, p.amount, now);
    case Unrecognized =>
  }

  /** A paid boost notification for an existing listing with a usable
      duration answers 200 and performs both writes: the listing is boosted
      until the expiry, the payment is recorded under its reference, and
      nothing else changes. */
  lemma BoostAccepted(t: Tables, env: Env, key: string, p: Payload, now: int,
                      listingId: string, duration: string, w: Window)
    requires Authorized(env.webhookKey, key) && IsPaid(p.status)
    requires Classify(p.externalReference) == BoostRef(listingId, duration)
    requires listingId in t.listings && BoostWindow(now, duration) == Some(w)
    ensures var r := Respond(t, env, key, p, now, NoFaults);
      && r.status == StatusOk
      && listingId in r.after.listings
      && r.after.listings[listingId] == Boosted(t.listings[listingId], w.expiresAt)
      && p.reference in r.after.boostPayments
      && r.after.boostPayments[p.reference]
         == BoostPayment(p.reference, listingId, t.listings[listingId].sellerId, AmountOf(p.amount), w.days, Successful, now)
      && r.after == Tables(
           t.listings[listingId := Boosted(t.listings[listingId], w.expiresAt)],
           t.boostPayments[p.reference := BoostPayment(p.reference, listingId, t.listings[listingId].sellerId, AmountOf(p.amount), w.days, Successful, now)],
           t.donations)
  {
    BoostCompletes(t, listingId, p.reference, p.amount, duration, now, NoFaults);
  }

  /** A paid `boost:<listing>` notification without a duration boosts an
      existing listing for seven days. */
  lemma DefaultBoostCredited(t: Tables, env: Env, key: string, p: Payload, now: int, listingId: string)
    requires Authorized(env.webhookKey, key) && IsPaid(p.status)
    requires p.externalReference == Some("boost:" + listingId)
    requires ':' !in listingId && listingId in t.listings
    requires ValidTime(DaysLater(now, 7))
    ensures var r := Respond(t, env, key, p, now, NoFaults);
      && r.status == StatusOk
      && listingId in r.after.listings
      && r.after.listings[listingId] == Boosted(t.listings[listingId], DaysLater(now, 7))
      && p.reference in r.after.boostPayments
      && r.after.boostPayments[p.reference].durationDays == 7
  {
    var w := Window(7, DaysLater(now, 7));
    assert Classify(p.externalReference) == BoostRef(listingId, "7") by {
      ColonBoostDefault(listingId);
    }
    assert BoostWindow(now, "7") == Some(w) by {
      SevenDayWindow(now);
    }
    BoostAccepted(t, env, key, p, now, listingId, "7", w);
  }

  /** A paid donation notification stores the donation under the payment
      reference: the donor (null exactly for `anonymous`), the parsed amount,
      `successful` and the delivery time; nothing else changes. */
  lemma DonationAccepted(t: Tables, env: Env, key: string, p: Payload, now: int, userId: string)
    requires Authorized(env.webhookKey, key) && IsPaid(p.status)
    requires Classify(p.externalReference) == DonationRef(userId)
    ensures var r := Respond(t, env, key, p, now, NoFaults);
      && r.status == StatusOk
      && r.after.listings == t.listings && r.after.boostPayments == t.boostPayments
      && r.after.donations == t.donations[p.reference := Donation(p.reference, DonorOf(userId), AmountOf(p.amount), Successful, now)]
      && (r.after.donations[p.reference].userId.None? <==> userId == "anonymous")
      && (userId != "anonymous" ==> r.after.donations[p.reference].userId == Some(userId))
  {
    DonationCompletes(t, userId, p.reference, p.amount, now, false);
  }

  /** A paid `donation:anonymous` notification stores a donation with no donor. */
  lemma AnonymousDonation(t: Tables, env: Env, key: string, p: Payload, now: int)
    requires Authorized(env.webhookKey, key) && IsPaid(p.status)
    requires p.externalReference == Some("donation:anonymous")
    ensures var r := Respond(t, env, key, p, now, NoFaults);
      r.status == StatusOk && p.reference in r.after.donations && r.after.donations[p.reference].userId == None
  {
    assert Classify(p.externalReference) == DonationRef("anonymous") by {
      assert "donation:anonymous" == "donation:" + "anonymous";
      ColonDonation("anonymous");
    }
    DonationAccepted(t, env, key, p, now, "anonymous");
  }
}
