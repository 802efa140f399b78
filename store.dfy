/** The three database tables the webhook handlers write (`listings`,
    `boost_payments`, `donations`), the write sequences of a successful boost
    and of a successful donation, and the object through which the handlers
    reach the tables. The database itself is external: each of its calls may
    answer with an error, which the model receives as a `Faults` value. */
module Store {
  import opened Wrappers
  import opened JsText

  /** The instant `days` days of 86,400,000 ms after `now`. */
  function DaysLater(now: int, days: int): int {
    now + days * 86_400_000
  }

  /** ECMAScript time values are limited to 8.64e15 ms either side of the epoch;
      a `Date` beyond that is invalid and `toISOString` throws on it. */
  const MaxTime := 8_640_000_000_000_000

  predicate ValidTime(t: int) {
    -MaxTime <= t <= MaxTime
  }

  /** The status both handlers store in every record they write. */
  const Successful := "successful"

  /** A row of `listings`: only the columns the handlers read or write. */
  datatype Listing = Listing(sellerId: string, isBoosted: bool, boostExpiresAt: Option<int>)

  /** A row of `boost_payments`, unique by `paymentReference`. */
  datatype BoostPayment = BoostPayment(
    paymentReference: Field,
    listingId: string,
    userId: string,
    amount: Option<int>,
    durationDays: int,
    status: string,
    createdAt: int)

  /** A row of `donations`, unique by `paymentReference`; `userId` is null for
      an anonymous donor. */
  datatype Donation = Donation(
    paymentReference: Field,
    userId: Option<string>,
    amount: Option<int>,
    status: string,
    createdAt: int)

  /** The contents of the three tables, listings by id and payments by
      payment reference. */
  datatype Tables = Tables(
    listings: map<string, Listing>,
    boostPayments: map<Field, BoostPayment>,
    donations: map<Field, Donation>)

  /** Whether each database call of a boost answers with an error: the listing
      fetch, the listing update and the payment upsert (the donation path uses
      only `upsert`). */
  datatype Faults = Faults(fetch: bool, update: bool, upsert: bool)

  const NoFaults := Faults(false, false, false)

  /** The tables after a write sequence, and whether it completed (`false`
      stands for the exception the handler throws). */
  datatype Written = Written(after: Tables, ok: bool)

  /** The boost period: the parsed duration and the expiry instant. */
  datatype Window = Window(days: int, expiresAt: int)

  /** `new Date()` advanced by `parseInt(duration)` days: `None` when the
      duration does not parse (NaN) or the instant leaves the range of
      `Date`, both of which make `toISOString` throw later. */
  function BoostWindow(now: int, duration: string): Option<Window>
  {
    match ParseInt(duration)
    case None => None
    case Some(days) =>
      var expiresAt := DaysLater(now, days);
      if ValidTime(expiresAt) then Some(Window(days, expiresAt)) else None
  }

  /** `parseInt(amount)` as stored: NaN is stored as null. */
  function AmountOf(amount: Field): Option<int> {
    if amount.Some? then ParseInt(amount.value) else None
  }

  /** The listing after the visibility update of a boost. */
  function Boosted(l: Listing, expiresAt: int): Listing {
    l.(isBoosted := true, boostExpiresAt := Some(expiresAt))
  }

  /** The write sequence of a successful boost: fetch the seller of the
      listing, mark the listing boosted until the expiry, upsert the payment
      by its reference. A failing step aborts the remaining ones. */
  function BoostWrites(t: Tables, listingId: string, reference: Field, amount: Field,
                       duration: string, now: int, f: Faults): Written
  {
    var w := BoostWindow(now, duration);
    if f.fetch || listingId !in t.listings then Written(t, false)
    else if w.None? then Written(t, false)
    else if f.update then Written(t, false)
    else
      var l := t.listings[listingId];
      var t1 := t.(listings := t.listings[listingId := Boosted(l, w.value.expiresAt)]);
      if f.upsert then Written(t1, false)
      else
        var p := BoostPayment(reference, listingId, l.sellerId, AmountOf(amount), w.value.days, Successful, now);
        Written(t1.(boostPayments := t1.boostPayments[reference := p]), true)
  }

  /** The donor as stored: the sentinel `anonymous` becomes null. */
  function DonorOf(userId: string): (r: Option<string>)
    ensures r.None? <==> userId == "anonymous"
    ensures r.Some? ==> r.value == userId
  {
    if userId == "anonymous" then None else Some(userId)
  }

  /** The write sequence of a successful donation: one upsert by reference. */
  function DonationWrites(t: Tables, userId: string, reference: Field, amount: Field,
                          now: int, fails: bool): Written
  {
    if fails then Written(t, false)
    else
      var d := Donation(reference, DonorOf(userId), AmountOf(amount), Successful, now);
      Written(t.(donations := t.donations[reference := d]), true)
  }

  // ---------------------------------------------------------------------
  // Properties of the write sequences

  /** A boost completes exactly when the listing exists, the duration gives a
      valid expiry and no database call fails; it then leaves the listing
      boosted until `now` plus the duration and exactly one payment record
      under the reference, holding the listing, its seller and the duration. */
  lemma BoostCompletes(t: Tables, listingId: string, reference: Field, amount: Field,
                       duration: string, now: int, f: Faults)
    ensures var r := BoostWrites(t, listingId, reference, amount, duration, now, f);
      r.ok <==> listingId in t.listings && BoostWindow(now, duration).Some? && f == NoFaults
    ensures var r := BoostWrites(t, listingId, reference, amount, duration, now, f);
      r.ok ==>
        var w := BoostWindow(now, duration).value;
        && r.after.listings == t.listings[listingId := Boosted(t.listings[listingId], w.expiresAt)]
        && r.after.boostPayments.Keys == t.boostPayments.Keys + {reference}
        && r.after.boostPayments[reference] ==
             BoostPayment(reference, listingId, t.listings[listingId].sellerId, AmountOf(amount), w.days, Successful, now)
        && (forall k :: k in t.boostPayments && k != reference ==> r.after.boostPayments[k] == t.boostPayments[k])
        && r.after.donations == t.donations
  {
  }

  /** The window is the parsed duration and `now` advanced by that many days,
      and exists exactly when the duration parses to a day count that keeps
      the instant inside the range of `Date`. */
  lemma WindowMeaning(now: int, duration: string)
    ensures BoostWindow(now, duration).Some? <==>
      ParseInt(duration).Some? && ValidTime(DaysLater(now, ParseInt(duration).value))
    ensures BoostWindow(now, duration).Some? ==>
      var w := BoostWindow(now, duration).value;
      ParseInt(duration) == Some(w.days) && w.expiresAt == DaysLater(now, w.days)
  {
  }

  /** A boost that does not complete records no payment and no donation; when
      it stops before the listing update (missing listing, failed fetch,
      unusable duration, failed update) nothing changes at all. */
  lemma BoostFailureRecordsNothing(t: Tables, listingId: string, reference: Field, amount: Field,
                                   duration: string, now: int, f: Faults)
    ensures var r := BoostWrites(t, listingId, reference, amount, duration, now, f);
      !r.ok ==> r.after.boostPayments == t.boostPayments && r.after.donations == t.donations
    ensures var r := BoostWrites(t, listingId, reference, amount, duration, now, f);
      (f.fetch || f.update || listingId !in t.listings || BoostWindow(now, duration).None?) ==> r == Written(t, false)
  {
  }

  /** The consistency gap between the two writes: when only the payment
      upsert fails, the listing stays boosted without a payment record. */
  lemma BoostWithoutPayment(t: Tables, listingId: string, reference: Field, amount: Field,
                            duration: string, now: int)
    requires listingId in t.listings && reference !in t.boostPayments
    requires BoostWindow(now, duration).Some?
    ensures var r := BoostWrites(t, listingId, reference, amount, duration, now, Faults(false, false, true));
      !r.ok && r.after.listings[listingId].isBoosted && reference !in r.after.boostPayments
  {
  }

  /** Redelivery: running a completed boost again with the same inputs
      changes nothing, so the reference still has exactly one record. */
  lemma BoostReplay(t: Tables, listingId: string, reference: Field, amount: Field,
                    duration: string, now: int)
    ensures var r := BoostWrites(t, listingId, reference, amount, duration, now, NoFaults);
      BoostWrites(r.after, listingId, reference, amount, duration, now, NoFaults) == Written(r.after, r.ok)
  {
    var r := BoostWrites(t, listingId, reference, amount, duration, now, NoFaults);
    var w := BoostWindow(now, duration);
    if r.ok {
      var l1 := Boosted(t.listings[listingId], w.value.expiresAt);
      var p := BoostPayment(reference, listingId, l1.sellerId, AmountOf(amount), w.value.days, Successful, now);
      assert r.after.listings[listingId] == l1;
      assert r.after.boostPayments[reference] == p;
      ReplayUnchanged(r.after, listingId, l1, reference, p);
    }
  }

  /** Writing back what a table already holds changes nothing. */
  lemma ReplayUnchanged(t: Tables, listingId: string, l: Listing, reference: Field, p: BoostPayment)
    requires listingId in t.listings && t.listings[listingId] == l && l.boostExpiresAt.Some? && l.isBoosted
    requires reference in t.boostPayments && t.boostPayments[reference] == p
    ensures t.listings[listingId := Boosted(l, l.boostExpiresAt.value)] == t.listings
    ensures t.boostPayments[reference := p] == t.boostPayments
  {
  }

  /** A donation completes exactly when its upsert does, and then holds one
      record under the reference: the donor (null exactly for `anonymous`,
      the user id otherwise), the parsed amount, `successful` and the time
      of the delivery; nothing else changes. */
  lemma DonationCompletes(t: Tables, userId: string, reference: Field, amount: Field, now: int, fails: bool)
    ensures var r := DonationWrites(t, userId, reference, amount, now, fails);
      && (r.ok <==> !fails)
      && r.after.listings == t.listings
      && r.after.boostPayments == t.boostPayments
      && (!r.ok ==> r.after == t)
      && (r.ok ==>
            && r.after.donations.Keys == t.donations.Keys + {reference}
            && r.after.donations[reference] == Donation(reference, DonorOf(userId), AmountOf(amount), Successful, now)
            && (r.after.donations[reference].userId.None? <==> userId == "anonymous")
            && (userId != "anonymous" ==> r.after.donations[reference].userId == Some(userId))
            && (forall k :: k in t.donations && k != reference ==> r.after.donations[k] == t.donations[k]))
  {
  }

  /** Redelivery of a donation leaves the tables as the first delivery did. */
  lemma DonationReplay(t: Tables, userId: string, reference: Field, amount: Field, now: int)
    ensures var r := DonationWrites(t, userId, reference, amount, now, false);
      DonationWrites(r.after, userId, reference, amount, now, false) == r
  {
    var r := DonationWrites(t, userId, reference, amount, now, false);
    assert r.after.donations[reference := r.after.donations[reference]] == r.after.donations;
  }

  /** A redelivery at a later instant `now2`, after a first delivery at `now`
      that met the database errors `f1` (none, or one that made the handler
      answer 500), ends as a single clean delivery at `now2` would: the same
      outcome, and on success the same tables, with the listing boosted
      until `now2` plus the duration and exactly one record under the
      reference, made at `now2`. When it fails (the listing is missing or
      the duration gives no valid expiry at `now2`) the tables stay as the
      first delivery left them. */
  lemma BoostRedelivered(t: Tables, listingId: string, reference: Field, amount: Field,
                         duration: string, now: int, now2: int, f1: Faults)
    ensures var r := BoostWrites(t, listingId, reference, amount, duration, now, f1);
      var r2 := BoostWrites(r.after, listingId, reference, amount, duration, now2, NoFaults);
      && (r2.ok <==> BoostWrites(t, listingId, reference, amount, duration, now2, NoFaults).ok)
      && (r2.ok ==> r2 == BoostWrites(t, listingId, reference, amount, duration, now2, NoFaults))
      && (!r2.ok ==> r2.after == r.after)
      && (r.ok ==> r2.after.boostPayments.Keys == r.after.boostPayments.Keys)
      && r2.after.donations == t.donations
      && (r2.ok ==>
            && listingId in r2.after.listings
            && r2.after.listings[listingId].boostExpiresAt == Some(BoostWindow(now2, duration).value.expiresAt)
            && r2.after.boostPayments.Keys == t.boostPayments.Keys + {reference}
            && r2.after.boostPayments[reference].createdAt == now2)
  {
    var r := BoostWrites(t, listingId, reference, amount, duration, now, f1);
    var single := BoostWrites(t, listingId, reference, amount, duration, now2, NoFaults);
    var r2 := BoostWrites(r.after, listingId, reference, amount, duration, now2, NoFaults);
    BoostCompletes(t, listingId, reference, amount, duration, now2, NoFaults);
    if f1.fetch || listingId !in t.listings || BoostWindow(now, duration).None? || f1.update {
      assert r.after == t by {
        BoostFailureRecordsNothing(t, listingId, reference, amount, duration, now, f1);
      }
    } else if BoostWindow(now2, duration).None? {
      assert r2 == Written(r.after, false) && !single.ok;
    } else {
      var l := t.listings[listingId];
      var w1 := BoostWindow(now, duration).value;
      var w2 := BoostWindow(now2, duration).value;
      var p1 := BoostPayment(reference, listingId, l.sellerId, AmountOf(amount), w1.days, Successful, now);
      var p2 := BoostPayment(reference, listingId, l.sellerId, AmountOf(amount), w2.days, Successful, now2);
      assert single.after == Tables(t.listings[listingId := Boosted(l, w2.expiresAt)], t.boostPayments[reference := p2], t.donations);
      if f1.upsert {
        assert r.after == Tables(t.listings[listingId := Boosted(l, w1.expiresAt)], t.boostPayments, t.donations);
      } else {
        assert r.after == Tables(t.listings[listingId := Boosted(l, w1.expiresAt)], t.boostPayments[reference := p1], t.donations);
      }
      assert r2.after == single.after by {
        Overwritten(t, listingId, l, w1.expiresAt, w2.expiresAt, reference, p1, p2);
      }
    }
  }

  /** Boosting a boosted listing again, and upserting a second record under
      the same reference, leaves what the second writes alone would leave. */
  lemma Overwritten(t: Tables, listingId: string, l: Listing, e1: int, e2: int,
                    reference: Field, p1: BoostPayment, p2: BoostPayment)
    ensures t.listings[listingId := Boosted(l, e1)][listingId := Boosted(Boosted(l, e1), e2)]
         == t.listings[listingId := Boosted(l, e2)]
    ensures t.boostPayments[reference := p1][reference := p2] == t.boostPayments[reference := p2]
  {
    assert Boosted(Boosted(l, e1), e2) == Boosted(l, e2);
  }

  /** A donation redelivered at a later instant `now2`, after a first
      delivery whose upsert succeeded or failed (`fails1`), leaves exactly
      what a single delivery at `now2` would have left: one record under
      the reference, made at `now2`. */
  lemma DonationRedelivered(t: Tables, userId: string, reference: Field, amount: Field,
                            now: int, now2: int, fails1: bool)
    ensures var r := DonationWrites(t, userId, reference, amount, now, fails1);
      var r2 := DonationWrites(r.after, userId, reference, amount, now2, false);
      && r2 == DonationWrites(t, userId, reference, amount, now2, false)
      && r2.after.donations.Keys == t.donations.Keys + {reference}
      && (r.ok ==> r2.after.donations.Keys == r.after.donations.Keys)
      && r2.after.donations[reference].createdAt == now2
  {
    var d1 := Donation(reference, DonorOf(userId), AmountOf(amount), Successful, now);
    var d2 := Donation(reference, DonorOf(userId), AmountOf(amount), Successful, now2);
    assert t.donations[reference := d1][reference := d2] == t.donations[reference := d2];
  }

  /** A duration written as the decimal form of a day count gives the window
      of that many days, whenever the expiry is a valid time. */
  lemma DecimalWindow(now: int, days: int)
    requires ValidTime(DaysLater(now, days))
    ensures BoostWindow(now, DecimalString(days)) == Some(Window(days, DaysLater(now, days)))
  {
    assert DecimalString(days) + "" == DecimalString(days);
    ParseIntOfDecimal(days, "");
  }

  /** The default boost period of seven days. */
  lemma SevenDayWindow(now: int)
    requires ValidTime(DaysLater(now, 7))
    ensures BoostWindow(now, "7") == Some(Window(7, DaysLater(now, 7)))
  {
    DecimalWindow(now, 7);
    assert DecimalString(7) == "7";
  }

  /** A stored amount is the number the amount text spells in decimal, and
      null when the amount is missing. */
  lemma AmountOfDecimal(n: int)
    ensures AmountOf(Some(DecimalString(n))) == Some(n)
    ensures AmountOf(None) == None
  {
    assert DecimalString(n) + "" == DecimalString(n);
    ParseIntOfDecimal(n, "");
  }

  /** A duration whose text does not start (after white space and a sign)
      with a digit gives no window, so the boost fails. */
  lemma NonNumericDuration(now: int, duration: string)
    requires var u := Unsigned(TrimStart(duration)); u == [] || !IsDigitIn(u[0], 10)
    ensures BoostWindow(now, duration) == None
  {
  }

  // ---------------------------------------------------------------------
  // The database as the handlers see it

  /** The database client: the three tables, which every call reads or
      replaces. */
  class Db {
    var listings: map<string, Listing>
    var boostPayments: map<Field, BoostPayment>
    var donations: map<Field, Donation>

    /** The contents of the tables. */
    function State(): Tables
      reads this
    {
      Tables(listings, boostPayments, donations)
    }

    constructor (t: Tables)
      ensures State() == t
    {
      listings, boostPayments, donations := t.listings, t.boostPayments, t.donations;
    }

    /** `select('seller_id').eq('id', listingId).single()`: the seller, or
        `None` when the call errs or no row matches. */
    method SelectSeller(listingId: string, fails: bool) returns (seller: Option<string>)
      ensures seller.Some? <==> !fails && listingId in listings
      ensures seller.Some? ==> seller.value == listings[listingId].sellerId
    {
      if fails || listingId !in listings {
        seller := None;
      } else {
        seller := Some(listings[listingId].sellerId);
      }
    }

    /** `update({is_boosted: true, boost_expires_at}).eq('id', listingId)`:
        an update that matches no row is not an error. */
    method MarkBoosted(listingId: string, expiresAt: int, fails: bool) returns (ok: bool)
      modifies this
      ensures ok == !fails
      ensures listings == if ok && listingId in old(listings)
                          then old(listings)[listingId := Boosted(old(listings)[listingId], expiresAt)]
                          else old(listings)
      ensures boostPayments == old(boostPayments) && donations == old(donations)
    {
      ok := !fails;
      if ok && listingId in listings {
        listings := listings[listingId := Boosted(listings[listingId], expiresAt)];
      }
    }

    /** `upsert(p, {onConflict: 'payment_reference'})` on `boost_payments`. */
    method UpsertBoostPayment(p: BoostPayment, fails: bool) returns (ok: bool)
      modifies this
      ensures ok == !fails
      ensures boostPayments == if ok then old(boostPayments)[p.paymentReference := p] else old(boostPayments)
      ensures listings == old(listings) && donations == old(donations)
    {
      ok := !fails;
      if ok {
        boostPayments := boostPayments[p.paymentReference := p];
      }
    }

    /** `upsert(d, {onConflict: 'payment_reference'})` on `donations`. */
    method UpsertDonation(d: Donation, fails: bool) returns (ok: bool)
      modifies this
      ensures ok == !fails
      ensures donations == if ok then old(donations)[d.paymentReference := d] else old(donations)
      ensures listings == old(listings) && boostPayments == old(boostPayments)
    {
      ok := !fails;
      if ok {
        donations := donations[d.paymentReference := d];
      }
    }
  }

  /** `handleBoostSuccess` once the database client exists: the three calls
      in order, each error ending the sequence. */
  method RunBoost(db: Db, listingId: string, reference: Field, amount: Field,
                  duration: string, now: int, f: Faults) returns (ok: bool)
    modifies db
    ensures Written(db.State(), ok) == BoostWrites(old(db.State()), listingId, reference, amount, duration, now, f)
  {
    var window := BoostWindow(now, duration);
    var seller := db.SelectSeller(listingId, f.fetch);
    if seller.None? {
      return false;
    }
    if window.None? {
      return false;
    }
    var updated := db.MarkBoosted(listingId, window.value.expiresAt, f.update);
    if !updated {
      return false;
    }
    var payment := BoostPayment(reference, listingId, seller.value, AmountOf(amount), window.value.days, Successful, now);
    ok := db.UpsertBoostPayment(payment, f.upsert);
  }

  /** `handleDonationSuccess` once the database client exists. */
  method RunDonation(db: Db, userId: string, reference: Field, amount: Field,
                     now: int, fails: bool) returns (ok: bool)
    modifies db
    ensures Written(db.State(), ok) == DonationWrites(old(db.State()), userId, reference, amount, now, fails)
  {
    var donation := Donation(reference, DonorOf(userId), AmountOf(amount), Successful, now);
    ok := db.UpsertDonation(donation, fails);
  }
}
