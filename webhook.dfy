/** What the two webhook handlers share: the request headers they read, the
    secret a request presents, the kinds of external reference, the boost
    duration default and the HTTP status codes they answer with. */
module Webhook {
  import opened Wrappers
  import opened JsText
  import opened Store

  /** The headers a handler reads: `Authorization` and the gateway's own
      key header (`x-fapshi-webhook-key` or `x-campay-webhook-key`). */
  datatype Headers = Headers(authorization: Field, webhookKey: Field)

  const BearerPrefix := "Bearer "

  /** The secret a request presents: the gateway's key header when it is
      non-empty, otherwise `Authorization` (missing counts as empty) with the
      first `Bearer ` removed, wherever it stands, and then trimmed. */
  function ProvidedKey(h: Headers): (key: string)
    ensures Truthy(h.webhookKey) ==> key == h.webhookKey.value
    ensures !Truthy(h.webhookKey) ==> Trimmed(key)
  {
    if Truthy(h.webhookKey) then h.webhookKey.value
    else Trim(RemoveFirst(h.authorization.GetOr(""), BearerPrefix))
  }

  /** A bearer token, with any white space around it, is presented as the
      token itself when the key header is empty or missing. */
  lemma BearerTokenPresented(w1: string, token: string, w2: string, keyHeader: Field)
    requires AllSpace(w1) && AllSpace(w2) && Trimmed(token) && !Truthy(keyHeader)
    ensures ProvidedKey(Headers(Some(BearerPrefix + w1 + token + w2), keyHeader)) == token
  {
    var rest := w1 + token + w2;
    assert BearerPrefix + w1 + token + w2 == BearerPrefix + rest;
    StrippedPresented(BearerPrefix + rest, rest, token, keyHeader) by {
      RemoveLeadingPattern(BearerPrefix, rest);
      TrimPadded(w1, token, w2);
    }
  }

  /** An `Authorization` value that loses its first `Bearer ` to `rest`, which
      trims to `token`, is presented as `token`. */
  lemma StrippedPresented(auth: string, rest: string, token: string, keyHeader: Field)
    requires !Truthy(keyHeader)
    requires RemoveFirst(auth, BearerPrefix) == rest && Trim(rest) == token
    ensures ProvidedKey(Headers(Some(auth), keyHeader)) == token
  {
  }

  /** A bare `Authorization` value without `Bearer ` in it is presented as it is. */
  lemma BareAuthorizationPresented(token: string, keyHeader: Field)
    requires Trimmed(token) && !Truthy(keyHeader)
    requires forall j :: !OccursAt(token, BearerPrefix, j)
    ensures ProvidedKey(Headers(Some(token), keyHeader)) == token
  {
    assert FirstOccurrence(token, BearerPrefix, 0).None?;
    assert [] + token + [] == token;
    TrimPadded([], token, []);
  }

  /** With neither header the presented secret is the empty string. */
  lemma NoCredentialsPresentEmpty(h: Headers)
    requires !Truthy(h.webhookKey) && !Truthy(h.authorization)
    ensures ProvidedKey(h) == ""
  {
    assert h.authorization.GetOr("") == "";
    assert FirstOccurrence("", BearerPrefix, 0).None?;
  }

  /** The classified external reference: the listing and duration text of a
      boost, the donor of a donation, or a reference that causes no write. */
  datatype Ref = BoostRef(listingId: string, duration: string) | DonationRef(userId: string) | Unrecognized

  /** `parts[2] || '7'`: the third segment unless it is missing or empty, in
      which case seven days. */
  function DurationOf(parts: seq<string>): (d: string)
    ensures d != ""
    ensures |parts| > 2 && parts[2] != "" ==> d == parts[2]
    ensures !(|parts| > 2 && parts[2] != "") ==> d == "7"
  {
    if |parts| > 2 && parts[2] != "" then parts[2] else "7"
  }

  const StatusOk := 200
  const StatusUnauthorized := 401
  const StatusServerError := 500

  /** The tables after a request and the HTTP status it was answered with. */
  datatype Response = Response(after: Tables, status: int)

  /** A handler's answer to a write sequence: 200 when it completed, 500 for
      the exception it threw otherwise. */
  function Reply(w: Written): (r: Response)
    ensures r.after == w.after
    ensures r.status == StatusOk <==> w.ok
    ensures r.status == StatusOk || r.status == StatusServerError
  {
    Response(w.after, if w.ok then StatusOk else StatusServerError)
  }
}
