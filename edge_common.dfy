/** What the two edge functions share: the error taxonomy and its HTTP statuses, the
    bearer-header check, the reading of the verified claims, the document store and its
    equality filters, and the mapping of a failed gateway status. The identity verifier,
    the store and the gateway are outside the model: their answers are inputs, and the
    calls a handler makes to them are recorded in order. */
module EdgeCommon {
  import opened Wrappers
  import opened Text

  const BearerPrefix: string := "Bearer "

  /** Every way an invocation ends without success. `Thrown` is an exception caught by the
      outer `catch`, reported with its message and status 500. */
  datatype Failure =
    | Unauthorized
    | InvalidToken
    | MissingUserId
    | MessagesRequired
    | TooManyMessages(limit: nat)
    | DocumentsFetchFailed
    | NoPyqDocuments
    | RateLimited
    | CreditsExhausted
    | AiServiceError
    | AnalysisFailed
    | Thrown(message: string)

  function Status(f: Failure): (code: int)
    ensures code in {400, 401, 402, 429, 500}
    ensures code == 401 <==> f.Unauthorized? || f.InvalidToken? || f.MissingUserId?
    ensures code == 400 <==> f.MessagesRequired? || f.TooManyMessages? || f.NoPyqDocuments?
  {
    match f
    case Unauthorized | InvalidToken | MissingUserId => 401
    case MessagesRequired | TooManyMessages(_) | NoPyqDocuments => 400
    case RateLimited => 429
    case CreditsExhausted => 402
    case DocumentsFetchFailed | AiServiceError | AnalysisFailed | Thrown(_) => 500
  }

  /** The `error` field of the JSON error body. */
  function ErrorText(f: Failure): string {
    match f
    case Unauthorized => "Unauthorized"
    case InvalidToken => "Invalid token"
    case MissingUserId => "User ID not found in token"
    case MessagesRequired => "Messages array is required"
    case TooManyMessages(limit) => "Maximum " + NatToString(limit) + " messages allowed"
    case DocumentsFetchFailed => "Failed to fetch documents"
    case NoPyqDocuments => "No PYQ documents found. Please upload previous year question papers first."
    case RateLimited => "Rate limit exceeded. Please try again later."
    case CreditsExhausted => "AI credits exhausted. Please add credits to continue."
    case AiServiceError => "AI service error"
    case AnalysisFailed => "Failed to generate analysis"
    case Thrown(message) => message
  }

  /** The message of the exception thrown when the gateway key is not configured. */
  const ApiKeyMissingMessage: string := "LOVABLE_API_KEY is not configured"

  /** A handler's reply: an error body with its status, or the handler's success payload. */
  datatype Response<P> = Fail(failure: Failure) | Success(payload: P)

  function StatusOf<P>(r: Response<P>): (code: int)
    ensures r.Success? <==> code == 200
  {
    match r
    case Fail(f) => Status(f)
    case Success(_) => 200
  }

  /** The token from the `Authorization` header: present and starting with `"Bearer "`,
      else Unauthorized. The token is the header with its first `"Bearer "` replaced by nothing. */
  function BearerToken(header: Option<string>): (r: Result<string, Failure>)
    ensures r.Ok? <==> header.Some? && StartsWith(header.value, BearerPrefix)
    ensures r.Ok? ==> header.value == BearerPrefix + r.value
    ensures r.Err? ==> r.error == Unauthorized
  {
    if header.Some? && StartsWith(header.value, BearerPrefix) then
      ReplacePrefixWithEmpty(header.value, BearerPrefix);
      Ok(ReplaceFirst(header.value, BearerPrefix, ""))
    else
      Err(Unauthorized)
  }

  /** What the identity verifier answered for the token: an error, no claims, or claims
      whose `sub` may be absent. */
  datatype Claims = ClaimsError | NoClaims | ClaimsOk(sub: Option<string>)

  /** The caller's user id: the `sub` claim, which must be a non-empty string. */
  function UserId(claims: Claims): (r: Result<string, Failure>)
    ensures r.Ok? <==> claims.ClaimsOk? && claims.sub.Some? && claims.sub.value != ""
    ensures r.Ok? ==> claims == ClaimsOk(Some(r.value))
    ensures r.Err? ==> r.error == if claims.ClaimsOk? then MissingUserId else InvalidToken
    ensures r.Err? ==> Status(r.error) == 401
  {
    match claims
    case ClaimsError | NoClaims => Err(InvalidToken)
    case ClaimsOk(sub) => if sub.Some? && sub.value != "" then Ok(sub.value) else Err(MissingUserId)
  }

  /** A row of the `documents` table; `extractedText` is absent when nothing was extracted. */
  datatype StoredDoc = StoredDoc(ownerId: string, filename: string, extractedText: Option<string>, category: string)

  /** The equality filters of a document query: always the owner, optionally the category. */
  datatype DocumentFilter = DocumentFilter(ownerId: string, category: Option<string>)

  predicate Matches(f: DocumentFilter, d: StoredDoc) {
    d.ownerId == f.ownerId && (f.category.Some? ==> d.category == f.category.value)
  }

  /** The rows a query returns: those the filter matches, in store order. */
  function Select(store: seq<StoredDoc>, f: DocumentFilter): (rows: seq<StoredDoc>)
    ensures |rows| <= |store|
    ensures forall d :: d in rows <==> d in store && Matches(f, d)
  {
    if store == [] then []
    else (if Matches(f, store[0]) then [store[0]] else []) + Select(store[1..], f)
  }

  /** A query returns every matching row as often as the store holds it, and no other row. */
  lemma {:induction false} SelectCounts(store: seq<StoredDoc>, f: DocumentFilter)
    ensures forall d :: multiset(Select(store, f))[d] == if Matches(f, d) then multiset(store)[d] else 0
  {
    if store != [] {
      SelectCounts(store[1..], f);
      assert store == [store[0]] + store[1..];
    }
  }

  /** Rows come back in store order: a row added at the end of the store is returned
      after all the others, exactly when the filter matches it. */
  lemma {:induction false} SelectSnoc(store: seq<StoredDoc>, d: StoredDoc, f: DocumentFilter)
    ensures Select(store + [d], f) == Select(store, f) + (if Matches(f, d) then [d] else [])
  {
    if store == [] {
      assert [d][1..] == [];
    } else {
      assert (store + [d])[1..] == store[1..] + [d];
      SelectSnoc(store[1..], d, f);
    }
  }

  /** The gateway's answer to the one request: `fetch` threw, or a response with a status
      and a body. */
  datatype Upstream<B> = FetchThrew(message: string) | Replied(status: int, body: B)

  /** `response.ok`. */
  predicate IsOk(status: int) {
    200 <= status <= 299
  }

  /** The failure reported for a gateway response that is not OK: 429 and 402 pass through,
      anything else is a generic service error with status 500. */
  function UpstreamFailure(status: int): (r: Option<Failure>)
    ensures r.None? <==> IsOk(status)
    ensures r.Some? ==> Status(r.value) == (if status == 429 || status == 402 then status else 500)
    ensures r.Some? ==> r.value in {RateLimited, CreditsExhausted, AiServiceError}
  {
    if IsOk(status) then None
    else if status == 429 then Some(RateLimited)
    else if status == 402 then Some(CreditsExhausted)
    else Some(AiServiceError)
  }

  /** A call to a service outside the model, with what was sent. */
  datatype Call<Q> = VerifyToken(token: string) | QueryDocuments(filter: DocumentFilter) | CallGateway(request: Q)

  /** A handler's response together with the outside calls it made, in order. */
  datatype Outcome<Q, P> = Outcome(response: Response<P>, calls: seq<Call<Q>>)
}
