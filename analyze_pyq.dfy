/** The analysis edge function (`analyze-pyq`): check the bearer header and the claims,
    read the caller's question papers, build a bounded context from them, ask the gateway
    for a forced tool call, and return that call's arguments or map the failure. */
module AnalyzePyq {
  import opened Wrappers
  import opened Text
  import opened EdgeCommon

  const MaxPaperLength: nat := 20000
  const MaxContextLength: nat := 50000
  const TruncationMarker: string := "\n[Content truncated...]"
  const PaperSeparator: string := "\n\n"
  const PyqCategory: string := "pyq"

  /** The query: the caller's rows of category "pyq". */
  function PaperFilter(userId: string): (f: DocumentFilter)
    ensures forall d :: Matches(f, d) <==> d.ownerId == userId && d.category == PyqCategory
  {
    DocumentFilter(userId, Some(PyqCategory))
  }

  function PaperLabel(number: nat, d: StoredDoc): string {
    "[Question Paper " + NatToString(number) + ": " + d.filename + "]\n"
  }

  /** `(doc.extracted_text || "").substring(0, 20000)`. */
  function PaperExcerpt(d: StoredDoc): (excerpt: string)
    ensures |excerpt| <= MaxPaperLength
    ensures d.extractedText.None? ==> excerpt == ""
    ensures d.extractedText.Some? ==> StartsWith(d.extractedText.value, excerpt)
    ensures d.extractedText.Some? && |d.extractedText.value| <= MaxPaperLength ==> excerpt == d.extractedText.value
  {
    Take(d.extractedText.GetOr(""), MaxPaperLength)
  }

  /** What paper number `number` contributes: its label line, then the start of its text. */
  function Paper(number: nat, d: StoredDoc): string {
    PaperLabel(number, d) + PaperExcerpt(d)
  }

  /** The `map` over the documents. */
  function Papers(docs: seq<StoredDoc>): (r: seq<string>)
    ensures |r| == |docs|
    ensures forall i :: 0 <= i < |docs| ==> r[i] == Paper(i + 1, docs[i])
  {
    seq(|docs|, i requires 0 <= i < |docs| => Paper(i + 1, docs[i]))
  }

  /** The `join("\n\n")` of the papers, before the overall bound is applied. */
  function PaperContext(docs: seq<StoredDoc>): (ctx: string)
    ensures docs == [] ==> ctx == ""
    ensures docs != [] ==> StartsWith(ctx, Paper(1, docs[0]))
  {
    Join(Papers(docs), PaperSeparator)
  }

  /** The papers appear in input order: one more document adds the separator and its paper
      at the end. */
  lemma PaperContextSnoc(docs: seq<StoredDoc>, d: StoredDoc)
    ensures PaperContext(docs + [d])
            == if docs == [] then Paper(1, d) else PaperContext(docs) + PaperSeparator + Paper(|docs| + 1, d)
  {
    assert Papers(docs + [d]) == Papers(docs) + [Paper(|docs| + 1, d)];
    JoinSnoc(Papers(docs), Paper(|docs| + 1, d), PaperSeparator);
  }

  /** The overall bound: a context longer than 50 000 characters keeps its first 50 000
      and gets the marker appended after the cut. */
  function Truncate(context: string): (r: string)
    ensures |context| <= MaxContextLength ==> r == context
    ensures |context| > MaxContextLength ==>
              && |r| == MaxContextLength + |TruncationMarker|
              && r[..MaxContextLength] == context[..MaxContextLength]
              && r[MaxContextLength..] == TruncationMarker
    ensures |r| <= MaxContextLength + |TruncationMarker|
  {
    if |context| > MaxContextLength then context[..MaxContextLength] + TruncationMarker else context
  }

  /** Bounding an already bounded context changes nothing. */
  lemma TruncateIdempotent(context: string)
    ensures Truncate(Truncate(context)) == Truncate(context)
  {
  }

  /** The bound is 50 023 characters, not 50 000: the marker is appended after the cut. */
  lemma TruncatedLengthExceedsCeiling(context: string)
    requires |context| > MaxContextLength
    ensures |Truncate(context)| == 50023
  {
  }

  /** The `let documentContext` built by `map`/`join` and then reassigned by the bound. */
  method AssembleContext(docs: seq<StoredDoc>) returns (documentContext: string)
    ensures documentContext == Truncate(PaperContext(docs))
  {
    documentContext := PaperContext(docs);
    if |documentContext| > MaxContextLength {
      documentContext := documentContext[..MaxContextLength] + TruncationMarker;
    }
  }

  /** The gateway's parsed JSON reply, as far as the handler reads it: `choices`, each
      choice's `message`, its `tool_calls`, and each call's `function.arguments`. */
  datatype ToolCall = ToolCall(arguments: Option<string>)
  datatype ChoiceMessage = ChoiceMessage(toolCalls: Option<seq<ToolCall>>)
  datatype Choice = Choice(message: Option<ChoiceMessage>)
  datatype AiBody = Unparseable(message: string) | AiJson(choices: Option<seq<Choice>>)

  /** `choices?.[0]?.message?.tool_calls?.[0]`. */
  function FirstToolCall(choices: Option<seq<Choice>>): (r: Option<ToolCall>)
    ensures r.Some? <==> && choices.Some? && |choices.value| > 0
                         && choices.value[0].message.Some?
                         && choices.value[0].message.value.toolCalls.Some?
                         && |choices.value[0].message.value.toolCalls.value| > 0
    ensures r.Some? ==> r.value == choices.value[0].message.value.toolCalls.value[0]
  {
    if choices.None? || |choices.value| == 0 then None
    else match choices.value[0].message
      case None => None
      case Some(m) =>
        if m.toolCalls.None? || |m.toolCalls.value| == 0 then None else Some(m.toolCalls.value[0])
  }

  /** The success envelope carries the first tool call's arguments when they are a
      non-empty string; anything else is "Failed to generate analysis". */
  function AnalysisResult(choices: Option<seq<Choice>>): (r: Response<string>)
    ensures r.Success? <==> FirstToolCall(choices).Some? && FirstToolCall(choices).value.arguments.Some?
                            && FirstToolCall(choices).value.arguments.value != ""
    ensures r.Success? ==> r.payload == FirstToolCall(choices).value.arguments.value
    ensures r.Fail? ==> r.failure == AnalysisFailed && Status(r.failure) == 500
  {
    match FirstToolCall(choices)
    case Some(ToolCall(Some(arguments))) =>
      if arguments != "" then Success(arguments) else Fail(AnalysisFailed)
    case _ => Fail(AnalysisFailed)
  }

  /** What is sent to the gateway: the fixed instructions with the bounded context embedded. */
  datatype AnalysisRequest = AnalysisRequest(documentContext: string)

  /** Everything the handler reads: the header, the verifier's answer, whether the gateway
      key is configured, the store and whether the query fails, the gateway's answer. */
  datatype PyqInputs = PyqInputs(
    authorization: Option<string>,
    claims: Claims,
    apiKeyConfigured: bool,
    store: seq<StoredDoc>,
    storeFails: bool,
    upstream: Upstream<AiBody>)

  /** The handler for a non-preflight request. */
  function HandlePyq(x: PyqInputs): (out: Outcome<AnalysisRequest, string>)
    ensures |out.calls| <= 3
    ensures out.calls == [] <==> out.response == Fail(Unauthorized)
    ensures out.calls != [] ==> out.calls[0].VerifyToken?
    ensures |out.calls| == 3 <==> out.calls != [] && out.calls[|out.calls| - 1].CallGateway?
    ensures out.response.Success? ==> |out.calls| == 3 && x.upstream.Replied? && IsOk(x.upstream.status)
  {
    match BearerToken(x.authorization)
    case Err(e) => Outcome(Fail(e), [])
    case Ok(token) =>
      var verified := [VerifyToken(token)];
      match UserId(x.claims)
      case Err(e) => Outcome(Fail(e), verified)
      case Ok(userId) =>
        if !x.apiKeyConfigured then Outcome(Fail(Thrown(ApiKeyMissingMessage)), verified)
        else
          var filter := PaperFilter(userId);
          var queried := verified + [QueryDocuments(filter)];
          if x.storeFails then Outcome(Fail(DocumentsFetchFailed), queried)
          else
            var documents := Select(x.store, filter);
            if documents == [] then Outcome(Fail(NoPyqDocuments), queried)
            else
              var request := AnalysisRequest(Truncate(PaperContext(documents)));
              var calls := queried + [CallGateway(request)];
              match x.upstream
              case FetchThrew(message) => Outcome(Fail(Thrown(message)), calls)
              case Replied(status, body) =>
                match UpstreamFailure(status)
                case Some(f) => Outcome(Fail(f), calls)
                case None =>
                  match body
                  case Unparseable(message) => Outcome(Fail(Thrown(message)), calls)
                  case AiJson(choices) => Outcome(AnalysisResult(choices), calls)
  }

  /** A missing header, or one not starting with "Bearer ", is answered 401 before any
      outside call. */
  lemma PyqRejectsMalformedHeader(x: PyqInputs)
    requires x.authorization.None? || !StartsWith(x.authorization.value, BearerPrefix)
    ensures HandlePyq(x) == Outcome(Fail(Unauthorized), [])
    ensures StatusOf(HandlePyq(x).response) == 401
  {
  }

  /** The first outside call verifies the header's token, and the one document query asks
      for the verified caller's "pyq" rows only. */
  lemma PyqScopesDocumentsToCaller(x: PyqInputs)
    ensures var out := HandlePyq(x);
            && (|out.calls| > 0 ==> x.authorization == Some(BearerPrefix + out.calls[0].token))
            && forall c :: c in out.calls && c.QueryDocuments? ==>
                 && c.filter == PaperFilter(c.filter.ownerId)
                 && c.filter.ownerId != "" && x.claims == ClaimsOk(Some(c.filter.ownerId))
  {
    var out := HandlePyq(x);
    if |out.calls| >= 2 {
      var token := BearerToken(x.authorization).value;
      var filter := PaperFilter(UserId(x.claims).value);
      if |out.calls| == 2 {
        assert out.calls == [VerifyToken(token), QueryDocuments(filter)];
      } else {
        var request := out.calls[2].request;
        assert out.calls == [VerifyToken(token), QueryDocuments(filter), CallGateway(request)];
      }
    }
  }

  /** Once the query ran: a store error is a 500, no matching paper is a 400 with the
      "No PYQ documents" message, and in both cases the gateway is not called. */
  lemma PyqDocumentsRule(x: PyqInputs)
    requires |HandlePyq(x).calls| >= 2
    ensures var out := HandlePyq(x);
            var filter := out.calls[1].filter;
            && out.calls[1].QueryDocuments?
            && (x.storeFails ==> out == Outcome(Fail(DocumentsFetchFailed), out.calls) && |out.calls| == 2)
            && (!x.storeFails && Select(x.store, filter) == [] ==>
                  out.response == Fail(NoPyqDocuments) && StatusOf(out.response) == 400 && |out.calls| == 2)
  {
  }

  /** The gateway receives the bounded context of the caller's papers: at most 50 023
      characters, and exactly the assembled context when that is within 50 000. */
  lemma PyqGatewayContext(x: PyqInputs)
    requires |HandlePyq(x).calls| == 3
    ensures var out := HandlePyq(x);
            var documents := Select(x.store, out.calls[1].filter);
            var context := out.calls[2].request.documentContext;
            && out.calls[2].CallGateway?
            && documents != []
            && (forall d :: d in documents ==> d.category == PyqCategory && x.claims == ClaimsOk(Some(d.ownerId)))
            && context == Truncate(PaperContext(documents))
            && |context| <= MaxContextLength + |TruncationMarker|
  {
    var out := HandlePyq(x);
    assert BearerToken(x.authorization).Ok? && UserId(x.claims).Ok?;
    var userId := UserId(x.claims).value;
    assert x.apiKeyConfigured && !x.storeFails;
    var filter := PaperFilter(userId);
    var documents := Select(x.store, filter);
    assert documents != [];
    assert out.calls[1] == QueryDocuments(filter);
    assert out.calls[2] == CallGateway(AnalysisRequest(Truncate(PaperContext(documents))));
    forall d | d in documents
      ensures d.category == PyqCategory && x.claims == ClaimsOk(Some(d.ownerId))
    {
      assert Matches(filter, d);
    }
  }

  /** After the gateway answers: 429 and 402 pass through, other failures are 500; an OK
      reply succeeds exactly when its first tool call carries non-empty arguments. */
  lemma PyqUpstreamOutcome(x: PyqInputs)
    requires |HandlePyq(x).calls| == 3 && x.upstream.Replied?
    ensures var out := HandlePyq(x);
            var status := x.upstream.status;
            && (!IsOk(status) ==> StatusOf(out.response) == (if status == 429 || status == 402 then status else 500))
            && (IsOk(status) && x.upstream.body.AiJson? ==> out.response == AnalysisResult(x.upstream.body.choices))
  {
  }
}
