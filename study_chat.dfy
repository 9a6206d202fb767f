/** The chat edge function (`study-chat`): check the bearer header and the claims,
    validate and sanitise the message list, normalise the category, read the caller's
    documents, build the document context and the category's system prompt, and relay
    the gateway's event stream or map its failure status. */
module StudyChat {
  import opened Wrappers
  import opened Text
  import opened EdgeCommon

  const MaxMessages: nat := 50
  const MaxMessageLength: nat := 10000

  datatype Role = User | Assistant

  function RoleName(r: Role): string {
    match r
    case User => "user"
    case Assistant => "assistant"
  }

  /** A message as it arrives in the request body: its `role` and `content` when they are
      strings, absent otherwise. */
  datatype RawMessage = RawMessage(role: Option<string>, content: Option<string>)

  /** A sanitised message: a known role and the content cut to the length limit. */
  datatype Turn = Turn(role: Role, content: string)

  const InvalidRoleMessage: string := "Invalid message role"
  const ContentNotStringMessage: string := "Message content must be a string"

  function ParseRole(role: Option<string>): (r: Option<Role>)
    ensures r.Some? <==> role == Some("user") || role == Some("assistant")
    ensures r.Some? ==> role == Some(RoleName(r.value))
  {
    if role == Some("user") then Some(User)
    else if role == Some("assistant") then Some(Assistant)
    else None
  }

  /** The sanitising callback of `messages.map`: keep role and content, cut the content;
      throw on an unknown role, then on content that is not a string. */
  function SanitizeOne(m: RawMessage): (r: Result<Turn, Failure>)
    ensures r.Ok? <==> ParseRole(m.role).Some? && m.content.Some?
    ensures r.Ok? ==> RoleName(r.value.role) == m.role.value
    ensures r.Ok? ==> r.value.content == Take(m.content.value, MaxMessageLength)
    ensures r.Err? ==> r.error == Thrown(if ParseRole(m.role).None? then InvalidRoleMessage else ContentNotStringMessage)
  {
    match ParseRole(m.role)
    case None => Err(Thrown(InvalidRoleMessage))
    case Some(role) =>
      if m.content.None? then Err(Thrown(ContentNotStringMessage))
      else Ok(Turn(role, Take(m.content.value, MaxMessageLength)))
  }

  /** `messages.map(...)`: every message sanitised, in order, or the exception of the
      first message that cannot be. */
  function Sanitize(items: seq<RawMessage>): (r: Result<seq<Turn>, Failure>)
    ensures r.Ok? <==> forall i :: 0 <= i < |items| ==> SanitizeOne(items[i]).Ok?
    ensures r.Ok? ==> |r.value| == |items|
    ensures r.Ok? ==> forall i :: 0 <= i < |items| ==> SanitizeOne(items[i]) == Ok(r.value[i])
    ensures r.Err? ==> exists i :: 0 <= i < |items| && SanitizeOne(items[i]) == Err(r.error)
                                   && forall j :: 0 <= j < i ==> SanitizeOne(items[j]).Ok?
  {
    if items == [] then Ok([])
    else
      match SanitizeOne(items[0])
      case Err(e) => Err(e)
      case Ok(t) =>
        match Sanitize(items[1..])
        case Err(e) =>
          ghost var i :| 0 <= i < |items[1..]| && SanitizeOne(items[1..][i]) == Err(e)
                         && forall j :: 0 <= j < i ==> SanitizeOne(items[1..][j]).Ok?;
          FirstFailureShifts(items, i, e);
          Err(e)
        case Ok(ts) =>
          AllSanitizedCons(items, t, ts);
          Ok([t] + ts)
  }

  /** A first failure at index `i` of the tail is a first failure at `i + 1` of the list
      when the head is sanitised. */
  lemma FirstFailureShifts(items: seq<RawMessage>, i: nat, e: Failure)
    requires items != [] && SanitizeOne(items[0]).Ok?
    requires i < |items| - 1 && SanitizeOne(items[1..][i]) == Err(e)
    requires forall j :: 0 <= j < i ==> SanitizeOne(items[1..][j]).Ok?
    ensures SanitizeOne(items[i + 1]) == Err(e)
    ensures forall j :: 0 <= j < i + 1 ==> SanitizeOne(items[j]).Ok?
  {
    forall j | 0 < j < i + 1
      ensures SanitizeOne(items[j]).Ok?
    {
      assert items[j] == items[1..][j - 1];
    }
  }

  /** A sanitised head followed by a sanitised tail is the sanitised list. */
  lemma AllSanitizedCons(items: seq<RawMessage>, t: Turn, ts: seq<Turn>)
    requires items != [] && SanitizeOne(items[0]) == Ok(t) && |ts| == |items| - 1
    requires forall i :: 0 <= i < |ts| ==> SanitizeOne(items[1..][i]) == Ok(ts[i])
    ensures forall i :: 0 <= i < |items| ==> SanitizeOne(items[i]) == Ok(([t] + ts)[i])
  {
    forall i | 0 < i < |items|
      ensures SanitizeOne(items[i]) == Ok(([t] + ts)[i])
    {
      assert items[i] == items[1..][i - 1];
    }
  }

  /** The body's `messages` field checked: an array, at most 50 entries, each sanitised. */
  function ValidateMessages(messages: Option<seq<RawMessage>>): (r: Result<seq<Turn>, Failure>)
    ensures messages.None? ==> r == Err(MessagesRequired)
    ensures messages.Some? && |messages.value| > MaxMessages ==> r == Err(TooManyMessages(MaxMessages))
    ensures messages.Some? && |messages.value| <= MaxMessages ==> r == Sanitize(messages.value)
  {
    if messages.None? then Err(MessagesRequired)
    else if |messages.value| > MaxMessages then Err(TooManyMessages(MaxMessages))
    else Sanitize(messages.value)
  }

  /** What reaches the gateway is bounded: at most 50 turns, each at most 10 000 characters,
      each the start of the content it came from, in the order received. */
  lemma ValidatedMessagesBounded(messages: Option<seq<RawMessage>>)
    requires ValidateMessages(messages).Ok?
    ensures var turns := ValidateMessages(messages).value;
            && messages.Some? && |turns| == |messages.value| <= MaxMessages
            && forall i :: 0 <= i < |turns| ==>
                 && |turns[i].content| <= MaxMessageLength
                 && Some(RoleName(turns[i].role)) == messages.value[i].role
                 && StartsWith(messages.value[i].content.value, turns[i].content)
  {
    var turns := ValidateMessages(messages).value;
    forall i | 0 <= i < |turns|
      ensures && |turns[i].content| <= MaxMessageLength
              && Some(RoleName(turns[i].role)) == messages.value[i].role
              && StartsWith(messages.value[i].content.value, turns[i].content)
    {
      assert SanitizeOne(messages.value[i]) == Ok(turns[i]);
    }
  }

  /** A message with a bad role makes the whole list fail with a thrown error (status 500),
      not with a 400, and the message is not dropped. */
  lemma InvalidRoleFailsWhole(items: seq<RawMessage>, k: nat)
    requires k < |items| && ParseRole(items[k].role).None?
    ensures Sanitize(items).Err? && Sanitize(items).error.Thrown?
    ensures Status(Sanitize(items).error) == 500
  {
    assert SanitizeOne(items[k]).Err?;
    var r := Sanitize(items);
    var i :| 0 <= i < |items| && SanitizeOne(items[i]) == Err(r.error);
    assert r.error.Thrown?;
  }

  datatype Category = Research | Notes | Pyq | General

  function Tag(c: Category): string {
    match c
    case Research => "research"
    case Notes => "notes"
    case Pyq => "pyq"
    case General => "general"
  }

  /** `ALLOWED_CATEGORIES.includes(category) ? category : "general"`: an exact tag is kept,
      anything else (absent, not a string, unknown) becomes general. */
  function NormalizeCategory(input: Option<string>): (c: Category)
    ensures forall k :: input == Some(Tag(k)) ==> c == k
    ensures c != General ==> input == Some(Tag(c))
  {
    if input == Some("research") then Research
    else if input == Some("notes") then Notes
    else if input == Some("pyq") then Pyq
    else General
  }

  /** Normalising the tag of a normalised category gives the same category. */
  lemma NormalizeCategoryIdempotent(input: Option<string>)
    ensures NormalizeCategory(Some(Tag(NormalizeCategory(input)))) == NormalizeCategory(input)
  {
  }

  /** The document query: always the caller's rows; restricted to the category unless it is general. */
  function FilterFor(userId: string, c: Category): (f: DocumentFilter)
    ensures f.ownerId == userId
    ensures f.category.Some? <==> c != General
    ensures f.category.Some? ==> f.category.value == Tag(c)
  {
    var query := DocumentFilter(userId, None);
    if c != General then query.(category := Some(Tag(c))) else query
  }

  const ContextStart: string := "\n\n---UPLOADED DOCUMENTS---\n"
  const ContextEnd: string := "\n---END OF DOCUMENTS---\n"
  const NoTextPlaceholder: string := "[No text extracted yet]"

  /** `doc.extracted_text || "[No text extracted yet]"`: an empty text counts as missing. */
  function DocBody(d: StoredDoc): (body: string)
    ensures body != []
    ensures d.extractedText.Some? && d.extractedText.value != [] ==> body == d.extractedText.value
    ensures d.extractedText.None? || d.extractedText.value == [] ==> body == NoTextPlaceholder
  {
    if d.extractedText.Some? && d.extractedText.value != "" then d.extractedText.value else NoTextPlaceholder
  }

  function BlockHeader(number: nat, d: StoredDoc): string {
    "\n[Document " + NatToString(number) + ": " + d.filename + "]\n"
  }

  /** What one document adds to the context: its numbered header line, then its whole text. */
  function Block(number: nat, d: StoredDoc): string {
    BlockHeader(number, d) + DocBody(d) + "\n"
  }

  /** The blocks of `docs`, the first of them numbered `first`. */
  function Blocks(docs: seq<StoredDoc>, first: nat): string {
    Numbered(docs, first, Block)
  }

  /** The document context: empty without documents, else the blocks between the two markers. */
  function DocumentContext(docs: seq<StoredDoc>): (ctx: string)
    ensures ctx == [] <==> docs == []
  {
    if docs == [] then "" else ContextStart + Blocks(docs, 1) + ContextEnd
  }

  /** Document `i` appears whole, as block number `i + 1`, after the blocks of the documents
      before it and before those after it: nothing is cut and the order is the input order. */
  lemma ContextLayout(docs: seq<StoredDoc>, i: nat)
    requires i < |docs|
    ensures DocumentContext(docs)
            == ContextStart + Blocks(docs[..i], 1) + Block(i + 1, docs[i]) + Blocks(docs[i + 1..], i + 2) + ContextEnd
  {
    FramedSplit(ContextStart, docs, ContextEnd, i, 1, Block);
  }

  /** The `forEach` loop that appends one block per document. */
  method BuildDocumentContext(docs: seq<StoredDoc>) returns (documentContext: string)
    ensures documentContext == DocumentContext(docs)
  {
    documentContext := "";
    if |docs| > 0 {
      documentContext := ContextStart;
      var index := 0;
      while index < |docs|
        invariant 0 <= index <= |docs|
        invariant documentContext == ContextStart + Blocks(docs[..index], 1)
      {
        var doc := docs[index];
        ghost var before := documentContext;
        var header := "\n[Document " + NatToString(index + 1) + ": " + doc.filename + "]\n";
        documentContext := documentContext + header;
        documentContext := documentContext + DocBody(doc);
        documentContext := documentContext + "\n";
        BlockAppended(before, header, index + 1, doc);
        PrefixedStep(ContextStart, docs, index, 1, Block);
        index := index + 1;
      }
      assert docs[..index] == docs;
      documentContext := documentContext + ContextEnd;
    }
  }

  lemma BlockAppended(before: string, header: string, number: nat, doc: StoredDoc)
    requires header == BlockHeader(number, doc)
    ensures before + header + DocBody(doc) + "\n" == before + Block(number, doc)
  {
  }

  /** The four fixed instruction texts, by the role they give the model. */
  datatype Preamble = ResearchAnalyst | ExamPreparation | PyqAnalyst | StudyAssistant

  /** The system prompt: one instruction text with the document context embedded in it. */
  datatype SystemPrompt = SystemPrompt(preamble: Preamble, documentContext: string)

  function PreambleFor(c: Category): (p: Preamble)
    ensures p == StudyAssistant <==> c == General
  {
    match c
    case Research => ResearchAnalyst
    case Notes => ExamPreparation
    case Pyq => PyqAnalyst
    case General => StudyAssistant
  }

  /** Each category has its own instruction text, and the general one is the fallback. */
  lemma PreambleSelection(c1: Category, c2: Category)
    ensures PreambleFor(c1) == PreambleFor(c2) ==> c1 == c2
    ensures PreambleFor(c1) == StudyAssistant <==> c1 == General
  {
  }

  /** An unrecognised category gets the general instructions and an owner-only query. */
  lemma UnknownCategoryFallsBack(input: Option<string>, userId: string)
    requires forall k :: input != Some(Tag(k))
    ensures PreambleFor(NormalizeCategory(input)) == StudyAssistant
    ensures FilterFor(userId, NormalizeCategory(input)) == DocumentFilter(userId, None)
  {
  }

  /** The request body: unreadable (the JSON parse or the destructuring threw), or its two fields. */
  datatype ChatBody = Unreadable(message: string) | ChatBody(messages: Option<seq<RawMessage>>, category: Option<string>)

  /** The gateway's event stream, relayed verbatim. */
  datatype StreamBody = StreamBody(chunks: seq<string>)

  /** What is sent to the gateway: the system prompt followed by the sanitised turns. */
  datatype ChatRequest = ChatRequest(system: SystemPrompt, turns: seq<Turn>)

  /** Everything the handler reads: the header, the verifier's answer, the body, whether the
      gateway key is configured, the store and whether the query fails, the gateway's answer. */
  datatype ChatInputs = ChatInputs(
    authorization: Option<string>,
    claims: Claims,
    body: ChatBody,
    apiKeyConfigured: bool,
    store: seq<StoredDoc>,
    storeFails: bool,
    upstream: Upstream<StreamBody>)

  /** The handler for a non-preflight request. A failing document query is only logged:
      the context is then empty. */
  function HandleChat(x: ChatInputs): (out: Outcome<ChatRequest, StreamBody>)
    ensures |out.calls| <= 3
    ensures out.calls == [] <==> out.response == Fail(Unauthorized)
    ensures out.calls != [] ==> out.calls[0].VerifyToken?
    ensures |out.calls| == 3 <==> out.calls != [] && out.calls[|out.calls| - 1].CallGateway?
    ensures out.response.Success? ==> && |out.calls| == 3 && x.upstream.Replied? && IsOk(x.upstream.status)
                                      && out.response.payload == x.upstream.body
  {
    match BearerToken(x.authorization)
    case Err(e) => Outcome(Fail(e), [])
    case Ok(token) =>
      var verified := [VerifyToken(token)];
      match UserId(x.claims)
      case Err(e) => Outcome(Fail(e), verified)
      case Ok(userId) =>
        match x.body
        case Unreadable(message) => Outcome(Fail(Thrown(message)), verified)
        case ChatBody(messages, categoryInput) =>
          match ValidateMessages(messages)
          case Err(e) => Outcome(Fail(e), verified)
          case Ok(turns) =>
            var category := NormalizeCategory(categoryInput);
            if !x.apiKeyConfigured then Outcome(Fail(Thrown(ApiKeyMissingMessage)), verified)
            else
              var filter := FilterFor(userId, category);
              var documents := if x.storeFails then [] else Select(x.store, filter);
              var request := ChatRequest(SystemPrompt(PreambleFor(category), DocumentContext(documents)), turns);
              var calls := verified + [QueryDocuments(filter), CallGateway(request)];
              match x.upstream
              case FetchThrew(message) => Outcome(Fail(Thrown(message)), calls)
              case Replied(status, body) =>
                match UpstreamFailure(status)
                case Some(f) => Outcome(Fail(f), calls)
                case None => Outcome(Success(body), calls)
  }

  /** A missing header, or one not starting with "Bearer ", is answered 401 before any
      outside call: neither the verifier nor the store nor the gateway is reached. */
  lemma ChatRejectsMalformedHeader(x: ChatInputs)
    requires x.authorization.None? || !StartsWith(x.authorization.value, BearerPrefix)
    ensures HandleChat(x) == Outcome(Fail(Unauthorized), [])
    ensures StatusOf(HandleChat(x).response) == 401
  {
  }

  /** The first outside call verifies the header's token; every document query is filtered
      by the verified `sub`, never by anything from the body. */
  lemma ChatScopesDocumentsToCaller(x: ChatInputs)
    ensures var out := HandleChat(x);
            && (|out.calls| > 0 ==> x.authorization == Some(BearerPrefix + out.calls[0].token))
            && forall c :: c in out.calls && c.QueryDocuments? ==>
                 c.filter.ownerId != "" && x.claims == ClaimsOk(Some(c.filter.ownerId))
  {
    var out := HandleChat(x);
    if BearerToken(x.authorization).Ok? && UserId(x.claims).Ok? && x.body.ChatBody? {
      var userId := UserId(x.claims).value;
      var filter := FilterFor(userId, NormalizeCategory(x.body.category));
      assert forall c :: c in out.calls && c.QueryDocuments? ==> c == QueryDocuments(filter);
    }
  }

  /** The gateway is called at most once, after the query, with bounded turns and with the
      context of exactly the caller's matching documents, under the category's instructions. */
  lemma ChatGatewayRequest(x: ChatInputs)
    requires |HandleChat(x).calls| > 1
    ensures var out := HandleChat(x);
            && |out.calls| == 3 && out.calls[1].QueryDocuments? && out.calls[2].CallGateway?
            && x.body.ChatBody?
            && var category := NormalizeCategory(x.body.category);
               var filter := out.calls[1].filter;
               var request := out.calls[2].request;
               && filter.category == FilterFor(filter.ownerId, category).category
               && request.system.preamble == PreambleFor(category)
               && request.system.documentContext
                  == DocumentContext(if x.storeFails then [] else Select(x.store, filter))
               && |request.turns| <= MaxMessages
               && forall t :: t in request.turns ==> |t.content| <= MaxMessageLength
  {
    var out := HandleChat(x);
    assert BearerToken(x.authorization).Ok? && UserId(x.claims).Ok?;
    assert x.body.ChatBody? && ValidateMessages(x.body.messages).Ok? && x.apiKeyConfigured;
    var category := NormalizeCategory(x.body.category);
    var filter := FilterFor(UserId(x.claims).value, category);
    var turns := ValidateMessages(x.body.messages).value;
    var documents := if x.storeFails then [] else Select(x.store, filter);
    var request := ChatRequest(SystemPrompt(PreambleFor(category), DocumentContext(documents)), turns);
    assert out.calls == [VerifyToken(BearerToken(x.authorization).value), QueryDocuments(filter), CallGateway(request)];
    ValidatedMessagesBounded(x.body.messages);
    forall t | t in turns
      ensures |t.content| <= MaxMessageLength
    {
      var i :| 0 <= i < |turns| && turns[i] == t;
    }
  }

  /** After the gateway answers: an OK status relays its stream; 429 and 402 pass through;
      any other status is reported as 500. */
  lemma ChatUpstreamStatus(x: ChatInputs)
    requires |HandleChat(x).calls| == 3 && x.upstream.Replied?
    ensures var out := HandleChat(x);
            var status := x.upstream.status;
            && (IsOk(status) ==> out.response == Success(x.upstream.body))
            && (!IsOk(status) ==> StatusOf(out.response) == (if status == 429 || status == 402 then status else 500))
  {
  }

  /** A message with a bad role in an otherwise well-formed request gives 500, and the
      handler stops before the store and the gateway. */
  lemma ChatInvalidRoleIs500(x: ChatInputs, k: nat)
    requires BearerToken(x.authorization).Ok? && UserId(x.claims).Ok?
    requires x.body.ChatBody? && x.body.messages.Some? && |x.body.messages.value| <= MaxMessages
    requires k < |x.body.messages.value| && ParseRole(x.body.messages.value[k].role).None?
    ensures StatusOf(HandleChat(x).response) == 500
    ensures |HandleChat(x).calls| == 1
  {
    InvalidRoleFailsWhole(x.body.messages.value, k);
  }
}
