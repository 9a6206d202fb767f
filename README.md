# Study assistant: verified model of the session state and the edge-function pipelines

This project models the logic of a student study assistant in Dafny and proves what
that logic promises. The application lets students upload documents and then chat
about them, study with flashcards and quizzes, and analyse previous-year question
papers ("PYQs") through a hosted language-model gateway. Five pieces of logic are
modelled:

- **Quiz session** (`quiz.dfy`, module `QuizSession`). The state is the current question,
  the selected option, the short-answer buffer, whether the result is shown, the score and
  the answer history. `checkAnswer` grades by exact equality after lower-casing and
  trimming both sides, then counts and records the answer. `nextQuestion` and `resetQuiz`
  change the state as the view does. An option can be chosen only when the question is an
  MCQ with an options list that contains it. The text field exists only for the other
  questions. The class keeps `score` equal to the number of correct
  records. Through the rendered buttons it also keeps one history record per question
  answered so far.
- **Flashcard navigator** (`flashcards.dfy`, module `FlashcardDeck`). Previous and next move
  through the deck with wrap-around, flip turns the card, and a dot click jumps to a card.
  The index update functions are proved equal to arithmetic modulo the deck size, proved
  to undo each other, and proved to go round the deck in `n` steps.
- **Chat window** (`chat_interface.dfy`, module `ChatInterface`). An append-only message
  list. Submitting is split at the awaited reply. `Submit` appends the trimmed user turn,
  clears the input and marks the window busy. `Finish` appends the reply, if there is one,
  and clears the busy flag. The Enter key without Shift submits.
- **Chat edge function** (`study_chat.dfy`, module `StudyChat`). It checks the bearer header
  and the verified claims. It validates the message list (at most 50 entries) and
  sanitises each message (role `user`/`assistant`, content cut to 10 000 characters).
  It normalises the category, queries the caller's documents, and assembles the document
  context by a loop. It picks one of four instruction texts and maps a failed gateway status.
- **PYQ analysis edge function** (`analyze_pyq.dfy`, module `AnalyzePyq`). It does the same
  authentication. It queries the caller's `pyq` documents (none is a 400). Each paper is cut
  to 20 000 characters and the papers are joined with a blank line. The whole context is
  bounded at 50 000 characters plus a marker. The result comes from the first tool call of
  the gateway's reply.

`text.dfy` (module `Text`) holds the JavaScript string operations the code relies on.
These are `toLowerCase`, `trim`, `substring(0, n)`, `startsWith`, `replace` with a string
pattern, `join`, and decimal rendering. Lemmas state idempotence, the blank test and
prefix removal. `edge_common.dfy` (module `EdgeCommon`) holds what both handlers share:
the failure taxonomy with its HTTP statuses, the bearer-token and claims steps, the
document store with its equality filters, and the gateway-status mapping. `wrappers.dfy`
defines `Option` and `Result`.

Each handler is a function of everything it reads from outside: the header, the
verifier's answer, the body, whether the gateway key is set, the document store and
whether the query fails, and the gateway's answer. It returns the response together
with the ordered list of outside calls it made. "401 before any store access" is then
the statement that the list of calls is empty.

In these places the code does something easy to misread; the model follows the code:

- The chat handler never truncates its document context.
- The PYQ context can be 50 023 characters long. The 23-character marker
  `"\n[Content truncated...]"` is appended after the cut to 50 000
  (`AnalyzePyq.TruncatedLengthExceedsCeiling`).
- An invalid message role throws inside `map`. The `catch` block answers 500, not 400.
- An empty `extracted_text`, an empty `sub` claim and empty tool-call arguments count as
  missing, because the code tests them for truthiness.
- An MCQ option that is the empty string cannot be checked, for the same reason.

## Model

| member | source | states |
|---|---|---|
| `Text.TrimEmptyIffBlank` | src/components/chat/ChatInterface.tsx:42 | `trim` gives the empty string exactly when every character is white space: this is the "blank" test of the submit guard |
| `Text.TrimIdempotent` | src/components/chat/ChatInterface.tsx:47 | trimming a trimmed string changes nothing |
| `Text.LowerCommutesWithTrim` | src/components/quiz/Quiz.tsx:35-37 | lower-casing then trimming equals trimming then lower-casing |
| `Text.NormalizeIdempotent` | src/components/quiz/Quiz.tsx:35-37 | the answer normalisation (lower-case, then trim) is idempotent |
| `Text.ToLowerIdempotent` | src/components/quiz/Quiz.tsx:36 | lower-casing twice is lower-casing once |
| `Text.ReplacePrefixWithEmpty` | supabase/functions/study-chat/index.ts:36 | for a header that starts with the prefix, `replace(prefix, "")` leaves exactly the rest of the header |
| `QuizSession.GivenAnswer` | src/components/quiz/Quiz.tsx:34 | the graded answer is the selection for an MCQ question and the text buffer otherwise |
| `QuizSession.IsCorrect` | src/components/quiz/Quiz.tsx:35-37 | correct iff an answer is present and equals the correct answer once both are trimmed and lower-cased; a missing selection never matches; the correct answer itself always matches |
| `QuizSession.GradingIsNormalized` | src/components/quiz/Quiz.tsx:35-37 | grading is symmetric and unaffected by normalising the given answer first |
| `QuizSession.GradingIgnoresCase` | src/components/quiz/Quiz.tsx:35-37 | "paris" is accepted for "Paris" |
| `QuizSession.GradingIgnoresOuterSpace` | src/components/quiz/Quiz.tsx:35-37 | " 42 " is accepted for "42" |
| `QuizSession.Graded` | src/components/quiz/Quiz.tsx:34-43 | the recorded answer is the typed text for a short question and the selection (or "" when there is none) for an MCQ; the grade is true iff that answer, trimmed and lower-cased, equals the correct answer trimmed and lower-cased, so an MCQ with nothing selected is wrong |
| `QuizSession.NoSelectionIsWrong` | src/components/quiz/Quiz.tsx:34-43 | with no option selected, the multiple-choice answer is graded wrong and recorded as "" |
| `QuizSession.CountCorrect` | src/components/quiz/Quiz.tsx:76-88 | the number of correct records never exceeds the number of records |
| `QuizSession.CountCorrectSnoc` | src/components/quiz/Quiz.tsx:39-44 | appending a record raises the correct count by one exactly when the record is correct |
| `QuizSession.CheckEnabled` | src/components/quiz/Quiz.tsx:195-199 | "Check Answer" is enabled iff an MCQ question has a non-empty selection, or a short question has a non-blank answer |
| `QuizSession.Session.constructor` | src/components/quiz/Quiz.tsx:23-28 | the session starts at question 0 with nothing selected, typed, shown, scored or recorded; it starts completed iff there are no questions |
| `QuizSession.Session.CheckAnswer` | src/components/quiz/Quiz.tsx:33-46 | returns and appends exactly the `Graded` record of the current question, keeps earlier records, adds 1 to the score iff that record is correct, reveals the result, and leaves the index, the selection and the buffer as they were |
| `QuizSession.Session.NextQuestion` | src/components/quiz/Quiz.tsx:48-53 | index up by exactly one; selection, buffer and reveal flag cleared; score and history unchanged |
| `QuizSession.Session.ResetQuiz` | src/components/quiz/Quiz.tsx:55-62 | from any state: index 0, score 0, empty history, cleared buffers |
| `QuizSession.Session.ChooseOption` | src/components/quiz/Quiz.tsx:124-134 | a click selects the option exactly when an unrevealed MCQ question with an options list is shown and the option is in that list; otherwise nothing changes; nothing but the selection ever changes |
| `QuizSession.Session.TypeShortAnswer` | src/components/quiz/Quiz.tsx:164-177 | typing replaces the buffer exactly when the text field is rendered and enabled: an unrevealed question that is not an MCQ with options; otherwise nothing changes |
| `QuizSession.MissingOptionsBlocksCheck` | src/components/quiz/Quiz.tsx:124-199 | on an MCQ question without an options list no option is rendered, so nothing is selected; the text field is shown, but typing in it does not enable "Check Answer", which stays disabled |
| `QuizSession.Session.ClickCheck` | src/components/quiz/Quiz.tsx:191-202 | the check button fires iff an unrevealed, in-range question has an answer that enables it; then the result is shown, the `Graded` record is appended and the score is the correct count; otherwise reveal flag, score and history are unchanged; index, selection and buffer never change |
| `QuizSession.Session.ClickNext` | src/components/quiz/Quiz.tsx:203-207 | the next button fires iff a result is shown on an in-range question; then the index goes up by one and selection, buffer and reveal flag are cleared; otherwise nothing changes; score and history never change |
| `QuizSession.CompletedSummary` | src/components/quiz/Quiz.tsx:64-78 | in the completed view reached through the buttons, there is one record per question and the score is the correct count, at most the number of questions |
| `FlashcardDeck.PrevIndex` | src/components/quiz/Flashcards.tsx:27 | previous wraps 0 to the last card and stays in range; equal to `(i + n - 1) % n` |
| `FlashcardDeck.NextIndex` | src/components/quiz/Flashcards.tsx:32 | next wraps the last card to 0 and stays in range; equal to `(i + 1) % n` |
| `FlashcardDeck.PrevNextRoundTrip` | src/components/quiz/Flashcards.tsx:25-33 | next then previous, and previous then next, return to the same card |
| `FlashcardDeck.NextTimesIsRotation` | src/components/quiz/Flashcards.tsx:30-33 | `k` presses of next advance the index by `k` modulo the deck size |
| `FlashcardDeck.FullRoundReturns` | src/components/quiz/Flashcards.tsx:30-33 | `n` presses of next on an `n`-card deck return to the starting card |
| `FlashcardDeck.Deck.constructor` | src/components/quiz/Flashcards.tsx:20-21 | the navigator starts at card 0, question side up |
| `FlashcardDeck.Deck.Shown` | src/components/quiz/Flashcards.tsx:85 | the visible text is one of the two faces of the current card; which one is stated by `Flip`, `Previous`, `Next`, `JumpTo` and the constructor |
| `FlashcardDeck.Deck.Previous` | src/components/quiz/Flashcards.tsx:25-28 | on a non-empty deck, moves to `PrevIndex` of the card (wrap-around) and unflips, so the new card's question is shown |
| `FlashcardDeck.Deck.Next` | src/components/quiz/Flashcards.tsx:30-33 | on a non-empty deck, moves to `NextIndex` of the card (wrap-around) and unflips, so the new card's question is shown |
| `FlashcardDeck.Deck.Flip` | src/components/quiz/Flashcards.tsx:35-37 | toggles the face and keeps the index: the answer is shown after flipping a question, the question after flipping an answer, so two flips restore the face |
| `FlashcardDeck.Deck.JumpTo` | src/components/quiz/Flashcards.tsx:116-122 | a dot click sets the index to that dot's card, always in range, and unflips, so that card's question is shown |
| `ChatInterface.ShiftEnterDoesNotSubmit` | src/components/chat/ChatInterface.tsx:76-81 | Enter alone submits and Shift+Enter does not (`SubmitsOnKey`) |
| `ChatInterface.Outcome` | src/components/chat/ChatInterface.tsx:57-59 | the reply is the handler's result when a handler is given, and the fixed demo text otherwise |
| `Text.TrimmedResult` | src/components/chat/ChatInterface.tsx:47 | the result of `trim` has no white space at either end |
| `ChatInterface.Accepted` | src/components/chat/ChatInterface.tsx:42-47 | a submission is accepted iff no reply is pending and the input is not blank; the sent content is the trimmed input, non-empty and itself trimmed |
| `ChatInterface.ChatWindow.constructor` | src/components/chat/ChatInterface.tsx:26-28 | the window starts with no messages, empty input, not loading |
| `ChatInterface.ChatWindow.Edit` | src/components/chat/ChatInterface.tsx:161 | typing replaces the input, also while a reply is pending, and touches nothing else |
| `ChatInterface.ChatWindow.Submit` | src/components/chat/ChatInterface.tsx:40-53 | blank input or a pending reply changes nothing; otherwise exactly one user turn with the trimmed input is appended, the input is cleared and loading is set |
| `ChatInterface.ChatWindow.Finish` | src/components/chat/ChatInterface.tsx:55-73 | a reply (the handler's, or the demo text without a handler) appends exactly one assistant turn after the existing ones; a thrown handler appends nothing; loading is cleared in both cases |
| `ChatInterface.ChatWindow.KeyDown` | src/components/chat/ChatInterface.tsx:76-81 | Enter without Shift submits, with the result of `Accepted`: when it sends, one user turn with the sent text is appended, the input is cleared and loading is set; any other key, Shift+Enter or a refused submission changes nothing |
| `EdgeCommon.BearerToken` | supabase/functions/study-chat/index.ts:20-36 | a token exists iff the header is present and starts with "Bearer ", the header is then "Bearer " followed by the token; otherwise Unauthorized |
| `EdgeCommon.UserId` | supabase/functions/study-chat/index.ts:39-52 | succeeds iff the claims were returned and hold a non-empty `sub`, which is the result; a verifier error or missing claims is the "Invalid token" failure and present claims without a usable `sub` the "User ID not found in token" failure; both are 401 |
| `EdgeCommon.Select` | supabase/functions/study-chat/index.ts:99-108 | a query returns only stored rows its equality filters match, and every matching row, never more rows than are stored |
| `EdgeCommon.SelectCounts` | supabase/functions/study-chat/index.ts:99-108 | each matching row is returned as many times as it is stored and a non-matching row never |
| `EdgeCommon.SelectSnoc` | supabase/functions/study-chat/index.ts:99-108 | a row added at the end of the store is returned at the end of the result iff it matches, and the earlier rows' result is unchanged (store order is kept) |
| `EdgeCommon.UpstreamFailure` | supabase/functions/study-chat/index.ts:206-225 | a gateway status outside 200-299 fails; 429 and 402 keep their status, every other one becomes 500 |
| `EdgeCommon.Status` | supabase/functions/analyze-pyq/index.ts:16-81 | 401 exactly for the three authentication failures, 400 exactly for the bad message list and the missing papers |
| `StudyChat.ParseRole` | supabase/functions/study-chat/index.ts:74 | only the exact strings "user" and "assistant" are roles |
| `StudyChat.SanitizeOne` | supabase/functions/study-chat/index.ts:73-82 | a message keeps its role and the first min(length, 10 000) characters of its content; a bad role throws "Invalid message role", then non-string content throws "Message content must be a string" |
| `StudyChat.Sanitize` | supabase/functions/study-chat/index.ts:73-82 | succeeds iff every message is valid, then keeps count and order with each message sanitised; otherwise fails with the error of the first invalid message |
| `StudyChat.ValidateMessages` | supabase/functions/study-chat/index.ts:58-82 | a missing or non-array list is 400 "Messages array is required", more than 50 is 400 "Maximum 50 messages allowed", otherwise the list is sanitised |
| `StudyChat.ValidatedMessagesBounded` | supabase/functions/study-chat/index.ts:58-82 | accepted turns number at most 50, keep the order and roles, and each is a prefix of its content of at most 10 000 characters |
| `StudyChat.InvalidRoleFailsWhole` | supabase/functions/study-chat/index.ts:74-79 | one message with a bad role makes the whole list fail with a thrown error of status 500 |
| `StudyChat.NormalizeCategory` | supabase/functions/study-chat/index.ts:85 | an exact allowed tag is kept; anything else (absent, unknown) becomes general |
| `StudyChat.NormalizeCategoryIdempotent` | supabase/functions/study-chat/index.ts:85 | normalising a normalised category's tag gives the same category |
| `StudyChat.FilterFor` | supabase/functions/study-chat/index.ts:99-106 | the query always filters by the caller's id and adds a category filter iff the category is not general |
| `StudyChat.DocBody` | supabase/functions/study-chat/index.ts:120 | a document with non-empty text contributes exactly that text; a missing or empty text contributes the "[No text extracted yet]" placeholder; never the empty string |
| `StudyChat.DocumentContext` | supabase/functions/study-chat/index.ts:115-124 | the context is empty exactly when there are no documents |
| `StudyChat.ContextLayout` | supabase/functions/study-chat/index.ts:115-124 | document `i` appears whole as block `i + 1`, after the blocks before it and before those after it, between the start and end markers |
| `StudyChat.BuildDocumentContext` | supabase/functions/study-chat/index.ts:115-124 | the `forEach` loop that appends header, text and newline per document builds exactly the document context |
| `StudyChat.PreambleFor` | supabase/functions/study-chat/index.ts:127-187 | the general instruction text is chosen exactly for the general category |
| `StudyChat.PreambleSelection` | supabase/functions/study-chat/index.ts:127-187 | each category selects its own instruction text, and only general selects the general one |
| `StudyChat.UnknownCategoryFallsBack` | supabase/functions/study-chat/index.ts:85-106 | an unrecognised category gets the general instructions and an owner-only query |
| `StudyChat.HandleChat` | supabase/functions/study-chat/index.ts:13-236 | the whole handler makes at most three outside calls; none exactly when it answers 401 "Unauthorized"; the first is always the token check and the third always the gateway; success only after the gateway answered with a 2xx status, relaying that reply's stream |
| `StudyChat.ChatRejectsMalformedHeader` | supabase/functions/study-chat/index.ts:20-26 | a missing or non-Bearer header is answered 401 "Unauthorized" with no outside call made |
| `StudyChat.ChatScopesDocumentsToCaller` | supabase/functions/study-chat/index.ts:36-106 | the first outside call verifies the header's token; every document query filters by the verified non-empty `sub` |
| `StudyChat.ChatGatewayRequest` | supabase/functions/study-chat/index.ts:189-204 | the gateway is reached only after the query; it receives the category's instructions, the context of exactly the matching documents (empty when the query failed) and at most 50 turns of at most 10 000 characters |
| `StudyChat.ChatUpstreamStatus` | supabase/functions/study-chat/index.ts:206-229 | an OK gateway reply relays its stream; 429 and 402 pass through; other failures are 500 |
| `StudyChat.ChatInvalidRoleIs500` | supabase/functions/study-chat/index.ts:230-235 | a bad role in an otherwise valid request is answered 500, before the store and the gateway |
| `AnalyzePyq.PaperFilter` | supabase/functions/analyze-pyq/index.ts:62-66 | the query matches exactly the caller's rows of category "pyq" |
| `AnalyzePyq.PaperExcerpt` | supabase/functions/analyze-pyq/index.ts:85 | a paper contributes a prefix of its text of at most 20 000 characters, all of it when shorter, nothing when the text is missing |
| `AnalyzePyq.Papers` | supabase/functions/analyze-pyq/index.ts:84-85 | one labelled paper per document, numbered from 1 in input order |
| `AnalyzePyq.PaperContext` | supabase/functions/analyze-pyq/index.ts:84-86 | no documents give the empty context; otherwise the context starts with the first document as paper 1 |
| `AnalyzePyq.PaperContextSnoc` | supabase/functions/analyze-pyq/index.ts:84-86 | one more document adds a blank line and its labelled paper at the end |
| `AnalyzePyq.Truncate` | supabase/functions/analyze-pyq/index.ts:88-90 | a context of at most 50 000 characters is unchanged; a longer one keeps its first 50 000 and gets the marker after them; the result is at most 50 000 plus the marker length |
| `AnalyzePyq.TruncateIdempotent` | supabase/functions/analyze-pyq/index.ts:88-90 | bounding twice is bounding once |
| `AnalyzePyq.TruncatedLengthExceedsCeiling` | supabase/functions/analyze-pyq/index.ts:88-90 | a cut context is 50 023 characters long, above the 50 000 ceiling |
| `AnalyzePyq.AssembleContext` | supabase/functions/analyze-pyq/index.ts:84-90 | the `let` built by map/join and reassigned by the bound is the bounded paper context |
| `AnalyzePyq.FirstToolCall` | supabase/functions/analyze-pyq/index.ts:230 | the optional chain yields the first tool call of the first choice's message exactly when each step exists |
| `AnalyzePyq.AnalysisResult` | supabase/functions/analyze-pyq/index.ts:231-243 | success iff the first tool call has non-empty arguments, whose text is the payload; otherwise 500 "Failed to generate analysis" |
| `AnalyzePyq.HandlePyq` | supabase/functions/analyze-pyq/index.ts:9-250 | the whole handler makes at most three outside calls; none exactly when it answers 401 "Unauthorized"; the first is always the token check and the third always the gateway; success only after the gateway answered with a 2xx status |
| `AnalyzePyq.PyqRejectsMalformedHeader` | supabase/functions/analyze-pyq/index.ts:16-22 | a missing or non-Bearer header is answered 401 with no outside call made |
| `AnalyzePyq.PyqScopesDocumentsToCaller` | supabase/functions/analyze-pyq/index.ts:32-66 | the first call verifies the header's token; the query asks for the verified caller's "pyq" rows only |
| `AnalyzePyq.PyqDocumentsRule` | supabase/functions/analyze-pyq/index.ts:68-81 | a store error is 500 and no matching paper is 400 "No PYQ documents"; neither reaches the gateway |
| `AnalyzePyq.PyqGatewayContext` | supabase/functions/analyze-pyq/index.ts:84-105 | the gateway receives the bounded context of the caller's non-empty list of pyq papers, at most 50 023 characters |
| `AnalyzePyq.PyqUpstreamOutcome` | supabase/functions/analyze-pyq/index.ts:206-243 | 429 and 402 pass through, other failures are 500; an OK reply yields the tool-call result |

## Left out

- Network and platform calls are not modelled. These are `createClient`, `getClaims`, the database queries, `fetch` to the gateway, and `Deno.env`. Their answers are inputs to the handlers; the calls are recorded in order.
- The `OPTIONS` pre-flight answer and the CORS headers are left out: they are constant responses with no logic.
- The streamed reply of the chat handler is relayed as an opaque sequence of chunks. Cancellation when the client disconnects is not modelled.
- `JSON.parse` of the tool-call arguments is not modelled. The success payload is the arguments text, so a parse exception (a 500) is not represented.
- The unreadable request body and an unreadable gateway reply are modelled as an exception with an abstract message.
- Prompt wording and the output tool schema are opaque. The chat prompt is represented by which of the four instruction texts is chosen, plus the embedded context. The analysis prompt is represented by its embedded context.
- Console logging is not modelled. The `response.text()` read on the gateway error path is not modelled either. Its text is only logged. A read that rejects, however, is caught by the outer `catch` and answered 500 with the rejection's message instead of "AI service error" (supabase/functions/study-chat/index.ts:219-224 and 230-235, supabase/functions/analyze-pyq/index.ts:219-224 and 244-249). The model always gives the status mapping's answer here.
- The quiz progress bar, chart percentages and probabilities are floating-point display values and are left out.
- Random message ids, timestamps, scrolling, refs and animations are left out.
- The row order of a document query is taken to be the store's order. The code asks for no ordering.
- JSON values of the wrong type for `role`, `content`, `category` and `messages` are modelled as absent, because the code treats them the same way.
- `StudyChat.SanitizeOne`: a `null` entry in `messages` gives the role error here. In the code, reading `null.role` throws a `TypeError` with a different message, also answered 500.
- `Text.ToLower`: only the ASCII letters A-Z are lower-cased. JavaScript's `toLowerCase` maps all of Unicode.
- `Text.Take`: lengths count characters. JavaScript counts UTF-16 code units, so a character outside the Basic Multilingual Plane counts twice in the code's 10 000, 20 000 and 50 000 limits.
- The `questions`, `cards` and `onSendMessage` props are fixed when a session, deck or chat window is built. In the code a parent can re-render with new props. Both views then keep their index, and after a shorter deck arrives `cards[currentIndex]` is `undefined` and reading its `id` throws (src/components/quiz/Flashcards.tsx:23 and 56). The model does not capture prop changes.
- The chat window runs the two halves of a submission as separate steps. React's batching of state updates is not modelled.
- The following files are not part of this model: the authentication page (its only own logic is a password-equality check), the PYQ results page (presentation over chart libraries), the diagram renderer wrapper, routing, and the static pages and cards.
