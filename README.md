# quiz-anything, modelled in Dafny

quiz-anything is a Next.js quiz application. A user picks a topic, a YouTube
video or a web page. The server asks a language model for trivia questions.
The browser then plays them one at a time and keeps a score. A tutor chat
lets the user discuss an answer. This project models the application's core
and proves properties of that model:

- the transcript chunker and capped generation loop of the YouTube path;
- the quiz play state machine;
- the browser's session and identity hook;
- the home page's submit flow;
- the tutor chat log;
- the client's API error classification;
- the ten HTTP handlers under `src/pages/api/`.

## Structure

Module by module:

- **`Js`, `JsonData`**: the JavaScript semantics the code relies on:
  - truthiness;
  - `trim`;
  - `split(/\s+/)` and `join`;
  - decimal rendering of numbers;
  - property access on parsed JSON, including the TypeError that reading a
    property of `null` or `undefined` throws.
- **`YoutubeQuestions`**: `generateYoutubeTriviaQuestions`.
  - The `reduce` that fills the chunk array in place is the method `Chunk`,
    a loop over the words.
  - The capped `for…of` loop is the method `AskPerChunk`.
  - Both methods are proved against specification functions (`ChunkList`,
    `Collect`); lemmas about those functions give the chunk sizes, the word
    order and the cap.
- **`Quiz`**: the quiz page as a class (`QuizPage`) whose methods are tied
  to the pure transition functions `Answer` and `StartOver`. An invariant
  (`Consistent`) says the score never exceeds the number of questions
  answered.
- **`Session`**: `useSession` as a class (`SessionHook`) over local storage
  (a `map<string, string>`) and the hook's state. Each method is tied to a
  function: `Initialize`, `SessionStart` or `Clear`.
- **`Home`**: `index.tsx` as a class (`HomePage`) that holds the three input
  fields and shares the session hook. The awaited sequence of `handleSubmit`
  is the function `Flow`, over an oracle for the API replies.
- **`Messages`**: `MessagesProvider` as a class whose message list only ever
  grows.
- **`ApiClient`**: `apiCall` as a pure mapping from a fetch outcome to data
  or an `ApiError`, plus the request each `api.*` wrapper sends.
- **`Store`**: the MongoDB collections as sequences of documents:
  - `findOne` is the first match in insertion order;
  - `deleteOne` removes the first match;
  - `insertOne` appends;
  - `updateOne` with `upsert` sets a field on the first match, or appends a
    new document;
  - a `Database` class holds the store that the handlers change.
- **One module per handler**. A handler that writes is a method on a
  `Database`. A read-only handler is a function of the store.
  - Every database call may fail. `DbFault` names the call that rejects,
    counting 0 for `connectToDB` and then each collection call in source
    order.
  - A rejection the handler does not catch is the response `Crashed`.

The following are parameters:

- the language model;
- `fetch`;
- the transcript library;
- WHATWG `URL` parsing;
- `uuidv4()`, `Date.now()` and `new Date().toISOString()`;
- `process.env`;
- the unseen `shuffleArray`.

## Behaviour worth knowing

The model follows the code in each case:

- **`getQuestions` with an empty array.** The handler answers 200 with
  `[]` when the stored document holds an empty `questions` array. Only an
  unknown key or a non-array gives 404 (`GetQuestionsRoute.UnknownKeyIsNotFound`).
- **`storeUUID` and the method check.** `storeUUID` answers every method,
  not only POST, and the handler does not catch a failure of its insert.
- **Upserting the same answers twice.** A second, different answer set
  replaces the first. Submitting the answers a session already holds
  changes nothing and is answered 404 "Session not found"
  (`StoreUserAnswersRoute.ResubmitIsNotFound`).
- **Names of the session key.** The two sides name the key differently:
  - the client sends `sessionId` and `answers`;
  - the handlers read `sessionID` and `userAnswers`;
  - the quiz page queries by the bare user id.

  `ApiClient.WrapperRequests` and the handler modules each state their own
  side as written.
- **Finishing a quiz.** `quiz.js` does not store the answers when the quiz
  is finished.

## Model

| member | source | states |
|---|---|---|
| Js.Trim | src/pages/index.tsx:35-39 | the trimmed string starts and ends with a non-space, and is empty exactly when the input is all whitespace |
| Js.TrimStart | src/pages/index.tsx:35 | the result is no longer than the input and starts with a non-space |
| Js.LeadingSpacesSplit | src/pages/index.tsx:35 | the input is its leading whitespace followed by the trimmed result, so only leading characters are cut off |
| Js.LeadingSpacesRun | src/pages/index.tsx:35 | what is cut off is all whitespace, and something is cut off exactly when the input starts with whitespace |
| Js.TrimEnd | src/pages/index.tsx:35 | the result is a prefix of the input with only whitespace cut off, and ends with a non-space |
| Js.TrimBlank | src/pages/index.tsx:179 | trimming gives the empty string exactly when the input is all whitespace |
| Js.SplitWhitespaceShape | src/scripts/generate-youtube-questions.js:20 | `split(/\s+/)` yields at least one piece, pieces hold no whitespace, and together they hold exactly the non-space characters in order |
| Js.SeparatorsAreRuns | src/scripts/generate-youtube-questions.js:20 | every separator `split(/\s+/)` cuts at is a non-empty run of whitespace |
| Js.SplitWhitespaceCuts | src/scripts/generate-youtube-questions.js:20 | the pieces with the maximal whitespace runs put back between them give the input again, and every piece but the first and the last is non-empty |
| Js.SplitWhitespaceEnds | src/scripts/generate-youtube-questions.js:20 | the first piece is empty exactly when the input is empty or starts with whitespace, the last exactly when it is empty or ends with whitespace, and `""` splits to `[""]` |
| Js.NatToDecimal | src/hooks/useSession.ts:44-46 | the decimal form is non-empty, all digits and without a leading zero |
| Js.IntToDecimal | src/utils/api.ts:41 | a negative number renders as `-` followed by the digits of its magnitude |
| Js.DecimalRoundTrip | src/hooks/useSession.ts:44-46 | reading the decimal form back gives the number |
| JsonData.Member | src/pages/api/generateQuestions.js:10 | reading a property throws exactly when the value is `null`; on an object it is found exactly when the key is present |
| JsonData.Get | src/pages/api/getYoutubeTranscript.js:50-55 | a property chain passes an earlier TypeError on, and throws on `undefined` or `null` with the engine's message |
| YoutubeQuestions.TranscriptText | src/scripts/generate-youtube-questions.js:16-17 | the text is the segments' texts joined by single spaces: empty for no segments, the one text for one |
| YoutubeQuestions.TranscriptSegments | src/scripts/generate-youtube-questions.js:17 | the `map` succeeds exactly on an array with no `null` item and then gives one text per item; `null` throws the TypeError for reading `map`, any other non-array "transcriptArray.map is not a function", and a `null` item the TypeError for reading `text` |
| YoutubeQuestions.Chunk | src/scripts/generate-youtube-questions.js:20-24 | the in-place reduce builds exactly the chunk list of the words |
| YoutubeQuestions.ChunkBounds | src/scripts/generate-youtube-questions.js:21 | each chunk starts at a word index divisible by 500 that lies within the words |
| YoutubeQuestions.ChunkSizes | src/scripts/generate-youtube-questions.js:20-24 | every chunk but the last holds exactly 500 words; the last holds 1 to 500 |
| YoutubeQuestions.WordInChunk | src/scripts/generate-youtube-questions.js:21-22 | word `j` is word `j % 500` of chunk `j / 500` |
| YoutubeQuestions.ChunkCountPositive | src/scripts/generate-youtube-questions.js:20-24 | there is at least one chunk for any non-empty word list |
| YoutubeQuestions.ChunkListSnocOpens | src/scripts/generate-youtube-questions.js:21-22 | a word at an index divisible by 500 opens a new chunk holding just that word after a space |
| YoutubeQuestions.ChunkListSnocExtends | src/scripts/generate-youtube-questions.js:22 | any other word is appended, after one space, to the last chunk, and the earlier chunks stay as they were |
| YoutubeQuestions.ChunkListTail | src/scripts/generate-youtube-questions.js:20-24 | past 500 words, the first chunk is the first 500 words and the rest chunk the remaining words |
| YoutubeQuestions.ChunkListConcat | src/scripts/generate-youtube-questions.js:22 | concatenating the chunks gives every word once, in order, each after one space |
| YoutubeQuestions.PrefixedIsJoin | src/scripts/generate-youtube-questions.js:22 | that concatenation is `" " + words.join(" ")` |
| YoutubeQuestions.ChunkListPrefix | src/scripts/generate-youtube-questions.js:55-56 | with at least 5000 words, the first 10 chunks are the chunks of the first 5000 words |
| YoutubeQuestions.CapCoversFirstWords | src/scripts/generate-youtube-questions.js:55-56 | the chunks sent to the model cover exactly the first 5000 words; later words are never asked about |
| YoutubeQuestions.CollectAllFailed | src/scripts/generate-youtube-questions.js:48-53 | when every call fails, no questions are gathered and nothing fails |
| YoutubeQuestions.CollectExtends | src/scripts/generate-youtube-questions.js:47 | the questions gathered from earlier chunks are a prefix of those gathered from more chunks |
| YoutubeQuestions.AskPerChunk | src/scripts/generate-youtube-questions.js:26-59 | the loop asks about the first min(chunks, 10) chunks in order, failed ones included, and returns the in-order concatenation of the successful replies |
| YoutubeQuestions.Prompts | src/scripts/generate-youtube-questions.js:20-24 | there are between 1 and 10 prompts, even for an empty transcript |
| YoutubeQuestions.GenerateYoutubeTriviaQuestions | src/scripts/generate-youtube-questions.js:16-60 | the whole function: join, chunk, then at most 10 calls whose successful replies are concatenated in order |
| Quiz.SpreadValues | src/pages/quiz.js:25 | spreading an array gives its items and spreading a string gives its characters; anything else throws |
| Quiz.OptionsOf | src/pages/quiz.js:25 | the options are `[answer, ...wrongAnswers]`: the answer first, then the spread wrong answers |
| Quiz.BuildCards | src/pages/quiz.js:22-26 | questions are built exactly for an array whose every item can be spread, one card per item carrying its question, answer and shuffled options |
| Quiz.CardOptions | src/pages/quiz.js:23-26 | for a permuting shuffle, a card's options are the answer and the wrong answers as a multiset, and the answer is among them |
| Quiz.Answer | src/pages/quiz.js:69-79 | choosing the answer adds exactly 1 to the score and any other option adds nothing; the last question finishes the game at the same index, any other advances the index by 1 |
| Quiz.InitialConsistent | src/pages/quiz.js:7-9 | the start state, score 0 at index 0 and playing, satisfies the score invariant |
| Quiz.AnswerKeepsConsistent | src/pages/quiz.js:69-79 | each answer keeps 0 ≤ score ≤ answered ≤ total and counts one more question answered |
| Quiz.FinishedIsFinal | src/pages/quiz.js:63 | no answer is possible once the game has finished |
| Quiz.RunFrom | src/pages/quiz.js:69-79 | answering every remaining question in turn ends finished on the last question, with the score raised by the number of hits |
| Quiz.PlayThrough | src/pages/quiz.js:63-79 | a whole game from the start ends finished with the score equal to the hits, and a perfect game scores the number of questions |
| Quiz.AllHits | src/pages/quiz.js:71-73 | clicking the answer every time hits every time |
| Quiz.StartOver | src/pages/quiz.js:43-47 | starting over gives score 0, index 0 and playing, whatever the state |
| Quiz.QuizPage.constructor | src/pages/quiz.js:6-12 | the page starts with no questions, the start state and no user id |
| Quiz.QuizPage.LoadQuestions | src/pages/quiz.js:14-38 | the stored user id is adopted; questions are fetched only for a truthy id, and replaced only when the reply is an array that can be built; the play state is untouched |
| Quiz.QuizPage.Click | src/pages/quiz.js:69-79 | a click moves the play state by `Answer` and changes nothing else |
| Quiz.QuizPage.StartOver | src/pages/quiz.js:43-47 | the play state is reset and the questions are kept |
| Session.UuidFromReply | src/hooks/useSession.ts:24-36 | a rejected call gives its message, a truthy `uuid` is adopted, and a falsy or missing one gives "Failed to generate UUID" |
| Session.Initialize | src/hooks/useSession.ts:13-41 | a stored id is adopted with no error; otherwise a fetched id is stored and adopted, or the error is set and storage left alone; loading always ends, and the error is clear exactly on success |
| Session.SessionIdRoundTrip | src/hooks/useSession.ts:43-48 | the session key splits back at its last dash into the user id and the timestamp's digits, which read back as the timestamp |
| Session.SessionStart | src/hooks/useSession.ts:43-48 | creating a session id stores the timestamp under `sessionTimestamp` and changes nothing else; the id is the user id and that timestamp joined by a dash |
| Session.Clear | src/hooks/useSession.ts:50-54 | clearing removes exactly `userUUID` and `sessionTimestamp` from storage, keeps every other entry and empties the user id |
| Session.ClearThenInitialize | src/hooks/useSession.ts:50-54 | after clearing, initialisation adopts and stores the newly fetched id |
| Session.SessionHook.constructor | src/hooks/useSession.ts:5-7 | the hook starts loading, with an empty user id and no error |
| Session.SessionHook.InitializeSession | src/hooks/useSession.ts:13-41 | the new state is `Initialize` of the old one, and `storeUUID` is requested exactly when no id is stored |
| Session.SessionHook.CreateSessionId | src/hooks/useSession.ts:43-48 | the returned id and the new state are those of `SessionStart` |
| Session.SessionHook.ClearSession | src/hooks/useSession.ts:50-54 | the new state is `Clear` of the old one |
| ApiClient.FetchArguments | src/utils/api.ts:26-35 | the URL is base plus endpoint; method and body are the caller's; the headers are the JSON content type unless the caller gives headers, which then replace them |
| ApiClient.ApiCall | src/utils/api.ts:22-54 | data is returned exactly for an `ok` response with a parsable body; a non-`ok` parsed body gives an `ApiError` with its status, message and body; every other failure gives a "Network error: " error with no status and no body, whose message is the rejection's message (or "Unknown error"), the body's parse error, or the TypeError for reading `error` of a `null` body |
| ApiClient.WrapperRequests | src/utils/api.ts:56-110 | each wrapper sends its fixed method, path and body keys |
| Home.SetInput | src/pages/index.tsx:101-113 | the active tab's field reads back the new value and the other fields are unchanged |
| Home.SubmitDisabledMeaning | src/pages/index.tsx:179 | submit is disabled exactly while loading or while the active input is all whitespace |
| Home.QuestionsCheck | src/pages/index.tsx:41-45 | a reply passes exactly when it succeeded with a truthy `questions` of positive length; a rejected call gives its message |
| Home.TranscriptCheck | src/pages/index.tsx:54-56 | the transcript step passes exactly when the reply succeeded with a truthy `success` |
| Home.FlowValidation | src/pages/index.tsx:34-78 | an input blank after trimming gives the tab's error and no call; otherwise the first call is the tab's request with the trimmed input |
| Home.FlowNavigation | src/pages/index.tsx:34-85 | navigation happens exactly when no error is set, and only after a last reply with non-empty questions |
| Home.FlowSecondCall | src/pages/index.tsx:46-65 | there are at most two calls, and a second, `generateYoutubeQuestions` with the same session id, exactly on the YouTube tab after a successful transcript step |
| Home.TopicIsTrimmed | src/pages/index.tsx:35-39 | the topic request carries the trimmed topic and the session id as its body |
| Home.HomePage.constructor | src/pages/index.tsx:10-15 | the page starts with empty fields on the topic tab, not loading and with no error |
| Home.HomePage.SetInputValue | src/pages/index.tsx:101-113 | only the active tab's field changes |
| Home.HomePage.SubmitInput | src/pages/index.tsx:33-82 | the `try` block, run step by step on the page, ends with the error, calls and navigation of `Attempt` and leaves the fields, the tab and the loading flag unchanged |
| Home.HomePage.HandleSubmit | src/pages/index.tsx:20-86 | without a user id the error is set and nothing is called; otherwise a session id is created before validation, and the error, calls and navigation are those of `Flow`; loading always ends |
| Messages.WelcomeText | src/utils/useMessages.tsx:29-32 | the welcome text embeds the answer and then the question at fixed offsets |
| Messages.Seed | src/utils/useMessages.tsx:23-41 | the chat is seeded with exactly the system and welcome messages when it is empty and both query values are truthy; otherwise it is unchanged |
| Messages.SeedIdempotent | src/utils/useMessages.tsx:36-41 | seeding twice is seeding once, a non-empty chat is never reseeded, and the chat is non-empty after seeding exactly when it was or both values were present |
| Messages.ReplyOf | src/utils/useMessages.tsx:50-56 | an `undefined` or `null` result from `sendMessage` gives no reply |
| Messages.ReplyOfFirstChoice | src/utils/useMessages.tsx:55-56 | the reply is the first choice's message |
| Messages.AddMessageStep | src/utils/useMessages.tsx:43-66 | the user message is appended at once; on success the reply follows it, on failure the toast is raised; loading ends and earlier messages are never removed or reordered |
| Messages.AddMessagesExtend | src/utils/useMessages.tsx:43-66 | over any number of sends, the log only grows, by at least one message per send |
| Messages.MessagesProvider.constructor | src/utils/useMessages.tsx:17-18 | the chat starts empty and not loading |
| Messages.MessagesProvider.InitializeChat | src/utils/useMessages.tsx:23-41 | the messages become `Seed` of the old ones |
| Messages.MessagesProvider.AddMessage | src/utils/useMessages.tsx:43-66 | the message sent, the new state and the toast are those of `AddMessageStep` |
| Store.FindFirst | src/pages/api/getQuestions.js:14 | a document is found exactly when one matches, and the one found matches and is stored |
| Store.DeleteFirst | src/pages/api/generateQuestions.js:24 | at most the first matching document is removed |
| Store.ReplaceFindsNew | src/pages/api/generateQuestions.js:23-32 | after delete-then-insert on a key with at most one document, exactly one is left and it is the new one |
| Store.FirstMatchAppend | src/pages/api/getQuestions.js:14 | `findOne` over two runs of documents finds the first run's match, else the second run's match shifted past the first run, else nothing |
| Store.AppendKeepsFound | src/pages/api/generateUrlQuestions.js:21-27 | appending does not change which document `findOne` returns for a key that already had one |
| Store.UpsertSet | src/pages/api/storeUserAnswers.js:22-26 | with no match a new document `{key, field}` is appended and counts as upserted; otherwise the first match gets the field and counts as modified exactly when the value differed |
| Store.UpsertSameValue | src/pages/api/storeUserAnswers.js:22-33 | setting the value a document already holds changes nothing and reports no modification and no upsert |
| Store.Database.InsertOne | src/pages/api/storeTopic.js:16-20 | the document is appended to the named collection and nothing else changes |
| Store.Database.DeleteOne | src/pages/api/generateQuestions.js:24 | the first matching document of the named collection is removed |
| Store.Database.FindOne | src/pages/api/generateYoutubeQuestions.js:22 | the result is the first matching document; nothing changes |
| Store.Database.UpdateOne | src/pages/api/storeUserAnswers.js:22-26 | the named collection becomes that of `UpsertSet` and its counts are returned |
| GenerateQuestionsRoute.Handle | src/pages/api/generateQuestions.js:5-46 | 405, a crash on a null body, 400 without writes; a generation failure gives 500 before any write; each database failure gives 500 with the writes made before it left in place; success replaces the key's question set, appends a topic and echoes the questions |
| GenerateQuestionsRoute.ReplaceLeavesOne | src/pages/api/generateQuestions.js:23-32 | repeated generations keep one question set per key, and it is the newest |
| GenerateUrlQuestionsRoute.Handle | src/pages/api/generateUrlQuestions.js:4-41 | 405 and 400 without writes; a generation failure gives 500 before any write; success appends a question set without deleting and appends a `urls` document; a failing second insert leaves the first |
| GenerateUrlQuestionsRoute.AppendAccumulates | src/pages/api/generateUrlQuestions.js:20-27 | each success adds one more question set for the key, and `findOne` keeps answering with the oldest |
| GenerateYoutubeQuestionsRoute.StoredTranscript | src/pages/api/generateYoutubeQuestions.js:18-26 | the transcript is available exactly when the key's first document holds a truthy `transcript` |
| GenerateYoutubeQuestionsRoute.Handle | src/pages/api/generateYoutubeQuestions.js:5-46 | 405 and 400; a missing transcript gives 404; success deletes at most one `youtubeQuestions` document for the key and inserts the gathered questions, never touching `questions` or the transcripts |
| GenerateYoutubeQuestionsRoute.AllChunksFailing | src/pages/api/generateYoutubeQuestions.js:28 | when every chunk fails the route still succeeds, with no questions |
| GetYoutubeTranscriptRoute.VideoDetails | src/pages/api/getYoutubeTranscript.js:45-59 | the first item's title, description and default thumbnail URL; no or empty `items` gives "Failed to fetch video details." |
| GetYoutubeTranscriptRoute.VideoDetailsOfFirstItem | src/pages/api/getYoutubeTranscript.js:50-56 | an answer of the documented shape gives its first item's fields |
| GetYoutubeTranscriptRoute.Handle | src/pages/api/getYoutubeTranscript.js:6-43 | 405 with a JSON error and 400 without writes; a URL without `v` gives 400 "Invalid YouTube URL."; every other failure gives 500 "Failed to fetch transcript." without writes; success inserts exactly one transcript document |
| GetQuestionsRoute.Handle | src/pages/api/getQuestions.js:3-24 | 405 and 400; an uncaught database failure crashes; 200 exactly when the key's first document holds an array, which is answered as is; otherwise 404; only `questions` is read |
| GetQuestionsRoute.UnknownKeyIsNotFound | src/pages/api/getQuestions.js:16-20 | an unknown key is answered 404, never 200 |
| GetUserAnswersRoute.Handle | src/pages/api/getUserAnswers.js:3-29 | 405 with a JSON error; a database failure gives 500 with the prefixed message; a found session is answered whole with 200, otherwise 404; nothing is written and it never crashes |
| GetUserAnswersRoute.MissingSessionIdMatchesNull | src/pages/api/getUserAnswers.js:5-13 | without a `sessionID` there is no 400: the lookup finds a session stored without one |
| StoreUserAnswersRoute.NewSessionId | src/pages/api/storeUserAnswers.js:16-19 | a truthy session id is kept; otherwise `<uuid>-<now>` is made up; the result is always truthy |
| StoreUserAnswersRoute.Handle | src/pages/api/storeUserAnswers.js:4-41 | 405 and 400 without writes; a connection failure crashes; an update failure gives 500 with the prefixed message; otherwise the collection is that of the upsert, answered 200 with the session id when it modified or upserted and 404 otherwise |
| StoreUserAnswersRoute.NewAnswersAreStored | src/pages/api/storeUserAnswers.js:22-29 | answers that differ from the stored ones, or a new session, are always answered 200 |
| StoreUserAnswersRoute.ResubmitIsNotFound | src/pages/api/storeUserAnswers.js:22-33 | resubmitting the answers a session holds changes nothing and is answered 404 |
| StoreTopicRoute.Handle | src/pages/api/storeTopic.js:3-29 | 405 and 400 without writes; a connection failure crashes; an insert failure gives 500; success appends exactly one `{uuid, topicName}` document |
| StoreUuidRoute.Handle | src/pages/api/storeUUID.js:4-12 | any method is accepted; a failure crashes without writes; success appends exactly one `uuids` document, whose `uuid` is the one returned |
| StoreUuidRoute.NewUuidDistinct | src/pages/api/storeUUID.js:8 | the time can be read back from the id, so ids made at different times differ |
| HealthRoute.MissingExact | src/pages/api/health.ts:18-19 | the missing names are exactly the required ones that are unset or empty, and none are missing exactly when all are set |
| HealthRoute.MissingAppend | src/pages/api/health.ts:19 | filtering keeps the names of each part of the list in their order: the missing names of a concatenation are those of the first part followed by those of the second |
| HealthRoute.EnvOr | src/pages/api/health.ts:37-38 | an unset or empty variable gives the fallback, a set one its own value, so the result is never empty |
| HealthRoute.Handle | src/pages/api/health.ts:4-59 | 405 for other methods; 200 exactly when the database answers and both variables are set; a database failure gives 503 "disconnected" whatever the environment; missing variables give 503 "incomplete" |
| HealthRoute.MissingMessages | src/pages/api/health.ts:18-25 | the message names both variables, only the API key, or only the database address, in the listed order and joined by ", ", according to which are unset |

## Left out

- Rendering, styling, the router and the components (`TabSelector`, `LoadingSpinner`, `MessageList`, `MessageForm`), and the review, tutor and topic pages: they hold no logic beyond markup and navigation.
- `src/pages/index.js` is not part of this model. It is an older two-tab copy of the home page.
- Question generation for a topic or a URL, and `sendMessage`: these are calls into the language model and a page scraper. Each appears only as its outcome, a value or a thrown error. Nothing is claimed about the shape of the generated questions.
- `JSON.stringify`, `JSON.parse`, `createdAt` fields and MongoDB's `_id`: there is no serialisation in the model, and the timestamps and generated keys are not modelled.
- Numbers are integers. Floating point is not modelled.
- JsonData.NonEmptyLength: treats only a numeric `length` as measurable. JavaScript's coercion of a string or other `length` in `length > 0` is not modelled.
- Quiz.Answer: compares options by value. JavaScript compares object-valued answers by reference.
- Quiz.CardOptions: assumes the unseen shuffle is a permutation. The module that defines it is not part of this model.
- Query parameters are single strings. Next.js can also deliver an array for a repeated parameter.
- MongoDB matching is equality on the field, with `null` also matching a missing field. Array-element and operator matching are not modelled, so neither is a filter value crafted as an operator object. `findOne` returning the first match in insertion order is an assumption, since MongoDB does not promise an order.
- The shared, lazily made connection of `src/lib/db.js` and any interleaving of concurrent requests: the model handles one request at a time.
- React's effect scheduling, batched state updates and effects that run twice: each hook method is one atomic step.
- Three fallbacks for a thrown value that is not an `Error` are not modelled, because in the model no such value reaches them:
  - "An unexpected error occurred" (src/pages/index.tsx:80): the home page's `catch` receives only the `ApiError`s of `apiCall` and the `Error`s the page throws itself.
  - "Failed to initialize session" (src/hooks/useSession.ts:35): the `catch` receives only an `ApiError` (src/utils/api.ts:49-52), a `TypeError`, or the `Error` "Failed to generate UUID", so `Session.UuidFromReply` has no non-`Error` case.
  - "Unknown error" (src/pages/api/health.ts:51): a database rejection is a `DbFault`, which always carries a message, so the model takes every database rejection to be an `Error`.
- A thrown `null` or `undefined` in `generateQuestions` and `generateUrlQuestions` is not modelled. There `Thrown.NonError` stands for any other value that is not an `Error`, which both handlers answer with 500 `{}` (`Store.CaughtErrorJson`), since its `message` is `undefined`. Reading `error.message` of `null` or `undefined` would throw again inside the `catch` (src/pages/api/generateQuestions.js:43-44, src/pages/api/generateUrlQuestions.js:38-39), and the rejection would go unhandled. The generator at src/scripts/generate-questions.js:16-30 throws only `Error`s, so neither case arises from it.
- The end-to-end round trip from client to server: the key names differ between the two sides, so each side is modelled as written.
- The types in `src/types/index.ts`: interfaces only, and they do not match the objects the code handles.
