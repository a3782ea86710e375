# Campus Academic Assistant: catalog queries and the chat turn handler

This project models the core of a browser chat assistant for students. A
student types a question. The turn handler asks a language-model oracle to
classify the intent and extract parameters (department, level, course code).
It merges those parameters into a running session context. It then makes at
most one query against a small fixed catalog of courses, study materials and
past exam papers. Finally it appends the oracle's answer, plus any fallback or
advice text, to the transcript.

Modules:

- `Text` (text.dfy): the JavaScript string operations the core uses. These are
  `trim`, ASCII `toUpperCase`/`toLowerCase` and `includes`.
- `Filtering` (filtering.dfy): `Array.prototype.filter` and the facts it
  guarantees. The kept elements are exactly those satisfying the predicate,
  with their multiplicities, in input order.
- `Types` (types.dfy), `Constants` (constants.dfy): the records and the fixed
  catalog arrays.
- `DbService` (db_service.dfy): `getCourses`, `getMaterials`,
  `getPastQuestions`, `getStudyAdvice`. Each query takes the catalog it
  searches, so its lemmas hold for any catalog.
- `ChatLogic` (chat_logic.dfy): the pure parts of the turn handler. These are
  the context merge, the intent dispatch, the catalog fetch and the reply
  composition.
- `App` (app.dfy): the `ChatSession` class. It holds the transcript, the
  input box, the busy flag and the context. The send handler is split at its
  `await` on the oracle (App.tsx:44). `Submit` runs up to the oracle call,
  `Resume` runs after the call settles, and `HandleSendMessage` runs both.
  The `await`s on the catalog calls only wait out the simulated latency, so
  `Resume` makes the query and appends the reply in one step.
- `Scenarios` (scenarios.dfy): worked turns over the fixed catalog.

The oracle is abstract. `Resume` takes its outcome as a parameter, and
`HandleSendMessage` takes it as a function from request to outcome. Two ghost
logs on the session record every oracle request and every catalog query.
Those logs state that rejected input calls nothing.

Behaviour of the code a reader might not expect:

- Material and past-question searches use only the freshly extracted course
  code. They never fall back to the context's `lastCourseCode`
  (`ChatLogic.SearchesIgnoreContext`).
- Course searches also use only the extracted department and level.
- An empty query result is attached as the empty list, not left off. The
  fallback sentence is appended as well (`ChatLogic.Fetch`).
- A level is any string the oracle returns, not a closed enumeration.
- When the oracle reply has no `parameters` object, the four intents
  whose case reads `parameters` read a field of it and throw. The turn then ends with the apology
  message (`ChatLogic.Fails`).
- The code has no reset operation for the conversation, so none is modelled.

## Model

| member | source | states |
|---|---|---|
| `Text.BlankIffAllWhitespace` | App.tsx:30 | `!inputValue.trim()` holds exactly when every character is ECMAScript whitespace or a line terminator, the empty input included |
| `Text.ContainsIffOccurs` | services/dbService.ts:14 | `includes` as modelled is true exactly when the needle occurs at some position of the haystack |
| `Types.ParseIntent` | types.ts:44-51 | a tag spelled like one of the six enum values selects that intent, any other tag is kept as `Unrecognized` and is never mistaken for a known one; the intent's spelling is the tag read. The intent an oracle reply carries has the type `ResponseIntent`, which admits only such well-formed values |
| `Types.ParseTagOf` | types.ts:44-51 | every well-formed intent (so every intent a reply can carry) is read back from its own spelling: reading tags and spelling intents are inverse to each other |
| `DbService.GetCoursesSpec` | services/dbService.ts:11-17 | `GetCourses` returns a course iff it is in the catalog, its lower-cased department contains the lower-cased query (when one is given) and its level equals the given level (when one is given); multiplicities equal the catalog's for matches and are zero otherwise; the result is a subsequence of the catalog |
| `DbService.GetCoursesUnfiltered` | services/dbService.ts:13-16 | with department and level both absent or empty, the result is the whole catalog in catalog order |
| `DbService.GetCoursesLevelNarrows` | services/dbService.ts:14-15 | adding a level to a department query gives a subsequence of the department-only result, never a longer one |
| `DbService.GetMaterialsSpec` | services/dbService.ts:19-22 | `GetMaterials` returns a material iff it is in the catalog and its course code equals the query after upper-casing; exact multiplicities; catalog order |
| `DbService.GetMaterialsIgnoresCase` | services/dbService.ts:21 | two queries equal after upper-casing return the same list |
| `DbService.GetPastQuestionsSpec` | services/dbService.ts:24-27 | `GetPastQuestions` returns a past question iff it is in the catalog and its course code equals the query after upper-casing; exact multiplicities; catalog order |
| `DbService.GetPastQuestionsIgnoresCase` | services/dbService.ts:26 | two queries equal after upper-casing return the same list |
| `DbService.GetPastQuestionsUnknownCode` | services/dbService.ts:26 | a code no catalog entry matches yields the empty list |
| `DbService.GetStudyAdvice` | services/dbService.ts:29-39 | the result is never empty; a level in the advice table gets its entry, any other string the generic sentence |
| `DbService.StudyAdviceKnownLevels` | services/dbService.ts:31-38 | the advice differs from the generic sentence exactly for "100L", "200L", "300L", "400L" and "500L" |
| `ChatLogic.MergeContext` | App.tsx:47-53 | with `parameters` missing the context is unchanged; otherwise each field takes the extracted value if non-empty and keeps its old value if not; a context with no empty-string field keeps that property |
| `ChatLogic.MergeIdempotent` | App.tsx:48-53 | merging the same extraction twice gives the same context as merging it once |
| `ChatLogic.MergeAllIsLatest` | App.tsx:48-53 | after any run of merges, each field holds the newest non-empty value extracted for it, or its starting value when none was extracted |
| `ChatLogic.MergeAllNeverPopulates` | App.tsx:48-53 | a field absent at the start and never extracted non-empty stays absent through any run of merges |
| `ChatLogic.MergeAllPersists` | App.tsx:48-53 | a field once set to a non-empty value stays non-empty through any run of merges |
| `ChatLogic.Dispatch` | App.tsx:60-86 | the switch on the intent makes at most one query, and always of the intent's own kind |
| `ChatLogic.SearchesIgnoreContext` | App.tsx:61-78 | course, material and past-question searches do not depend on the context; a course search happens iff the extracted level or department is non-empty, a code search iff the extracted course code is non-empty; a course search is made with the extracted department and level, a material or past-question search with the extracted course code |
| `ChatLogic.AdviceLevelIsMergedLevel` | App.tsx:79-84 | study advice is asked for exactly the level the merged context holds, and not at all when that context has no level |
| `ChatLogic.Fetch` | App.tsx:61-84 | a search always attaches a list of its own kind, the empty list included; it appends text exactly when that list is empty, and the text is the fixed sentence for its kind (naming the code for materials and past questions); advice attaches nothing and always appends a non-empty line |
| `ChatLogic.FetchSpec` | App.tsx:62-82 | the attached list holds exactly the catalog entries the query matches (department substring and level for courses, the code ignoring case for materials and past questions), each as often as in the catalog and in catalog order; the advice line is `Advice for <level>: <advice>` with the advice of that level |
| `ChatLogic.Reply` | App.tsx:88-103 | the reply is an assistant message; after a failure (`Fails`: the oracle call threw, or an intent whose case reads `parameters` found none) it is the fixed apology; otherwise it carries the oracle's intent and its content starts with the oracle's answer |
| `ChatLogic.QuerylessIntentsAnswerOnly` | App.tsx:56-94 | GENERAL_CHAT, SET_CONTEXT and unknown intents make no query; the reply is the oracle's answer alone with `data` null |
| `ChatLogic.SearchTurnReply` | App.tsx:60-94 | in a successful COURSE_INFO, MATERIAL_SEARCH or PAST_QUESTIONS turn with the parameters its case needs, the reply attaches a list of that kind holding exactly the catalog entries matching the extracted parameters, with the catalog's multiplicities and order, and its content is the answer followed by the fallback sentence exactly when that list is empty |
| `ChatLogic.SearchWithoutParametersReply` | App.tsx:56-94 | a COURSE_INFO turn with neither level nor department, or a MATERIAL_SEARCH or PAST_QUESTIONS turn without a course code, makes no catalog query; the reply is the oracle's answer alone with `data` null |
| `ChatLogic.AdviceTurnReply` | App.tsx:79-94 | in a successful STUDY_ADVICE turn the reply attaches no data and its content is the answer followed by the advice line for the level of the merged context, or the answer alone when that context has no level |
| `App.SwitchOnIntent` | App.tsx:56-86 | the imperative switch makes exactly the query `Dispatch` names; it leaves behind what `Fetch` gives for that query, or `null` data and no extra text when there is no query |
| `App.ChatSession.constructor` | App.tsx:9-18 | a new session holds only the greeting, an empty input, a lowered busy flag, an empty context and the fixed catalog |
| `App.ChatSession.SetInput` | App.tsx:220 | typing replaces the input text and nothing else |
| `App.ChatSession.Submit` | App.tsx:28-44 | blank input or a turn already outstanding changes nothing and calls nothing; otherwise the user message is appended, the input cleared, the busy flag raised and one oracle request sent, carrying the input and the transcript and context from before the turn |
| `App.ChatSession.Resume` | App.tsx:44-106 | exactly one assistant message (the reply) is appended; the context becomes `NextContext` of the outcome, merged on success and untouched after a throw; the query log grows by the query `TurnQuery` names, if any, so at most one catalog query is made; the busy flag is lowered in every case; the transcript keeps alternating assistant and user from the greeting |
| `App.ChatSession.HandleSendMessage` | App.tsx:28-107 | rejected input leaves every field and both logs unchanged; an accepted turn appends the user message and then the reply, keeps every earlier message, sends exactly one oracle request, records at most one catalog query (the one `TurnQuery` names for the oracle's outcome and the pre-turn context) and ends with the busy flag lowered |
| `Scenarios.MaterialsForCpe301` | constants.ts:12-16 | "CPE 301" and "cpe 301" both find exactly the material m1 |
| `Scenarios.MaterialsForCpe999` | constants.ts:12-16 | "CPE 999" finds no material |
| `Scenarios.PastQuestionsForCpe409` | constants.ts:18-22 | "CPE 409" finds pq1 then pq2, in catalog order; "CPE 999" finds nothing |
| `Scenarios.SetContextTurn` | App.tsx:47-60 | a SET_CONTEXT turn stores the department and level, makes no query and replies with the answer alone |
| `Scenarios.MaterialFoundTurn` | App.tsx:67-72 | searching "CPE 301" attaches the m1 record and adds no text |
| `Scenarios.MaterialMissingTurn` | App.tsx:67-72 | searching "CPE 999" attaches the empty list and appends "No materials found for CPE 999." |
| `Scenarios.MaterialSearchWithoutCodeTurn` | App.tsx:67-72 | a material search with no extracted code makes no query, even when the context holds a course code |
| `Scenarios.MissingParametersTurn` | App.tsx:60-103 | a PAST_QUESTIONS reply without `parameters` ends with the apology and leaves the context unchanged |

## Left out

- Rendering: the JSX of App.tsx:109-238 and components/ResponseCards.tsx. They only map records to markup.
- The scroll effect (App.tsx:20-26) and message timestamps. These are browser and clock effects, so messages carry no timestamp.
- services/geminiService.ts is not part of this model. The oracle is an abstract input. The real wrapper catches every error and returns a GENERAL_CHAT reply with empty parameters, so the `Rejected` outcome covers only a wrapper that throws. The wrapper also trims the history to its last four entries; the request modelled here carries the whole history the handler passes.
- The simulated latency (`delay`) in services/dbService.ts and the async scheduling. React's batched `setState` is also left out: each half of the handler is one sequential method.
- `SYSTEM_PROMPT` (constants.ts:24-42), which is only instruction text for the language model.
- Text.ToUpper, Text.ToLower: only ASCII letters are case-mapped; full Unicode case mapping is not modelled.
- DbService.GetStudyAdvice: a level that names an inherited property of a JavaScript object (such as "toString") finds a function value in the advice table and does not fall back; the model gives such levels the generic sentence.
- Values of the wrong JSON type in the oracle reply (a non-string answer or parameter) are not modelled; every field is a string or absent.
- `data: null` (assistant replies without a query) and an absent `data` (user, greeting and apology messages) are one value, `NoData`. The interface treats them alike.
