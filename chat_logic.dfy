/** The pure parts of the chat turn handler: the context merge, the intent
    dispatch to at most one catalog query, and the composition of the reply. */
module ChatLogic {
  import opened Wrappers
  import opened Types
  import opened DbService
  import opened Filtering

  const GreetingText := "Hello! I am your Campus Academic Assistant. I can help you find courses, study materials, and past questions. What is your department and level?"
  const ApologyText := "Oops! I ran into an issue. Let's try that again."
  const NoCoursesText := "\n\nNo specific courses found for these parameters in our database yet."

  function NoMaterialsText(courseCode: string): string {
    "\n\nNo materials found for " + courseCode + "."
  }

  function NoPastQuestionsText(courseCode: string): string {
    "\n\nNo past questions found for " + courseCode + "."
  }

  /** The advice line; the light-bulb emoji is U+1F4A1. */
  function AdviceText(level: string, advice: string): string {
    "\n\n\U{1F4A1} Advice for " + level + ": " + advice
  }

  /** The assistant message the transcript starts with. */
  function Greeting(): Message {
    Message(Assistant, GreetingText, None, NoData)
  }

  function UserMessage(text: string): Message {
    Message(User, text, None, NoData)
  }

  /** The message the catch block appends. */
  function Apology(): Message {
    Message(Assistant, ApologyText, None, NoData)
  }

  /** Messages alternate between the assistant (even positions, starting
      with the greeting) and the user (odd positions). */
  predicate Alternates(messages: seq<Message>) {
    forall i | 0 <= i < |messages| :: messages[i].role == if i % 2 == 0 then Assistant else User
  }

  lemma AlternatesAppend(messages: seq<Message>, m: Message)
    requires Alternates(messages)
    requires m.role == if |messages| % 2 == 0 then Assistant else User
    ensures Alternates(messages + [m])
  {
  }

  /** One entry of the history handed to the oracle: role and content only. */
  datatype HistoryEntry = HistoryEntry(role: Role, content: string)

  function History(messages: seq<Message>): seq<HistoryEntry> {
    seq(|messages|, i requires 0 <= i < |messages| => HistoryEntry(messages[i].role, messages[i].content))
  }

  /** What the handler sends the oracle: the raw input, the transcript before
      this turn, and the context before this turn. */
  datatype OracleRequest = OracleRequest(userInput: string, history: seq<HistoryEntry>, context: SessionContext)

  /** How the awaited oracle call ends: with a parsed reply, or by throwing. */
  datatype OracleOutcome = Resolved(response: AIResponse) | Rejected

  // ---------------------------------------------------------------------
  // Context merge

  /** The three fields the merge treats alike. */
  datatype Field = Department | Level | CourseCode

  function ContextField(c: SessionContext, f: Field): Option<string> {
    match f
    case Department => c.department
    case Level => c.level
    case CourseCode => c.lastCourseCode
  }

  function Extracted(p: Parameters, f: Field): Option<string> {
    match f
    case Department => p.department
    case Level => p.level
    case CourseCode => p.courseCode
  }

  /** No field holds the empty string: the merge never stores a falsy value. */
  predicate ContextValid(c: SessionContext) {
    forall f: Field :: ContextField(c, f).Some? ==> Present(ContextField(c, f))
  }

  /** `extracted || previous` */
  function Pick(extracted: Option<string>, previous: Option<string>): Option<string> {
    if Present(extracted) then extracted else previous
  }

  /** The `setContext` updater: skipped when `parameters` is missing; otherwise
      each field takes the extracted value if it is non-empty and keeps its
      previous value if not. */
  function MergeContext(prev: SessionContext, parameters: Option<Parameters>): (r: SessionContext)
    ensures forall f: Field ::
              ContextField(r, f) == if parameters.Some? && Present(Extracted(parameters.value, f))
                                    then Extracted(parameters.value, f) else ContextField(prev, f)
    ensures ContextValid(prev) ==> ContextValid(r)
  {
    match parameters
    case None => prev
    case Some(p) =>
      SessionContext(Pick(p.department, prev.department), Pick(p.level, prev.level), Pick(p.courseCode, prev.lastCourseCode))
  }

  /** Applying the same extraction twice equals applying it once. */
  lemma MergeIdempotent(c: SessionContext, parameters: Option<Parameters>)
    ensures MergeContext(MergeContext(c, parameters), parameters) == MergeContext(c, parameters)
  {
  }

  /** The context after a run of merges, oldest extraction first. */
  function MergeAll(c: SessionContext, extractions: seq<Option<Parameters>>): SessionContext
    decreases |extractions|
  {
    if extractions == [] then c else MergeAll(MergeContext(c, extractions[0]), extractions[1..])
  }

  /** The latest non-empty value extracted for `f`, searching from the newest
      extraction back, or `initial` when there is none. */
  function LatestExtracted(extractions: seq<Option<Parameters>>, f: Field, initial: Option<string>): Option<string>
    decreases |extractions|
  {
    if extractions == [] then initial
    else
      var last := extractions[|extractions| - 1];
      if last.Some? && Present(Extracted(last.value, f)) then Extracted(last.value, f)
      else LatestExtracted(extractions[..|extractions| - 1], f, initial)
  }

  lemma {:induction false} MergeAllSnoc(c: SessionContext, extractions: seq<Option<Parameters>>, p: Option<Parameters>)
    ensures MergeAll(c, extractions + [p]) == MergeContext(MergeAll(c, extractions), p)
    decreases |extractions|
  {
    if extractions == [] {
      assert MergeAll(MergeContext(c, p), []) == MergeContext(c, p);
    } else {
      assert (extractions + [p])[1..] == extractions[1..] + [p];
      MergeAllSnoc(MergeContext(c, extractions[0]), extractions[1..], p);
    }
  }

  /** After any run of merges, each field holds the most recent non-empty
      value extracted for it, or its starting value if none was. */
  lemma {:induction false} MergeAllIsLatest(c: SessionContext, extractions: seq<Option<Parameters>>, f: Field)
    ensures ContextField(MergeAll(c, extractions), f) == LatestExtracted(extractions, f, ContextField(c, f))
    decreases |extractions|
  {
    if extractions != [] {
      var front, last := extractions[..|extractions| - 1], extractions[|extractions| - 1];
      assert extractions == front + [last];
      MergeAllSnoc(c, front, last);
      MergeAllIsLatest(c, front, f);
    }
  }

  /** A field that no extraction in the run supplies stays absent. */
  lemma {:induction false} MergeAllNeverPopulates(c: SessionContext, extractions: seq<Option<Parameters>>, f: Field)
    requires ContextField(c, f) == None
    requires forall i | 0 <= i < |extractions| :: extractions[i].Some? ==> !Present(Extracted(extractions[i].value, f))
    ensures ContextField(MergeAll(c, extractions), f) == None
    decreases |extractions|
  {
    if extractions != [] {
      MergeAllNeverPopulates(MergeContext(c, extractions[0]), extractions[1..], f);
    }
  }

  /** A field once set stays set: later merges can only replace it with
      another non-empty value. */
  lemma {:induction false} MergeAllPersists(c: SessionContext, extractions: seq<Option<Parameters>>, f: Field)
    requires Present(ContextField(c, f))
    ensures Present(ContextField(MergeAll(c, extractions), f))
    decreases |extractions|
  {
    if extractions != [] {
      MergeAllPersists(MergeContext(c, extractions[0]), extractions[1..], f);
    }
  }

  // ---------------------------------------------------------------------
  // Intent dispatch

  /** The catalog call a turn makes. */
  datatype Query =
    | CourseQuery(department: Option<string>, level: Option<string>)
    | MaterialQuery(courseCode: string)
    | PastQuestionQuery(courseCode: string)
    | AdviceQuery(adviceLevel: string)

  /** Intents whose `switch` case reads a field of `parameters`. */
  predicate ReadsParameters(intent: Intent) {
    intent.CourseInfo? || intent.MaterialSearch? || intent.PastQuestions? || intent.StudyAdvice?
  }

  /** The turn ends in the catch block: the oracle call threw, or the `switch`
      read a field of a missing `parameters` object. */
  predicate Fails(outcome: OracleOutcome) {
    outcome.Rejected? || (ReadsParameters(outcome.response.intent) && outcome.response.parameters.None?)
  }

  /** The query kind that belongs to each intent. */
  predicate Serves(q: Query, intent: Intent) {
    match q
    case CourseQuery(_, _) => intent.CourseInfo?
    case MaterialQuery(_) => intent.MaterialSearch?
    case PastQuestionQuery(_) => intent.PastQuestions?
    case AdviceQuery(_) => intent.StudyAdvice?
  }

  /** The `switch` on the intent: at most one query, of the intent's own kind.
      `pre` is the context captured before the turn. */
  function Dispatch(intent: Intent, p: Parameters, pre: SessionContext): (q: Option<Query>)
    ensures q.Some? ==> Serves(q.value, intent)
  {
    match intent
    case CourseInfo =>
      if Present(p.level) || Present(p.department) then Some(CourseQuery(p.department, p.level)) else None
    case MaterialSearch =>
      if Present(p.courseCode) then Some(MaterialQuery(p.courseCode.value)) else None
    case PastQuestions =>
      if Present(p.courseCode) then Some(PastQuestionQuery(p.courseCode.value)) else None
    case StudyAdvice =>
      var levelToAdvise := if Present(p.level) then p.level else pre.level;
      if Present(levelToAdvise) then Some(AdviceQuery(levelToAdvise.value)) else None
    case _ => None
  }

  /** Course, material and past-question searches use only the freshly
      extracted parameters: the context (its `lastCourseCode` included) never
      changes what they query, and a missing code means no query. */
  lemma SearchesIgnoreContext(intent: Intent, p: Parameters, pre1: SessionContext, pre2: SessionContext)
    requires intent.CourseInfo? || intent.MaterialSearch? || intent.PastQuestions?
    ensures Dispatch(intent, p, pre1) == Dispatch(intent, p, pre2)
    ensures intent.CourseInfo? ==> (Dispatch(intent, p, pre1).Some? <==> Present(p.level) || Present(p.department))
    ensures !intent.CourseInfo? ==> (Dispatch(intent, p, pre1).Some? <==> Present(p.courseCode))
    ensures intent.CourseInfo? && Dispatch(intent, p, pre1).Some? ==>
      Dispatch(intent, p, pre1).value == CourseQuery(p.department, p.level)
    ensures intent.MaterialSearch? && Present(p.courseCode) ==>
      Dispatch(intent, p, pre1) == Some(MaterialQuery(p.courseCode.value))
    ensures intent.PastQuestions? && Present(p.courseCode) ==>
      Dispatch(intent, p, pre1) == Some(PastQuestionQuery(p.courseCode.value))
  {
  }

  /** Study advice uses the extracted level if non-empty, else the context's;
      that is exactly the level the merged context holds, and no advice is
      asked for when the merged context has no level. */
  lemma AdviceLevelIsMergedLevel(p: Parameters, pre: SessionContext)
    requires ContextValid(pre)
    ensures Dispatch(StudyAdvice, p, pre) ==
      var merged := MergeContext(pre, Some(p)).level;
      if merged.Some? then Some(AdviceQuery(merged.value)) else None
  {
    assert ContextField(pre, Level) == pre.level;
  }

  // ---------------------------------------------------------------------
  // Catalog fetch and reply

  /** The `data` and `extraAnswer` a query leaves behind. */
  datatype Fetched = Fetched(data: Payload, extra: string)

  function PayloadSize(d: Payload): nat {
    match d
    case NoData => 0
    case CourseList(cs) => |cs|
    case MaterialList(ms) => |ms|
    case PastQuestionList(qs) => |qs|
  }

  /** A search always attaches its result list, the empty list included, and
      appends a fallback sentence exactly when that list is empty; advice
      attaches nothing and always appends its line. */
  function Fetch(catalog: Catalog, q: Query): (r: Fetched)
    ensures q.AdviceQuery? <==> r.data.NoData?
    ensures q.CourseQuery? ==> r.data.CourseList?
    ensures q.MaterialQuery? ==> r.data.MaterialList?
    ensures q.PastQuestionQuery? ==> r.data.PastQuestionList?
    ensures !q.AdviceQuery? ==> (r.extra == "" <==> PayloadSize(r.data) > 0)
    ensures q.AdviceQuery? ==> r.extra != ""
    ensures q.MaterialQuery? && PayloadSize(r.data) == 0 ==> r.extra == NoMaterialsText(q.courseCode)
    ensures q.PastQuestionQuery? && PayloadSize(r.data) == 0 ==> r.extra == NoPastQuestionsText(q.courseCode)
    ensures q.CourseQuery? && PayloadSize(r.data) == 0 ==> r.extra == NoCoursesText
  {
    match q
    case CourseQuery(department, level) =>
      var courses := GetCourses(catalog.courses, department, level);
      Fetched(CourseList(courses), if |courses| == 0 then NoCoursesText else "")
    case MaterialQuery(code) =>
      var materials := GetMaterials(catalog.materials, code);
      Fetched(MaterialList(materials), if |materials| == 0 then NoMaterialsText(code) else "")
    case PastQuestionQuery(code) =>
      var papers := GetPastQuestions(catalog.pastQuestions, code);
      Fetched(PastQuestionList(papers), if |papers| == 0 then NoPastQuestionsText(code) else "")
    case AdviceQuery(level) =>
      Fetched(NoData, AdviceText(level, GetStudyAdvice(level)))
  }

  /** The list a search attaches holds exactly the catalog entries its query
      matches, each as often as in the catalog and in catalog order; advice
      appends the line naming the level and its advice. */
  lemma FetchSpec(catalog: Catalog, q: Query)
    ensures q.CourseQuery? ==>
      var cs := Fetch(catalog, q).data.courses;
      && (forall c :: c in cs <==> c in catalog.courses && CourseMatches(c, q.department, q.level))
      && (forall c :: multiset(cs)[c] == if CourseMatches(c, q.department, q.level) then multiset(catalog.courses)[c] else 0)
      && IsSubsequence(cs, catalog.courses)
    ensures q.MaterialQuery? ==>
      var ms := Fetch(catalog, q).data.materials;
      && (forall m :: m in ms <==> m in catalog.materials && SameCode(m.courseCode, q.courseCode))
      && (forall m :: multiset(ms)[m] == if SameCode(m.courseCode, q.courseCode) then multiset(catalog.materials)[m] else 0)
      && IsSubsequence(ms, catalog.materials)
    ensures q.PastQuestionQuery? ==>
      var pqs := Fetch(catalog, q).data.pastQuestions;
      && (forall p :: p in pqs <==> p in catalog.pastQuestions && SameCode(p.courseCode, q.courseCode))
      && (forall p :: multiset(pqs)[p] == if SameCode(p.courseCode, q.courseCode) then multiset(catalog.pastQuestions)[p] else 0)
      && IsSubsequence(pqs, catalog.pastQuestions)
    ensures q.AdviceQuery? ==> Fetch(catalog, q).extra == AdviceText(q.adviceLevel, GetStudyAdvice(q.adviceLevel))
  {
    match q
    case CourseQuery(department, level) =>
      GetCoursesSpec(catalog.courses, department, level);
    case MaterialQuery(code) =>
      GetMaterialsSpec(catalog.materials, code);
    case PastQuestionQuery(code) =>
      GetPastQuestionsSpec(catalog.pastQuestions, code);
    case AdviceQuery(_) =>
  }

  /** The catalog query a turn makes, if any. */
  function TurnQuery(outcome: OracleOutcome, pre: SessionContext): Option<Query> {
    if Fails(outcome) then None
    else
      match outcome.response.parameters
      case None => None
      case Some(p) => Dispatch(outcome.response.intent, p, pre)
  }

  /** The assistant message that ends a turn: the apology after a failure,
      otherwise the oracle's answer followed by whatever the query appended. */
  function Reply(catalog: Catalog, outcome: OracleOutcome, pre: SessionContext): (m: Message)
    ensures m.role == Assistant
    ensures Fails(outcome) ==> m == Apology()
    ensures !Fails(outcome) ==> m.intent == Some(outcome.response.intent) && outcome.response.answer <= m.content
  {
    if Fails(outcome) then Apology()
    else
      var response := outcome.response;
      var fetched := match TurnQuery(outcome, pre)
        case None => Fetched(NoData, "")
        case Some(q) => Fetch(catalog, q);
      Message(Assistant, response.answer + fetched.extra, Some(response.intent), fetched.data)
  }

  /** The context after a turn: merged on success, untouched if the oracle
      call threw. */
  function NextContext(c: SessionContext, outcome: OracleOutcome): SessionContext {
    if outcome.Rejected? then c else MergeContext(c, outcome.response.parameters)
  }

  /** Intents without a query (GENERAL_CHAT, SET_CONTEXT, unknown tags) answer
      with the oracle's text alone and leave `data` null. */
  lemma QuerylessIntentsAnswerOnly(catalog: Catalog, answer: string, intent: ResponseIntent, parameters: Option<Parameters>, pre: SessionContext)
    requires !ReadsParameters(intent)
    ensures TurnQuery(Resolved(AIResponse(answer, intent, parameters)), pre) == None
    ensures Reply(catalog, Resolved(AIResponse(answer, intent, parameters)), pre) == Message(Assistant, answer, Some(intent), NoData)
  {
    if parameters.Some? {
      assert Dispatch(intent, parameters.value, pre) == None;
    }
  }

  /** A successful search turn, end to end: the reply attaches the list of
      catalog entries that match the extracted parameters (each as often as
      in the catalog, in catalog order) and appends the fallback sentence
      exactly when that list is empty. */
  lemma SearchTurnReply(catalog: Catalog, answer: string, intent: ResponseIntent, p: Parameters, pre: SessionContext)
    ensures intent.CourseInfo? && (Present(p.level) || Present(p.department)) ==>
      var m := Reply(catalog, Resolved(AIResponse(answer, intent, Some(p))), pre);
      && m.data.CourseList?
      && (forall c :: c in m.data.courses <==> c in catalog.courses && CourseMatches(c, p.department, p.level))
      && (forall c :: multiset(m.data.courses)[c] == if CourseMatches(c, p.department, p.level) then multiset(catalog.courses)[c] else 0)
      && IsSubsequence(m.data.courses, catalog.courses)
      && m.content == answer + (if m.data.courses == [] then NoCoursesText else "")
    ensures intent.MaterialSearch? && Present(p.courseCode) ==>
      var m := Reply(catalog, Resolved(AIResponse(answer, intent, Some(p))), pre);
      && m.data.MaterialList?
      && (forall x :: x in m.data.materials <==> x in catalog.materials && SameCode(x.courseCode, p.courseCode.value))
      && (forall x :: multiset(m.data.materials)[x] == if SameCode(x.courseCode, p.courseCode.value) then multiset(catalog.materials)[x] else 0)
      && IsSubsequence(m.data.materials, catalog.materials)
      && m.content == answer + (if m.data.materials == [] then NoMaterialsText(p.courseCode.value) else "")
    ensures intent.PastQuestions? && Present(p.courseCode) ==>
      var m := Reply(catalog, Resolved(AIResponse(answer, intent, Some(p))), pre);
      && m.data.PastQuestionList?
      && (forall x :: x in m.data.pastQuestions <==> x in catalog.pastQuestions && SameCode(x.courseCode, p.courseCode.value))
      && (forall x :: multiset(m.data.pastQuestions)[x] == if SameCode(x.courseCode, p.courseCode.value) then multiset(catalog.pastQuestions)[x] else 0)
      && IsSubsequence(m.data.pastQuestions, catalog.pastQuestions)
      && m.content == answer + (if m.data.pastQuestions == [] then NoPastQuestionsText(p.courseCode.value) else "")
  {
    var outcome := Resolved(AIResponse(answer, intent, Some(p)));
    if intent.CourseInfo? || intent.MaterialSearch? || intent.PastQuestions? {
      SearchesIgnoreContext(intent, p, pre, pre);
      var q := TurnQuery(outcome, pre);
      if q.Some? {
        FetchSpec(catalog, q.value);
      }
    }
  }

  /** A search turn missing the parameter its case tests skips the catalog
      call: the reply is the oracle's prose alone, with no data. */
  lemma SearchWithoutParametersReply(catalog: Catalog, answer: string, intent: ResponseIntent, p: Parameters, pre: SessionContext)
    requires || (intent.CourseInfo? && !Present(p.level) && !Present(p.department))
             || ((intent.MaterialSearch? || intent.PastQuestions?) && !Present(p.courseCode))
    ensures TurnQuery(Resolved(AIResponse(answer, intent, Some(p))), pre) == None
    ensures Reply(catalog, Resolved(AIResponse(answer, intent, Some(p))), pre) == Message(Assistant, answer, Some(intent), NoData)
  {
    SearchesIgnoreContext(intent, p, pre, pre);
  }

  /** A successful advice turn, end to end: with the session invariant, the
      reply appends the advice line for the level the merged context holds,
      or nothing when it holds none, and attaches no data. */
  lemma AdviceTurnReply(catalog: Catalog, answer: string, p: Parameters, pre: SessionContext)
    requires ContextValid(pre)
    ensures
      var m := Reply(catalog, Resolved(AIResponse(answer, StudyAdvice, Some(p))), pre);
      var level := MergeContext(pre, Some(p)).level;
      && m.data == NoData
      && m.content == answer + (if level.Some? then AdviceText(level.value, GetStudyAdvice(level.value)) else "")
  {
    AdviceLevelIsMergedLevel(p, pre);
    var q := Dispatch(StudyAdvice, p, pre);
    if q.Some? {
      FetchSpec(catalog, q.value);
    }
  }
}
