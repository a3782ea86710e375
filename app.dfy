/** The chat component's state and its send handler. The handler is split at
    its one `await` on the oracle: `Submit` runs up to the call, `Resume` runs
    once the call has settled, and `HandleSendMessage` runs both in turn. */
module App {
  import opened Wrappers
  import opened Text
  import opened Types
  import opened Constants
  import opened DbService
  import opened ChatLogic

  /** The `switch` on the intent (one `case` per intent, reassigning `data`
      and `extraAnswer`): it makes exactly the query `Dispatch` names, and
      leaves behind what `Fetch` says that query yields, or `null` and no
      extra text when there is no query. `pre` is the context captured before
      the turn. */
  method SwitchOnIntent(catalog: Catalog, intent: Intent, p: Parameters, pre: SessionContext)
    returns (data: Payload, extraAnswer: string, query: Option<Query>)
    ensures query == Dispatch(intent, p, pre)
    ensures query.None? ==> data == NoData && extraAnswer == ""
    ensures query.Some? ==> Fetched(data, extraAnswer) == Fetch(catalog, query.value)
  {
    data, extraAnswer, query := NoData, "", None;
    match intent {
      case CourseInfo =>
        if Present(p.level) || Present(p.department) {
          var courses := GetCourses(catalog.courses, p.department, p.level);
          query := Some(CourseQuery(p.department, p.level));
          data := CourseList(courses);
          if |courses| == 0 {
            extraAnswer := NoCoursesText;
          }
        }
      case MaterialSearch =>
        if Present(p.courseCode) {
          var materials := GetMaterials(catalog.materials, p.courseCode.value);
          query := Some(MaterialQuery(p.courseCode.value));
          data := MaterialList(materials);
          if |materials| == 0 {
            extraAnswer := NoMaterialsText(p.courseCode.value);
          }
        }
      case PastQuestions =>
        if Present(p.courseCode) {
          var papers := GetPastQuestions(catalog.pastQuestions, p.courseCode.value);
          query := Some(PastQuestionQuery(p.courseCode.value));
          data := PastQuestionList(papers);
          if |papers| == 0 {
            extraAnswer := NoPastQuestionsText(p.courseCode.value);
          }
        }
      case StudyAdvice =>
        var levelToAdvise := if Present(p.level) then p.level else pre.level;
        if Present(levelToAdvise) {
          var advice := GetStudyAdvice(levelToAdvise.value);
          query := Some(AdviceQuery(levelToAdvise.value));
          extraAnswer := AdviceText(levelToAdvise.value, advice);
        }
      case _ =>
    }
  }

  class ChatSession {
    var messages: seq<Message>
    var inputValue: string
    var isLoading: bool
    var context: SessionContext
    /** The catalog the queries run over. */
    const catalog: Catalog
    /** Every request sent to the oracle, oldest first. */
    ghost var oracleCalls: seq<OracleRequest>
    /** Every catalog query made, oldest first. */
    ghost var catalogQueries: seq<Query>

    /** The transcript starts with the greeting and alternates assistant and
        user messages; a turn is outstanding exactly when the last message is
        the user's; the context never holds an empty string. */
    ghost predicate Valid()
      reads this
    {
      && |messages| >= 1
      && messages[0] == Greeting()
      && Alternates(messages)
      && (isLoading <==> |messages| % 2 == 0)
      && ContextValid(context)
    }

    constructor ()
      ensures Valid()
      ensures messages == [Greeting()] && inputValue == "" && !isLoading && context == EmptyContext
      ensures catalog == MockCatalog
      ensures oracleCalls == [] && catalogQueries == []
    {
      messages := [Greeting()];
      inputValue := "";
      isLoading := false;
      context := EmptyContext;
      catalog := MockCatalog;
      oracleCalls := [];
      catalogQueries := [];
    }

    /** The input box's `onChange`. */
    method SetInput(text: string)
      requires Valid()
      modifies this`inputValue
      ensures Valid()
      ensures inputValue == text
    {
      inputValue := text;
    }

    /** The handler up to the oracle call: blank input or a turn already
        outstanding changes nothing and calls nothing; otherwise the user
        message is appended, the input cleared, the busy flag raised and the
        oracle asked with the transcript and context from before the turn. */
    method Submit() returns (request: Option<OracleRequest>)
      requires Valid()
      modifies this`messages, this`inputValue, this`isLoading, this`oracleCalls
      ensures Valid()
      ensures context == old(context) && catalogQueries == old(catalogQueries)
      ensures old(IsBlank(inputValue) || isLoading) ==>
        && request == None
        && messages == old(messages) && inputValue == old(inputValue)
        && isLoading == old(isLoading) && oracleCalls == old(oracleCalls)
      ensures !old(IsBlank(inputValue) || isLoading) ==>
        && request == Some(OracleRequest(old(inputValue), History(old(messages)), old(context)))
        && messages == old(messages) + [UserMessage(old(inputValue))]
        && inputValue == "" && isLoading
        && oracleCalls == old(oracleCalls) + [request.value]
    {
      if IsBlank(inputValue) || isLoading {
        return None;
      }
      var text := inputValue;
      var history := History(messages);
      messages := messages + [UserMessage(text)];
      inputValue := "";
      isLoading := true;
      request := Some(OracleRequest(text, history, context));
      oracleCalls := oracleCalls + [request.value];
    }

    /** The handler after the oracle call has settled with `outcome`: the
        context is merged, at most one catalog query made, one assistant
        message appended, and the busy flag lowered whatever happened. */
    method Resume(request: OracleRequest, outcome: OracleOutcome)
      requires Valid() && isLoading
      modifies this`messages, this`context, this`isLoading, this`catalogQueries
      ensures Valid() && !isLoading
      ensures messages == old(messages) + [Reply(catalog, outcome, request.context)]
      ensures context == NextContext(old(context), outcome)
      ensures catalogQueries == old(catalogQueries) +
        match TurnQuery(outcome, request.context) case None => [] case Some(q) => [q]
    {
      var reply := Apology();
      match outcome {
        case Rejected =>
        case Resolved(response) =>
          if response.parameters.Some? {
            context := MergeContext(context, response.parameters);
          }
          // With `parameters` missing, the switch below reads one of its
          // fields and throws: the reply stays the apology.
          if !(ReadsParameters(response.intent) && response.parameters.None?) {
            var p := if response.parameters.Some? then response.parameters.value else Parameters(None, None, None);
            var data, extraAnswer, query := SwitchOnIntent(catalog, response.intent, p, request.context);
            assert query == TurnQuery(outcome, request.context);
            if query.Some? {
              catalogQueries := catalogQueries + [query.value];
            }
            reply := Message(Assistant, response.answer + extraAnswer, Some(response.intent), data);
          }
      }
      assert reply == Reply(catalog, outcome, request.context);
      AlternatesAppend(messages, reply);
      messages := messages + [reply];
      isLoading := false;
    }

    /** One send: rejected input changes nothing; an accepted turn appends
        the user message and then the assistant reply, keeps every earlier
        message, asks the oracle once and ends with the busy flag lowered. */
    method HandleSendMessage(oracle: OracleRequest -> OracleOutcome)
      requires Valid()
      modifies this
      ensures Valid()
      ensures old(IsBlank(inputValue) || isLoading) ==>
        && messages == old(messages) && context == old(context)
        && inputValue == old(inputValue) && isLoading == old(isLoading)
        && oracleCalls == old(oracleCalls) && catalogQueries == old(catalogQueries)
      ensures !old(IsBlank(inputValue) || isLoading) ==>
        var request := OracleRequest(old(inputValue), History(old(messages)), old(context));
        && messages == old(messages) + [UserMessage(old(inputValue)), Reply(catalog, oracle(request), old(context))]
        && context == NextContext(old(context), oracle(request))
        && inputValue == "" && !isLoading
        && oracleCalls == old(oracleCalls) + [request]
        && catalogQueries == old(catalogQueries) +
          match TurnQuery(oracle(request), old(context)) case None => [] case Some(q) => [q]
    {
      var request := Submit();
      if request.Some? {
        Resume(request.value, oracle(request.value));
      }
    }
  }
}
