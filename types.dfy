/** The records of the chatbot: catalog entries, the session context, chat
    messages and the oracle's reply. */
module Types {
  import opened Wrappers

  /** A catalog course. `level` is one of "100L".."500L" in the catalog, but
      queries compare it as a plain string. */
  datatype Course = Course(
    id: string,
    code: string,
    title: string,
    units: int,
    level: string,
    department: string,
    description: string)

  datatype MaterialKind = Pdf | Video | Notes

  datatype StudyMaterial = StudyMaterial(
    id: string,
    courseCode: string,
    title: string,
    kind: MaterialKind,
    url: string)

  datatype Semester = First | Second

  datatype PastQuestion = PastQuestion(
    id: string,
    courseCode: string,
    year: int,
    semester: Semester,
    url: string)

  /** The data the catalog queries run over. */
  datatype Catalog = Catalog(courses: seq<Course>, materials: seq<StudyMaterial>, pastQuestions: seq<PastQuestion>)

  /** What the conversation remembers between turns; an absent field is `None`. */
  datatype SessionContext = SessionContext(
    department: Option<string>,
    level: Option<string>,
    lastCourseCode: Option<string>)

  const EmptyContext := SessionContext(None, None, None)

  datatype Role = User | Assistant

  /** The oracle's intent tag; any other string the oracle returns is kept as
      `Unrecognized`. An `Unrecognized` tag is never one of the six known
      tags (`WellFormedIntent`); `ParseIntent` builds only such values, and an
      oracle reply carries only such values (`ResponseIntent`). */
  datatype Intent =
    | CourseInfo
    | MaterialSearch
    | PastQuestions
    | StudyAdvice
    | GeneralChat
    | SetContext
    | Unrecognized(tag: string)

  /** The wire spelling of each intent. */
  function TagOf(i: Intent): string {
    match i
    case CourseInfo => "COURSE_INFO"
    case MaterialSearch => "MATERIAL_SEARCH"
    case PastQuestions => "PAST_QUESTIONS"
    case StudyAdvice => "STUDY_ADVICE"
    case GeneralChat => "GENERAL_CHAT"
    case SetContext => "SET_CONTEXT"
    case Unrecognized(tag) => tag
  }

  predicate KnownTag(tag: string) {
    tag in {"COURSE_INFO", "MATERIAL_SEARCH", "PAST_QUESTIONS", "STUDY_ADVICE", "GENERAL_CHAT", "SET_CONTEXT"}
  }

  /** An unknown tag never spells one of the known ones. */
  predicate WellFormedIntent(i: Intent) {
    i.Unrecognized? ==> !KnownTag(i.tag)
  }

  /** Reads the tag the oracle returned: a known spelling selects its case of
      the switch, anything else matches none of them. */
  function ParseIntent(tag: string): (i: Intent)
    ensures WellFormedIntent(i)
    ensures TagOf(i) == tag
    ensures i.Unrecognized? <==> !KnownTag(tag)
  {
    if tag == "COURSE_INFO" then CourseInfo
    else if tag == "MATERIAL_SEARCH" then MaterialSearch
    else if tag == "PAST_QUESTIONS" then PastQuestions
    else if tag == "STUDY_ADVICE" then StudyAdvice
    else if tag == "GENERAL_CHAT" then GeneralChat
    else if tag == "SET_CONTEXT" then SetContext
    else Unrecognized(tag)
  }

  /** The intents an oracle reply can carry: exactly the values `ParseIntent`
      yields, one per tag string. */
  type ResponseIntent = i: Intent | WellFormedIntent(i) witness CourseInfo

  /** Every well-formed intent is read back from its own spelling. */
  lemma ParseTagOf(i: Intent)
    requires WellFormedIntent(i)
    ensures ParseIntent(TagOf(i)) == i
  {
  }

  /** The `data` attached to a message: `null`/absent, or a result list. */
  datatype Payload =
    | NoData
    | CourseList(courses: seq<Course>)
    | MaterialList(materials: seq<StudyMaterial>)
    | PastQuestionList(pastQuestions: seq<PastQuestion>)

  /** A transcript entry; its timestamp is not modelled. */
  datatype Message = Message(role: Role, content: string, intent: Option<Intent>, data: Payload)

  /** The parameters the oracle extracted from the user's text. */
  datatype Parameters = Parameters(
    department: Option<string>,
    level: Option<string>,
    courseCode: Option<string>)

  /** The parsed oracle reply; `parameters` may be missing from the JSON. */
  datatype AIResponse = AIResponse(answer: string, intent: ResponseIntent, parameters: Option<Parameters>)

  /** JavaScript truthiness of an optional string: present and non-empty. */
  predicate Present(o: Option<string>) {
    o.Some? && o.value != ""
  }
}
