/** The four read-only catalog queries. Each takes the catalog it searches, so
    that its properties hold of any catalog; the chat handler passes the
    fixed arrays of `Constants`. The simulated latency is not modelled. */
module DbService {
  import opened Wrappers
  import opened Text
  import opened Filtering
  import opened Types
  import opened Constants

  /** The `getCourses` filter: an absent or empty department or level does
      not constrain; a department matches as a case-insensitive substring, a
      level exactly. */
  predicate CourseMatches(c: Course, department: Option<string>, level: Option<string>) {
    && (!Present(department) || Contains(ToLower(c.department), ToLower(department.value)))
    && (!Present(level) || c.level == level.value)
  }

  function CourseFilter(department: Option<string>, level: Option<string>): Course -> bool {
    (c: Course) => CourseMatches(c, department, level)
  }

  /** `getCourses(department?, level?)` */
  function GetCourses(catalog: seq<Course>, department: Option<string>, level: Option<string>): seq<Course> {
    Filter(catalog, CourseFilter(department, level))
  }

  /** `getCourses` returns exactly the catalog courses whose department
      contains the query ignoring case and whose level equals the given one,
      each as often as in the catalog, in catalog order. */
  lemma GetCoursesSpec(catalog: seq<Course>, department: Option<string>, level: Option<string>)
    ensures forall c ::
              c in GetCourses(catalog, department, level) <==>
                && c in catalog
                && (Present(department) ==> Contains(ToLower(c.department), ToLower(department.value)))
                && (Present(level) ==> c.level == level.value)
    ensures forall c ::
              multiset(GetCourses(catalog, department, level))[c] == if CourseMatches(c, department, level) then multiset(catalog)[c] else 0
    ensures IsSubsequence(GetCourses(catalog, department, level), catalog)
  {
    var p := CourseFilter(department, level);
    FilterMembers(catalog, p);
    FilterMultiplicity(catalog, p);
    FilterSubsequence(catalog, p);
  }

  /** With neither a department nor a level, every course comes back in
      catalog order. */
  lemma GetCoursesUnfiltered(catalog: seq<Course>, department: Option<string>, level: Option<string>)
    requires !Present(department) && !Present(level)
    ensures GetCourses(catalog, department, level) == catalog
  {
    FilterKeepsAll(catalog, CourseFilter(department, level));
  }

  /** Adding a level to a department query keeps a subsequence of the
      department-only result, so never a larger one. */
  lemma GetCoursesLevelNarrows(catalog: seq<Course>, department: Option<string>, level: string)
    ensures IsSubsequence(GetCourses(catalog, department, Some(level)), GetCourses(catalog, department, None))
    ensures |GetCourses(catalog, department, Some(level))| <= |GetCourses(catalog, department, None)|
  {
    FilterNarrows(catalog, CourseFilter(department, Some(level)), CourseFilter(department, None));
  }

  /** `getMaterials` and `getPastQuestions` compare codes after `toUpperCase`. */
  predicate SameCode(code: string, query: string) {
    EqualsIgnoringCase(code, query)
  }

  function MaterialFilter(courseCode: string): StudyMaterial -> bool {
    (m: StudyMaterial) => SameCode(m.courseCode, courseCode)
  }

  /** `getMaterials(courseCode)` */
  function GetMaterials(catalog: seq<StudyMaterial>, courseCode: string): seq<StudyMaterial> {
    Filter(catalog, MaterialFilter(courseCode))
  }

  /** `getMaterials` returns exactly the catalog materials whose course code
      equals the query ignoring case, each as often as in the catalog, in
      catalog order. */
  lemma GetMaterialsSpec(catalog: seq<StudyMaterial>, courseCode: string)
    ensures forall m :: m in GetMaterials(catalog, courseCode) <==> m in catalog && ToUpper(m.courseCode) == ToUpper(courseCode)
    ensures forall m ::
              multiset(GetMaterials(catalog, courseCode))[m] == if SameCode(m.courseCode, courseCode) then multiset(catalog)[m] else 0
    ensures IsSubsequence(GetMaterials(catalog, courseCode), catalog)
  {
    var p := MaterialFilter(courseCode);
    FilterMembers(catalog, p);
    FilterMultiplicity(catalog, p);
    FilterSubsequence(catalog, p);
  }

  /** Two spellings of a code that differ only in case find the same materials. */
  lemma GetMaterialsIgnoresCase(catalog: seq<StudyMaterial>, a: string, b: string)
    requires ToUpper(a) == ToUpper(b)
    ensures GetMaterials(catalog, a) == GetMaterials(catalog, b)
  {
    FilterCongruent(catalog, MaterialFilter(a), MaterialFilter(b));
  }

  function PastQuestionFilter(courseCode: string): PastQuestion -> bool {
    (q: PastQuestion) => SameCode(q.courseCode, courseCode)
  }

  /** `getPastQuestions(courseCode)` */
  function GetPastQuestions(catalog: seq<PastQuestion>, courseCode: string): seq<PastQuestion> {
    Filter(catalog, PastQuestionFilter(courseCode))
  }

  /** `getPastQuestions` returns exactly the catalog past questions whose course code
      equals the query ignoring case, each as often as in the catalog, in
      catalog order. */
  lemma GetPastQuestionsSpec(catalog: seq<PastQuestion>, courseCode: string)
    ensures forall q :: q in GetPastQuestions(catalog, courseCode) <==> q in catalog && ToUpper(q.courseCode) == ToUpper(courseCode)
    ensures forall q ::
              multiset(GetPastQuestions(catalog, courseCode))[q] == if SameCode(q.courseCode, courseCode) then multiset(catalog)[q] else 0
    ensures IsSubsequence(GetPastQuestions(catalog, courseCode), catalog)
  {
    var p := PastQuestionFilter(courseCode);
    FilterMembers(catalog, p);
    FilterMultiplicity(catalog, p);
    FilterSubsequence(catalog, p);
  }

  /** Two spellings of a code that differ only in case find the same papers. */
  lemma GetPastQuestionsIgnoresCase(catalog: seq<PastQuestion>, a: string, b: string)
    requires ToUpper(a) == ToUpper(b)
    ensures GetPastQuestions(catalog, a) == GetPastQuestions(catalog, b)
  {
    FilterCongruent(catalog, PastQuestionFilter(a), PastQuestionFilter(b));
  }

  /** A code the catalog does not know yields the empty list, not an error. */
  lemma GetPastQuestionsUnknownCode(catalog: seq<PastQuestion>, courseCode: string)
    requires forall i | 0 <= i < |catalog| :: ToUpper(catalog[i].courseCode) != ToUpper(courseCode)
    ensures GetPastQuestions(catalog, courseCode) == []
  {
    FilterDropsAll(catalog, PastQuestionFilter(courseCode));
  }

  /** The advice table of `getStudyAdvice`, keyed by level. */
  const AdviceMap: map<string, string> := map[
    "100L" := "Welcome to University life! Focus on building a strong foundation in Mathematics and General Studies. Join a study group early.",
    "200L" := "This is the foundation year for your core engineering courses. Don't lag behind in Laboratory work.",
    "300L" := "The workload increases here. Focus on mastering professional software and hardware tools related to your major.",
    "400L" := "Industrial Training (IT) year! Start looking for placement early. Balance your academics with practical experience.",
    "500L" := "Final lap! Your Project is paramount. Manage your time strictly between seminars and core specialized courses."
  ]

  const GenericAdvice := "Stay focused on your studies and ask for help when needed."

  /** `getStudyAdvice(level)`: the table entry, or the generic sentence when
      the lookup gives nothing truthy. */
  function GetStudyAdvice(level: string): (r: string)
    ensures r != ""
    ensures level in AdviceMap ==> r == AdviceMap[level]
    ensures level !in AdviceMap ==> r == GenericAdvice
  {
    if level in AdviceMap && AdviceMap[level] != "" then AdviceMap[level] else GenericAdvice
  }

  /** Exactly the five levels "100L".."500L" get advice of their own. */
  lemma StudyAdviceKnownLevels(level: string)
    ensures GetStudyAdvice(level) != GenericAdvice <==> level in {"100L", "200L", "300L", "400L", "500L"}
  {
  }
}
