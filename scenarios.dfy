/** Worked turns over the fixed catalog. */
module Scenarios {
  import opened Wrappers
  import opened Text
  import opened Filtering
  import opened Types
  import opened Constants
  import opened DbService
  import opened ChatLogic

  /** "CPE 301" and "cpe 301" both find exactly the one lecture note. */
  lemma MaterialsForCpe301()
    ensures GetMaterials(MockMaterials, "CPE 301") == [MockMaterials[0]]
    ensures GetMaterials(MockMaterials, "cpe 301") == [MockMaterials[0]]
  {
    var q := "CPE 301";
    var p := MaterialFilter(q);
    assert p(MockMaterials[0]);
    DiffersIgnoringCaseAt("CPE 302", q, 6);
    DiffersIgnoringCaseAt("MTH 101", q, 0);
    assert Filter(MockMaterials[3..], p) == [];
    assert Filter(MockMaterials[2..], p) == [];
    assert Filter(MockMaterials[1..], p) == [];
    var a, b := ToUpper("cpe 301"), ToUpper(q);
    assert a[0] == b[0] && a[1] == b[1] && a[2] == b[2];
    GetMaterialsIgnoresCase(MockMaterials, "cpe 301", q);
  }

  /** A code the catalog lacks finds no material. */
  lemma MaterialsForCpe999()
    ensures GetMaterials(MockMaterials, "CPE 999") == []
  {
    var q := "CPE 999";
    var p := MaterialFilter(q);
    DiffersIgnoringCaseAt("CPE 301", q, 4);
    DiffersIgnoringCaseAt("CPE 302", q, 4);
    DiffersIgnoringCaseAt("MTH 101", q, 0);
    FilterDropsAll(MockMaterials, p);
  }

  /** Both CPE 409 papers come back, in catalog order; an unknown code gives
      the empty list. */
  lemma PastQuestionsForCpe409()
    ensures GetPastQuestions(MockPastQuestions, "CPE 409") == MockPastQuestions[..2]
    ensures GetPastQuestions(MockPastQuestions, "CPE 999") == []
  {
    var q := "CPE 409";
    var p := PastQuestionFilter(q);
    assert p(MockPastQuestions[0]) && p(MockPastQuestions[1]);
    DiffersIgnoringCaseAt("CPE 301", q, 4);
    assert Filter(MockPastQuestions[3..], p) == [];
    assert Filter(MockPastQuestions[2..], p) == [];
    var unknown := "CPE 999";
    DiffersIgnoringCaseAt("CPE 409", unknown, 4);
    DiffersIgnoringCaseAt("CPE 301", unknown, 4);
    GetPastQuestionsUnknownCode(MockPastQuestions, unknown);
  }

  /** "I am in 300L Computer Engineering": the context takes both values,
      no query is made and the reply is the oracle's acknowledgement alone. */
  lemma SetContextTurn(answer: string)
    ensures var outcome := Resolved(AIResponse(answer, SetContext,
              Some(Parameters(Some("Computer Engineering"), Some("300L"), None))));
      && NextContext(EmptyContext, outcome) == SessionContext(Some("Computer Engineering"), Some("300L"), None)
      && TurnQuery(outcome, EmptyContext) == None
      && Reply(MockCatalog, outcome, EmptyContext) == Message(Assistant, answer, Some(SetContext), NoData)
  {
    QuerylessIntentsAnswerOnly(MockCatalog, answer, SetContext,
      Some(Parameters(Some("Computer Engineering"), Some("300L"), None)), EmptyContext);
  }

  /** "materials for CPE 301": the matching record is attached and nothing
      is appended to the answer. */
  lemma MaterialFoundTurn(answer: string)
    ensures Reply(MockCatalog, Resolved(AIResponse(answer, MaterialSearch, Some(Parameters(None, None, Some("CPE 301"))))), EmptyContext)
         == Message(Assistant, answer, Some(MaterialSearch), MaterialList([MockMaterials[0]]))
  {
    MaterialsForCpe301();
  }

  /** "materials for CPE 999": the empty list is attached and the fallback
      sentence naming the code is appended. */
  lemma MaterialMissingTurn(answer: string)
    ensures Reply(MockCatalog, Resolved(AIResponse(answer, MaterialSearch, Some(Parameters(None, None, Some("CPE 999"))))), EmptyContext)
         == Message(Assistant, answer + "\n\nNo materials found for CPE 999.", Some(MaterialSearch), MaterialList([]))
  {
    MaterialsForCpe999();
  }

  /** A material search with no extracted code makes no query even when the
      context remembers a course code. */
  lemma MaterialSearchWithoutCodeTurn(answer: string)
    ensures var pre := SessionContext(None, None, Some("CPE 301"));
      var outcome := Resolved(AIResponse(answer, MaterialSearch, Some(Parameters(None, None, None))));
      && TurnQuery(outcome, pre) == None
      && Reply(MockCatalog, outcome, pre) == Message(Assistant, answer, Some(MaterialSearch), NoData)
  {
  }

  /** An oracle reply without `parameters` for a search intent ends in the
      apology, and the context is left as it was. */
  lemma MissingParametersTurn(answer: string, pre: SessionContext)
    ensures var outcome := Resolved(AIResponse(answer, PastQuestions, None));
      && Reply(MockCatalog, outcome, pre) == Apology()
      && NextContext(pre, outcome) == pre
  {
  }
}
