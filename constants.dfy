/** The fixed catalog the queries run over. */
module Constants {
  import opened Types

  const MockCourses: seq<Course> := [
    Course("1", "CPE 301", "Signals and Systems", 3, "300L", "Computer Engineering",
           "Introduction to continuous and discrete time signals."),
    Course("2", "CPE 302", "Digital System Design", 3, "300L", "Computer Engineering",
           "Design of complex digital circuits using VHDL."),
    Course("3", "CPE 409", "Computer Architecture", 4, "400L", "Computer Engineering",
           "Deep dive into CPU design and memory hierarchy."),
    Course("4", "MTH 101", "Elementary Mathematics I", 3, "100L", "All Engineering",
           "Calculus and algebra fundamentals."),
    Course("5", "EEE 201", "Applied Electricity", 3, "200L", "Electrical Engineering",
           "Basic circuit theory and applications.")
  ]

  const MockMaterials: seq<StudyMaterial> := [
    StudyMaterial("m1", "CPE 301", "Signals & Systems Lecture Note", Pdf, "#"),
    StudyMaterial("m2", "CPE 302", "VHDL Design Basics Video", Video, "#"),
    StudyMaterial("m3", "MTH 101", "Calculus Simplified", Notes, "#")
  ]

  const MockPastQuestions: seq<PastQuestion> := [
    PastQuestion("pq1", "CPE 409", 2022, First, "#"),
    PastQuestion("pq2", "CPE 409", 2021, First, "#"),
    PastQuestion("pq3", "CPE 301", 2023, Second, "#")
  ]

  /** The three record arrays the queries search. */
  const MockCatalog := Catalog(MockCourses, MockMaterials, MockPastQuestions)
}
