/**
 * The simulated academic provider (services/powerschoolService.ts): a credential check,
 * a fixed four-student roster and a table of academic records keyed by student id.
 * The simulated network delay of every call is modelled as an immediate return.
 */
module PowerSchoolService {
  import opened Types

  /** MOCK_STUDENTS: the roster, in display order. */
  const Roster: seq<Student> := [
    Student("101", "John Doe"),
    Student("102", "Jane Smith"),
    Student("103", "Peter Jones"),
    Student("104", "Mary Williams")
  ]

  /** The entries of MOCK_STUDENT_DATA, each exactly as the template literal spells it. */
  const AcademicRecord101: string := @"
    Subject: Math
    Grade: B+ (88%)
    Teacher Comments: John consistently participates in class discussions. Struggles with complex algebraic concepts but shows improvement.
    ---
    Subject: English Language Arts
    Grade: A- (92%)
    Teacher Comments: Excellent reading comprehension. Needs to work on providing more detailed evidence in analytical essays.
    ---
    Attendance:
    Absences: 2 (excused)
    Tardies: 1
  "

  const AcademicRecord102: string := @"
    Subject: Math
    Grade: A (95%)
    Teacher Comments: Jane has a strong grasp of all mathematical concepts and often helps her peers.
    ---
    Subject: English Language Arts
    Grade: A (96%)
    Teacher Comments: A talented writer with a creative voice. Consistently submits high-quality work.
    ---
    Attendance:
    Absences: 0
    Tardies: 0
  "

  const AcademicRecord103: string := @"
    Subject: Science
    Grade: C (75%)
    Teacher Comments: Peter shows curiosity but needs to improve his study habits for tests. Lab work is satisfactory.
    ---
    Subject: Social Studies
    Grade: B (85%)
    Teacher Comments: Engages well with historical topics. Written assignments are well-researched.
    ---
    Attendance:
    Absences: 4 (3 unexcused)
    Tardies: 3
  "

  const AcademicRecord104: string := @"
    Subject: Art
    Grade: A+ (99%)
    Teacher Comments: Mary is an exceptionally talented artist with a unique vision. A leader in the classroom.
    ---
    Subject: Physical Education
    Grade: B- (81%)
    Teacher Comments: Participates enthusiastically. Can work on teamwork skills during group sports.
    ---
    Attendance:
    Absences: 1 (excused)
    Tardies: 0
  "

  /** MOCK_STUDENT_DATA. */
  const AcademicTable: map<string, string> := map[
    "101" := AcademicRecord101,
    "102" := AcademicRecord102,
    "103" := AcademicRecord103,
    "104" := AcademicRecord104
  ]

  /** What getStudentData answers for an id the table does not know. */
  const NoAcademicData := "No data found for this student."

  /** connectToPowerSchool: succeeds exactly when all three credentials are non-empty. */
  function ConnectToPowerSchool(url: string, clientId: string, clientSecret: string): (ok: bool)
    ensures ok <==> url != "" && clientId != "" && clientSecret != ""
  {
    url != "" && clientId != "" && clientSecret != ""
  }

  /** getStudents: the roster, four students with distinct ids, each of them in the academic table. */
  function GetStudents(): (r: seq<Student>)
    ensures |r| == 4
    ensures r[0].id == "101" && r[1].id == "102" && r[2].id == "103" && r[3].id == "104"
    ensures r[0].name == "John Doe" && r[1].name == "Jane Smith"
    ensures r[2].name == "Peter Jones" && r[3].name == "Mary Williams"
    ensures forall i, j :: 0 <= i < j < |r| ==> r[i].id != r[j].id
    ensures forall s | s in r :: s.id in AcademicTable
  {
    Roster
  }

  /** getStudentData: the table entry for a known id, the fixed fallback otherwise; never empty. */
  function GetStudentData(studentId: string): (r: string)
    ensures studentId in AcademicTable ==> r == AcademicTable[studentId]
    ensures studentId !in AcademicTable ==> r == NoAcademicData
    ensures r != ""
  {
    LookupOr(AcademicTable, studentId, NoAcademicData)
  }

  /** The table is keyed by exactly the roster's ids and holds no empty entry. */
  lemma AcademicTableMatchesRoster()
    ensures AcademicTable.Keys == {"101", "102", "103", "104"}
    ensures AcademicTable.Keys == set s | s in Roster :: s.id
    ensures forall id | id in AcademicTable :: AcademicTable[id] != ""
  {
    assert forall id | id in AcademicTable :: id in set s | s in Roster :: s.id by {
      assert Roster[0].id == "101" && Roster[1].id == "102";
      assert Roster[2].id == "103" && Roster[3].id == "104";
    }
  }
}
