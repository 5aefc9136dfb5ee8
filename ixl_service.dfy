/**
 * The simulated skills provider (components/icons/ixlService.ts, imported by the form as
 * services/ixlService): a two-field credential check and a table of skill records keyed by
 * student id. The simulated network delay is modelled as an immediate return.
 */
module IxlService {
  import opened Types

  /** The entries of MOCK_IXL_DATA, each exactly as the template literal spells it. */
  const SkillRecord101: string := @"
    Subject: Math
    Time Spent: 2h 15m
    Skills Mastered: 8
    Diagnostic Strand: Algebra - Score 680 (Working at Grade Level)
    Teacher Recommendation: Focus on ""Solving quadratic equations"".
  "

  const SkillRecord102: string := @"
    Subject: English Language Arts
    Time Spent: 3h 5m
    Skills Mastered: 12
    Diagnostic Strand: Reading Comprehension - Score 750 (Above Grade Level)
    Teacher Recommendation: Explore ""Analyzing informational texts"".
  "

  const SkillRecord103: string := @"
    Subject: Math
    Time Spent: 45m
    Skills Mastered: 2
    Diagnostic Strand: Geometry - Score 510 (Needs Improvement)
    Teacher Recommendation: Practice ""Understanding angles and lines"".
  "

  const SkillRecord104: string := @"
    Subject: Science
    Time Spent: 1h 30m
    Skills Mastered: 6
    Diagnostic Strand: Life Science - Score 710 (Proficient)
    Teacher Recommendation: Challenge with ""Ecosystem dynamics"".
  "

  /** MOCK_IXL_DATA. */
  const SkillTable: map<string, string> := map[
    "101" := SkillRecord101,
    "102" := SkillRecord102,
    "103" := SkillRecord103,
    "104" := SkillRecord104
  ]

  /** What getStudentIXLData answers for an id the table does not know. */
  const NoSkillData := "No IXL data found for this student."

  /** connectToIXL: succeeds exactly when both the username and the secret are non-empty. */
  function ConnectToIxl(username: string, secret: string): (ok: bool)
    ensures ok <==> username != "" && secret != ""
  {
    username != "" && secret != ""
  }

  /** getStudentIXLData: the table entry for a known id, the fixed fallback otherwise; never empty. */
  function GetStudentIxlData(studentId: string): (r: string)
    ensures studentId in SkillTable ==> r == SkillTable[studentId]
    ensures studentId !in SkillTable ==> r == NoSkillData
    ensures r != ""
  {
    LookupOr(SkillTable, studentId, NoSkillData)
  }

  /** The table is keyed by exactly '101'..'104' and holds no empty entry. */
  lemma SkillTableKeys()
    ensures SkillTable.Keys == {"101", "102", "103", "104"}
    ensures forall id | id in SkillTable :: SkillTable[id] != ""
  {
  }
}
