/**
 * The simulated behaviour-notes provider (services/behaviorService.ts): a connect call that
 * needs no credential and a table of observation notes keyed by student id. The simulated
 * network delay is modelled as an immediate return.
 */
module BehaviorService {
  import opened Types

  /** The entries of MOCK_BEHAVIOR_DATA, each exactly as the template literal spells it. */
  const BehaviorRecord101: string := @"
      Observation Date: 2023-10-26
      Observer: Mrs. Davis
      Notes: John was highly engaged during the group activity on historical documents. He helped his peers understand the task. However, he was distracted during independent reading time and needed several reminders to stay on task.
    "

  const BehaviorRecord102: string := @"
      Observation Date: 2023-10-25
      Observer: Mr. Smith
      Notes: Jane consistently demonstrates leadership qualities. She is respectful to peers and teachers and takes initiative in classroom management. An exemplary role model.
    "

  const BehaviorRecord103: string := @"
      Observation Date: 2023-10-24
      Observer: Mrs. Davis
      Notes: Peter seems withdrawn and has not been participating in class discussions. He has submitted his last two assignments late. Recommend a student-teacher check-in.
    "

  const BehaviorRecord104: string := @"
      Observation Date: 2023-10-27
      Observer: Mr. Thompson
      Notes: Mary shows great enthusiasm and creativity. She can sometimes get overly excited and talk over her peers during group work. Needs gentle reminders about active listening.
    "

  /** MOCK_BEHAVIOR_DATA. */
  const BehaviorTable: map<string, string> := map[
    "101" := BehaviorRecord101,
    "102" := BehaviorRecord102,
    "103" := BehaviorRecord103,
    "104" := BehaviorRecord104
  ]

  /** What getStudentBehaviorData answers for an id the table does not know. */
  const NoBehaviorData := "No behavioral notes found for this student."

  /** connectToBehaviorSystem: takes nothing and always succeeds. */
  function ConnectToBehaviorSystem(): (ok: bool)
    ensures ok
  {
    true
  }

  /** getStudentBehaviorData: the table entry for a known id, the fixed fallback otherwise; never empty. */
  function GetStudentBehaviorData(studentId: string): (r: string)
    ensures studentId in BehaviorTable ==> r == BehaviorTable[studentId]
    ensures studentId !in BehaviorTable ==> r == NoBehaviorData
    ensures r != ""
  {
    LookupOr(BehaviorTable, studentId, NoBehaviorData)
  }

  /** The table is keyed by exactly '101'..'104' and holds no empty entry. */
  lemma BehaviorTableKeys()
    ensures BehaviorTable.Keys == {"101", "102", "103", "104"}
    ensures forall id | id in BehaviorTable :: BehaviorTable[id] != ""
  {
  }
}
