/**
 * The prompt builder and the generation client (services/geminiService.ts).
 *
 * `Prompt` is the template of generatePrompt, written as a sequence of fixed fragments and
 * substituted fields; the lemmas locate each substituted field and each section heading in
 * the resulting string. `GenerateReport` is generateReport with the hosted model abstracted:
 * the access key is an optional parameter and the remote call's outcome is a parameter.
 */
module GeminiService {
  import opened Types

  // The fixed text of the template, cut at every substitution and at every section heading.
  const Intro: string := @"
    **Role:** You are an experienced educator specializing in writing insightful, constructive, and well-structured student progress reports.

    **Task:** Analyze the provided data for a student named **"

  const TaskAndAcademicHeader: string := @"** and generate a comprehensive progress report. The report should synthesize all information into a coherent narrative.

    **Tone:** Professional, encouraging, and supportive. Focus on growth and actionable feedback. Avoid overly negative language.

    **Input Data:**

    *   **PowerSchool Data (Grades, Attendance, etc.):**
        ```
        "

  const SkillHeader: string := @"
        ```

    *   **IXL Data (Skills Mastered, Time Spent, etc.):**
        ```
        "

  const BehaviorHeader: string := @"
        ```

    *   **Teacher's Behavioral Notes:**
        ```
        "

  const FocusHeader: string := @"
        ```
    
    *   **Specific Focus Area/Concern from Teacher:**
        ```
        "

  const FormatHeader: string := @"
        ```

    **Required Output Format:**

    Generate the report using Markdown. The report MUST include the following sections in this exact order:

    ### **Progress Report: "

  const TitleEnd: string := @"**

    "

  const Heading1: string := "#### **I. Overall Summary**"

  const Guidance1: string := @"
    *A brief, high-level overview of the student's progress this period, touching upon academic, skill, and behavioral aspects.*

    "

  const Heading2: string := "#### **II. Academic Performance (based on PowerSchool)**"

  const Guidance2: string := @"
    *Analyze the grades, identify trends (e.g., improvement in Math, decline in ELA), and comment on attendance if relevant. Be specific.*

    "

  const Heading3: string := "#### **III. Skill Development (based on IXL)**"

  const Guidance3: string := @"
    *Interpret the IXL data. Comment on areas of strength, skills mastered, effort (time spent), and any persistent challenges. Connect this to classroom performance where possible.*

    "

  const Heading4: string := "#### **IV. Classroom Behavior & Social-Emotional Growth**"

  const Guidance4: string := @"
    *Synthesize the behavioral notes into a paragraph describing the student's conduct, participation, collaboration with peers, and attitude towards learning.*

    "

  const Heading5: string := "#### **V. Key Strengths**"

  const Guidance5: string := @"
    *A bulleted list of 3-5 key positive attributes, skills, or behaviors observed.*
    *   Example: - Proactive in seeking help.
    *   Example: - Demonstrates strong analytical skills in science.

    "

  const Heading6: string := "#### **VI. Areas for Growth & Recommendations**"

  const Guidance6: string := @"
    *A bulleted list of 3-5 constructive, actionable suggestions for the student, parents, and teacher to support continued development.*
    *   Example: - **For Student:** Practice IXL math skills for 15 minutes daily.
    *   Example: - **For Parents:** Review the student's planner each evening to ensure homework is complete.
    *   Example: - **For Teacher:** Provide more opportunities for leadership roles in group projects.
  "

  /** The placeholders that stand in for empty data fields. */
  const NoAcademicPlaceholder := "No PowerSchool data provided."
  const NoSkillPlaceholder := "No IXL data provided."
  const NoBehaviorPlaceholder := "No behavioral notes provided."
  const NoFocusPlaceholder := "No specific focus area provided."

  /** The six headings the prompt asks for, in the order it asks for them. */
  const SectionHeadings: seq<string> := [Heading1, Heading2, Heading3, Heading4, Heading5, Heading6]

  /** Positions of the substituted values among the template's parts. */
  const NameSlot := 1
  const AcademicSlot := 3
  const SkillSlot := 5
  const BehaviorSlot := 7
  const FocusSlot := 9
  const TitleNameSlot := 11
  const PartCount := 25

  /** Position of the k-th section heading among the template's parts. */
  function HeadingSlot(k: nat): nat
  {
    13 + 2 * k
  }

  /** The template's parts in order: fixed fragments interleaved with the five fields. */
  function Parts(d: StudentData): (p: seq<string>)
    ensures |p| == PartCount
  {
    [ Intro, d.studentName, TaskAndAcademicHeader,
      OrElse(d.powerschoolData, NoAcademicPlaceholder), SkillHeader,
      OrElse(d.ixlData, NoSkillPlaceholder), BehaviorHeader,
      OrElse(d.behaviorData, NoBehaviorPlaceholder), FocusHeader,
      OrElse(d.focusArea, NoFocusPlaceholder), FormatHeader,
      d.studentName, TitleEnd,
      Heading1, Guidance1, Heading2, Guidance2, Heading3, Guidance3,
      Heading4, Guidance4, Heading5, Guidance5, Heading6, Guidance6 ]
  }

  /** generatePrompt: the template with the five fields substituted. */
  function Prompt(d: StudentData): string
  {
    Concat(Parts(d))
  }

  /** Where part k of the template starts in the joined string. */
  function Offset(parts: seq<string>, k: nat): nat
    requires k <= |parts|
  {
    |Concat(parts[..k])|
  }

  /** Part k of the template is found in the joined string at its offset. */
  lemma {:induction false} PartAt(parts: seq<string>, k: nat)
    requires k < |parts|
    ensures Offset(parts, k) + |parts[k]| == Offset(parts, k + 1) <= |Concat(parts)|
    ensures Concat(parts)[Offset(parts, k)..Offset(parts, k + 1)] == parts[k]
  {
    assert parts[..k + 1] == parts[..k] + [parts[k]];
    ConcatAppend(parts[..k], [parts[k]]);
    assert Concat([parts[k]]) == parts[k] + Concat([]);
    assert parts == parts[..k + 1] + parts[k + 1..];
    ConcatAppend(parts[..k + 1], parts[k + 1..]);
  }

  /** Where part k of the prompt for `d` starts. */
  function SlotStart(d: StudentData, k: nat): nat
    requires k <= PartCount
  {
    Offset(Parts(d), k)
  }

  /** The text the prompt for `d` holds at part k. */
  function SlotText(d: StudentData, k: nat): string
    requires k < PartCount
  {
    PartAt(Parts(d), k);
    Prompt(d)[SlotStart(d, k)..SlotStart(d, k + 1)]
  }

  /** The text at part k is part k of the template. */
  lemma SlotTextIsPart(d: StudentData, k: nat)
    requires k < PartCount
    ensures SlotText(d, k) == Parts(d)[k]
  {
    PartAt(Parts(d), k);
  }

  /** Each data block holds its field verbatim, or that field's placeholder when the field is empty. */
  lemma DataBlocks(d: StudentData)
    ensures SlotText(d, AcademicSlot) == if d.powerschoolData == "" then NoAcademicPlaceholder else d.powerschoolData
    ensures SlotText(d, SkillSlot) == if d.ixlData == "" then NoSkillPlaceholder else d.ixlData
    ensures SlotText(d, BehaviorSlot) == if d.behaviorData == "" then NoBehaviorPlaceholder else d.behaviorData
    ensures SlotText(d, FocusSlot) == if d.focusArea == "" then NoFocusPlaceholder else d.focusArea
    ensures SlotText(d, AcademicSlot) != "" && SlotText(d, SkillSlot) != ""
    ensures SlotText(d, BehaviorSlot) != "" && SlotText(d, FocusSlot) != ""
  {
    SlotTextIsPart(d, AcademicSlot);
    SlotTextIsPart(d, SkillSlot);
    SlotTextIsPart(d, BehaviorSlot);
    SlotTextIsPart(d, FocusSlot);
  }

  /** The student's name is inserted verbatim, with no placeholder, in the task line and in the title line. */
  lemma StudentNameVerbatim(d: StudentData)
    ensures SlotText(d, NameSlot) == d.studentName
    ensures SlotText(d, TitleNameSlot) == d.studentName
    ensures SlotStart(d, 0) == 0 && SlotText(d, 0) == Intro
    ensures SlotText(d, TitleNameSlot - 1) == FormatHeader
  {
    assert Parts(d)[..0] == [];
    SlotTextIsPart(d, 0);
    SlotTextIsPart(d, NameSlot);
    SlotTextIsPart(d, TitleNameSlot - 1);
    SlotTextIsPart(d, TitleNameSlot);
  }

  /** Where the k-th section heading starts in the prompt for `d`. */
  function SectionStart(d: StudentData, k: nat): nat
    requires k < |SectionHeadings|
  {
    SlotStart(d, HeadingSlot(k))
  }

  /** Part 13 + 2k of the template is the k-th heading, and the part after it is non-empty guidance. */
  lemma HeadingPart(d: StudentData, k: nat)
    requires k < |SectionHeadings|
    ensures Parts(d)[HeadingSlot(k)] == SectionHeadings[k]
    ensures Parts(d)[HeadingSlot(k) + 1] != ""
  {
    if k == 0 {} else if k == 1 {} else if k == 2 {} else if k == 3 {} else if k == 4 {} else {}
  }

  /** The k-th heading sits at its part of the template, and a non-empty guidance text follows it. */
  lemma HeadingAt(d: StudentData, k: nat)
    requires k < |SectionHeadings|
    ensures SlotText(d, HeadingSlot(k)) == SectionHeadings[k]
    ensures SlotStart(d, HeadingSlot(k)) + |SectionHeadings[k]| < SlotStart(d, HeadingSlot(k) + 2)
  {
    HeadingPart(d, k);
    SlotTextIsPart(d, HeadingSlot(k));
    PartAt(Parts(d), HeadingSlot(k));
    PartAt(Parts(d), HeadingSlot(k) + 1);
  }

  /** The title line and the first heading come after the focus-area block. */
  lemma OutlineAfterDataBlocks(d: StudentData)
    ensures SlotStart(d, FocusSlot + 1) < SectionStart(d, 0)
  {
    var p := Parts(d);
    PartAt(p, FocusSlot + 1);
    PartAt(p, FocusSlot + 2);
    PartAt(p, FocusSlot + 3);
  }

  /**
   * The six section headings appear in the prompt in their fixed order, each strictly after
   * the previous one and all of them after the last data block, whatever the fields hold.
   */
  lemma HeadingsInOrder(d: StudentData)
    ensures forall k | 0 <= k < |SectionHeadings| :: SlotText(d, HeadingSlot(k)) == SectionHeadings[k]
    ensures forall k | 0 <= k < |SectionHeadings| - 1 ::
      SectionStart(d, k) + |SectionHeadings[k]| < SectionStart(d, k + 1)
    ensures SlotStart(d, FocusSlot + 1) < SectionStart(d, 0)
  {
    forall k | 0 <= k < |SectionHeadings|
      ensures SlotText(d, HeadingSlot(k)) == SectionHeadings[k]
      ensures k + 1 < |SectionHeadings| ==> SectionStart(d, k) + |SectionHeadings[k]| < SectionStart(d, k + 1)
    {
      HeadingAt(d, k);
    }
    OutlineAfterDataBlocks(d);
  }

  /** Two part lists of equal length that agree outside k and join to the same string agree at k. */
  lemma {:induction false} SameJoinSamePart(p1: seq<string>, p2: seq<string>, k: nat)
    requires |p1| == |p2| && k < |p1|
    requires p1[..k] == p2[..k] && p1[k + 1..] == p2[k + 1..]
    requires Concat(p1) == Concat(p2)
    ensures p1[k] == p2[k]
  {
    PartAt(p1, k);
    PartAt(p2, k);
    assert p1 == p1[..k + 1] + p1[k + 1..];
    assert p2 == p2[..k + 1] + p2[k + 1..];
    ConcatAppend(p1[..k + 1], p1[k + 1..]);
    ConcatAppend(p2[..k + 1], p2[k + 1..]);
  }

  /** Inputs that differ in the academic field only hold the same academic block if their prompts agree. */
  lemma SameAcademicBlock(d1: StudentData, d2: StudentData)
    requires Prompt(d1) == Prompt(d2) && d1.(powerschoolData := d2.powerschoolData) == d2
    ensures OrElse(d1.powerschoolData, NoAcademicPlaceholder) == OrElse(d2.powerschoolData, NoAcademicPlaceholder)
  {
    assert Parts(d1)[..AcademicSlot] == Parts(d2)[..AcademicSlot];
    assert Parts(d1)[AcademicSlot + 1..] == Parts(d2)[AcademicSlot + 1..];
    SameJoinSamePart(Parts(d1), Parts(d2), AcademicSlot);
  }

  /** Inputs that differ in the skills field only hold the same skills block if their prompts agree. */
  lemma SameSkillBlock(d1: StudentData, d2: StudentData)
    requires Prompt(d1) == Prompt(d2) && d1.(ixlData := d2.ixlData) == d2
    ensures OrElse(d1.ixlData, NoSkillPlaceholder) == OrElse(d2.ixlData, NoSkillPlaceholder)
  {
    assert Parts(d1)[..SkillSlot] == Parts(d2)[..SkillSlot];
    assert Parts(d1)[SkillSlot + 1..] == Parts(d2)[SkillSlot + 1..];
    SameJoinSamePart(Parts(d1), Parts(d2), SkillSlot);
  }

  /** Inputs that differ in the behaviour field only hold the same behaviour block if their prompts agree. */
  lemma SameBehaviorBlock(d1: StudentData, d2: StudentData)
    requires Prompt(d1) == Prompt(d2) && d1.(behaviorData := d2.behaviorData) == d2
    ensures OrElse(d1.behaviorData, NoBehaviorPlaceholder) == OrElse(d2.behaviorData, NoBehaviorPlaceholder)
  {
    assert Parts(d1)[..BehaviorSlot] == Parts(d2)[..BehaviorSlot];
    assert Parts(d1)[BehaviorSlot + 1..] == Parts(d2)[BehaviorSlot + 1..];
    SameJoinSamePart(Parts(d1), Parts(d2), BehaviorSlot);
  }

  /** Inputs that differ in the focus field only hold the same focus block if their prompts agree. */
  lemma SameFocusBlock(d1: StudentData, d2: StudentData)
    requires Prompt(d1) == Prompt(d2) && d1.(focusArea := d2.focusArea) == d2
    ensures OrElse(d1.focusArea, NoFocusPlaceholder) == OrElse(d2.focusArea, NoFocusPlaceholder)
  {
    assert Parts(d1)[..FocusSlot] == Parts(d2)[..FocusSlot];
    assert Parts(d1)[FocusSlot + 1..] == Parts(d2)[FocusSlot + 1..];
    SameJoinSamePart(Parts(d1), Parts(d2), FocusSlot);
  }

  /**
   * Fields are inserted verbatim, so the prompt determines each data block: two inputs that differ
   * in one data field only and yield the same prompt hold the same text in that block.
   */
  lemma PromptDeterminesDataBlocks(d1: StudentData, d2: StudentData)
    requires Prompt(d1) == Prompt(d2)
    ensures d1.(powerschoolData := d2.powerschoolData) == d2 ==>
      OrElse(d1.powerschoolData, NoAcademicPlaceholder) == OrElse(d2.powerschoolData, NoAcademicPlaceholder)
    ensures d1.(ixlData := d2.ixlData) == d2 ==>
      OrElse(d1.ixlData, NoSkillPlaceholder) == OrElse(d2.ixlData, NoSkillPlaceholder)
    ensures d1.(behaviorData := d2.behaviorData) == d2 ==>
      OrElse(d1.behaviorData, NoBehaviorPlaceholder) == OrElse(d2.behaviorData, NoBehaviorPlaceholder)
    ensures d1.(focusArea := d2.focusArea) == d2 ==>
      OrElse(d1.focusArea, NoFocusPlaceholder) == OrElse(d2.focusArea, NoFocusPlaceholder)
  {
    if d1.(powerschoolData := d2.powerschoolData) == d2 { SameAcademicBlock(d1, d2); }
    if d1.(ixlData := d2.ixlData) == d2 { SameSkillBlock(d1, d2); }
    if d1.(behaviorData := d2.behaviorData) == d2 { SameBehaviorBlock(d1, d2); }
    if d1.(focusArea := d2.focusArea) == d2 { SameFocusBlock(d1, d2); }
  }

  /** The hosted model's answer to the one request, as the caller observes it. */
  datatype RemoteOutcome = Responded(text: string) | RemoteFailed

  const MissingKeyMessage := "API key is not configured"
  const RequestFailedMessage := "Failed to generate report. The API may be unavailable or the request was invalid."

  /**
   * generateReport: without a usable key it fails before any request is built or sent; otherwise
   * it sends the prompt for `data` once, returns the answer's text unmodified, and turns any
   * remote failure into one fixed message. `sent` is the prompt the remote call received, if any.
   */
  method GenerateReport(data: StudentData, apiKey: Option<string>, remote: RemoteOutcome)
    returns (result: Result<string>, sent: Option<string>)
    ensures apiKey == None || apiKey == Some("") ==> sent == None && result == Failure(MissingKeyMessage)
    ensures apiKey.Some? && apiKey.value != "" ==> sent == Some(Prompt(data))
    ensures apiKey.Some? && apiKey.value != "" && remote.Responded? ==> result == Success(remote.text)
    ensures apiKey.Some? && apiKey.value != "" && remote.RemoteFailed? ==> result == Failure(RequestFailedMessage)
  {
    if apiKey.None? || apiKey.value == "" {
      return Failure(MissingKeyMessage), None;
    }
    var prompt := Prompt(data);
    sent := Some(prompt);
    match remote
    case Responded(text) =>
      result := Success(text);
    case RemoteFailed =>
      result := Failure(RequestFailedMessage);
  }
}
