/**
 * The input panel (components/InputSection.tsx): credential forms and connect buttons for the
 * three providers, the student picker that fills the form from them, the focus-area box and the
 * generate button.
 *
 * The form's `studentData` belongs to the `App.AppState` the panel was created with; every
 * handler that calls `setStudentData` changes that object. Each async handler is split at its
 * await into a `Begin` and a `Finish` half; the settled promise is the `Finish` half's
 * parameter, and the `Handle` method runs both halves around the mock provider's answer.
 */
module InputSection {
  import opened Types
  import PowerSchoolService
  import IxlService
  import BehaviorService
  import GeminiService
  import App

  // ---------------------------------------------------------------------------------------
  // Form fields and credentials
  // ---------------------------------------------------------------------------------------

  /** The `name` of a form field: the keys of `StudentData`. */
  datatype Field = StudentName | PowerschoolData | IxlData | BehaviorData | FocusArea

  function Get(d: StudentData, f: Field): string
  {
    match f
    case StudentName => d.studentName
    case PowerschoolData => d.powerschoolData
    case IxlData => d.ixlData
    case BehaviorData => d.behaviorData
    case FocusArea => d.focusArea
  }

  /** `{ ...prev, [name]: value }`: the named field takes the value, no other field changes. */
  function WithField(d: StudentData, f: Field, value: string): (r: StudentData)
    ensures Get(r, f) == value
    ensures forall g: Field | g != f :: Get(r, g) == Get(d, g)
  {
    match f
    case StudentName => d.(studentName := value)
    case PowerschoolData => d.(powerschoolData := value)
    case IxlData => d.(ixlData := value)
    case BehaviorData => d.(behaviorData := value)
    case FocusArea => d.(focusArea := value)
  }

  datatype PsCredentials = PsCredentials(url: string, clientId: string, clientSecret: string)
  datatype PsField = Url | ClientId | ClientSecret

  function GetPs(c: PsCredentials, f: PsField): string
  {
    match f
    case Url => c.url
    case ClientId => c.clientId
    case ClientSecret => c.clientSecret
  }

  /** `{...prev, [name]: value}` on the PowerSchool credentials. */
  function WithPsField(c: PsCredentials, f: PsField, value: string): (r: PsCredentials)
    ensures GetPs(r, f) == value
    ensures forall g: PsField | g != f :: GetPs(r, g) == GetPs(c, g)
  {
    match f
    case Url => c.(url := value)
    case ClientId => c.(clientId := value)
    case ClientSecret => c.(clientSecret := value)
  }

  datatype IxlCredentials = IxlCredentials(username: string, secret: string)
  datatype IxlField = Username | Secret

  function GetIxl(c: IxlCredentials, f: IxlField): string
  {
    match f
    case Username => c.username
    case Secret => c.secret
  }

  /** `{...prev, [name]: value}` on the IXL credentials. */
  function WithIxlField(c: IxlCredentials, f: IxlField, value: string): (r: IxlCredentials)
    ensures GetIxl(r, f) == value
    ensures forall g: IxlField | g != f :: GetIxl(r, g) == GetIxl(c, g)
  {
    match f
    case Username => c.(username := value)
    case Secret => c.(secret := value)
  }

  const InitialPsCredentials :=
    PsCredentials("https://myschool.powerschool.com", "test-client-id", "test-client-secret")
  const InitialIxlCredentials := IxlCredentials("teacher@school.edu", "password123")

  const ConnectFailedMessage := "Connection failed. Please check credentials."
  const BehaviorConnectFailedMessage := "Connection failed."
  const ConnectErrorMessage := "An error occurred during connection."

  // ---------------------------------------------------------------------------------------
  // Selecting a student
  // ---------------------------------------------------------------------------------------

  /** `students.find(s => s.id === studentId)`: the first student with that id. */
  function FindStudent(students: seq<Student>, id: string): (r: Option<Student>)
    ensures r.Some? ==> r.value.id == id
    ensures r.Some? ==>
      exists i | 0 <= i < |students| :: students[i] == r.value && forall j | 0 <= j < i :: students[j].id != id
    ensures r.None? <==> forall i | 0 <= i < |students| :: students[i].id != id
  {
    if students == [] then None
    else if students[0].id == id then Some(students[0])
    else
      var r := FindStudent(students[1..], id);
      assert forall i | 0 <= i < |students| - 1 :: students[1..][i] == students[i + 1];
      if r.Some? then
        ghost var i :| 0 <= i < |students| - 1 && students[1..][i] == r.value &&
          forall j | 0 <= j < i :: students[1..][j].id != id;
        assert students[i + 1] == r.value && forall j | 0 <= j < i + 1 :: students[j].id != id;
        r
      else r
  }

  /** In a roster with distinct ids, each student is found by its own id. */
  lemma {:induction false} FindEachStudent(students: seq<Student>, k: nat)
    requires k < |students|
    requires forall i, j | 0 <= i < j < |students| :: students[i].id != students[j].id
    ensures FindStudent(students, students[k].id) == Some(students[k])
  {
    if k > 0 {
      var rest := students[1..];
      assert rest[k - 1] == students[k];
      assert forall i, j | 0 <= i < j < |rest| :: rest[i].id != rest[j].id by {
        forall i, j | 0 <= i < j < |rest| ensures rest[i].id != rest[j].id {
          assert rest[i] == students[i + 1] && rest[j] == students[j + 1];
        }
      }
      FindEachStudent(rest, k - 1);
      assert students[0].id != students[k].id;
    }
  }

  /** The mock providers a selection can ask. */
  datatype Provider = PowerSchool | Ixl | Behavior

  /** What each mock lookup resolves with for an id. */
  function Lookup(p: Provider, id: string): string
  {
    match p
    case PowerSchool => PowerSchoolService.GetStudentData(id)
    case Ixl => IxlService.GetStudentIxlData(id)
    case Behavior => BehaviorService.GetStudentBehaviorData(id)
  }

  /**
   * The providers `dataPromises` asks, in order (:144-146): PowerSchool always, then IXL when
   * connected, then behaviour when connected.
   */
  function Requests(ixlConnected: bool, behaviorConnected: bool): (r: seq<Provider>)
    ensures |r| == 1 + (if ixlConnected then 1 else 0) + (if behaviorConnected then 1 else 0)
    ensures r[0] == PowerSchool && PowerSchool !in r[1..]
    ensures Ixl in r <==> ixlConnected
    ensures Behavior in r <==> behaviorConnected
    ensures ixlConnected && behaviorConnected ==> r[1] == Ixl && r[2] == Behavior
    ensures !ixlConnected && behaviorConnected ==> r[1] == Behavior
  {
    [PowerSchool] + (if ixlConnected then [Ixl] else []) + (if behaviorConnected then [Behavior] else [])
  }

  /** What `Promise.all(dataPromises)` resolves with: each provider's answer, in request order. */
  function Fetched(requests: seq<Provider>, id: string): (r: seq<string>)
    ensures |r| == |requests|
    ensures forall i | 0 <= i < |r| :: r[i] == Lookup(requests[i], id)
  {
    seq(|requests|, i requires 0 <= i < |requests| => Lookup(requests[i], id))
  }

  /** What the handler holds across its await: the id, the roster match, the requests and flags. */
  datatype PendingFetch = PendingFetch(
    studentId: string,
    student: Option<Student>,
    requests: seq<Provider>,
    ixlConnected: bool,
    behaviorConnected: bool)

  /** The reset of :137: the four fetched fields emptied, the focus area kept. */
  function Cleared(d: StudentData): (r: StudentData)
    ensures r.focusArea == d.focusArea
    ensures forall f: Field | f != FocusArea :: Get(r, f) == ""
  {
    d.(studentName := "", powerschoolData := "", ixlData := "", behaviorData := "")
  }

  /** An element of the destructured array: past its end it is `undefined`, and `undefined || ''` is ''. */
  function At(results: seq<string>, i: nat): string
  {
    if i < |results| then results[i] else ""
  }

  /**
   * The merge of :149-157 as written: the results are taken by position, so the third value
   * is the behaviour notes only when three requests were made.
   */
  function Merge(prev: StudentData, pending: PendingFetch, results: seq<string>): StudentData
  {
    var psData := At(results, 0);
    var ixlData := At(results, 1);
    var behaviorData := At(results, 2);
    prev.(
      studentName := if pending.student.Some? then pending.student.value.name else "",
      powerschoolData := OrElse(psData, ""),
      ixlData := if pending.ixlConnected then OrElse(ixlData, "") else "",
      behaviorData := if pending.behaviorConnected then OrElse(behaviorData, "") else "")
  }

  /** The selection pending after the first half of the handler for a non-empty id. */
  function PendingFor(students: seq<Student>, id: string, ixl: bool, behavior: bool): PendingFetch
  {
    PendingFetch(id, FindStudent(students, id), Requests(ixl, behavior), ixl, behavior)
  }

  /**
   * What a selection writes into the form, as the code behaves: the roster name, the academic
   * record, the skill record when IXL is connected, and the behaviour notes only when both IXL
   * and behaviour are connected; the focus area is kept.
   */
  lemma MergeOfFetched(prev: StudentData, students: seq<Student>, id: string, ixl: bool, behavior: bool)
    ensures var p := PendingFor(students, id, ixl, behavior);
      var r := Merge(prev, p, Fetched(p.requests, id));
      r.studentName == (if FindStudent(students, id).Some? then FindStudent(students, id).value.name else "") &&
      r.powerschoolData == PowerSchoolService.GetStudentData(id) &&
      r.ixlData == (if ixl then IxlService.GetStudentIxlData(id) else "") &&
      r.behaviorData == (if ixl && behavior then BehaviorService.GetStudentBehaviorData(id) else "") &&
      r.focusArea == prev.focusArea
  {
    var p := PendingFor(students, id, ixl, behavior);
    var results := Fetched(p.requests, id);
    assert At(results, 0) == PowerSchoolService.GetStudentData(id);
    if ixl {
      assert At(results, 1) == IxlService.GetStudentIxlData(id);
    }
    if ixl && behavior {
      assert At(results, 2) == BehaviorService.GetStudentBehaviorData(id);
    }
    if !ixl && behavior {
      assert |results| == 2;
    }
  }

  /**
   * With behaviour connected and IXL not, the behaviour notes never reach the form, although the
   * provider answers every id with non-empty notes.
   */
  lemma PositionalMergeDropsBehavior(prev: StudentData, students: seq<Student>, id: string)
    ensures var p := PendingFor(students, id, false, true);
      Merge(prev, p, Fetched(p.requests, id)).behaviorData == "" &&
      BehaviorService.GetStudentBehaviorData(id) != ""
  {
    MergeOfFetched(prev, students, id, false, true);
  }

  /** The first answer from provider `p`, or '' when `p` was not asked. */
  function ResultFor(requests: seq<Provider>, results: seq<string>, p: Provider): string
    requires |results| == |requests|
  {
    if requests == [] then ""
    else if requests[0] == p then results[0]
    else ResultFor(requests[1..], results[1..], p)
  }

  /** The merge as evidently intended: each field takes the answer of its own provider. */
  function MergeByProvider(prev: StudentData, pending: PendingFetch, results: seq<string>): StudentData
    requires |results| == |pending.requests|
  {
    var rs := pending.requests;
    prev.(
      studentName := if pending.student.Some? then pending.student.value.name else "",
      powerschoolData := ResultFor(rs, results, PowerSchool),
      ixlData := if pending.ixlConnected then ResultFor(rs, results, Ixl) else "",
      behaviorData := if pending.behaviorConnected then ResultFor(rs, results, Behavior) else "")
  }

  lemma {:induction false} ResultForFetched(requests: seq<Provider>, id: string, p: Provider)
    ensures ResultFor(requests, Fetched(requests, id), p) == if p in requests then Lookup(p, id) else ""
  {
    if requests != [] {
      var results := Fetched(requests, id);
      assert results[1..] == Fetched(requests[1..], id);
      ResultForFetched(requests[1..], id, p);
      assert p in requests <==> requests[0] == p || p in requests[1..] by {
        assert requests == [requests[0]] + requests[1..];
      }
    }
  }

  /** The corrected merge fills each field from its own provider whatever else is connected. */
  lemma MergeByProviderOfFetched(prev: StudentData, students: seq<Student>, id: string, ixl: bool, behavior: bool)
    ensures var p := PendingFor(students, id, ixl, behavior);
      var r := MergeByProvider(prev, p, Fetched(p.requests, id));
      r.studentName == (if FindStudent(students, id).Some? then FindStudent(students, id).value.name else "") &&
      r.powerschoolData == PowerSchoolService.GetStudentData(id) &&
      r.ixlData == (if ixl then IxlService.GetStudentIxlData(id) else "") &&
      r.behaviorData == (if behavior then BehaviorService.GetStudentBehaviorData(id) else "") &&
      r.focusArea == prev.focusArea
  {
    var rs := Requests(ixl, behavior);
    ResultForFetched(rs, id, PowerSchool);
    ResultForFetched(rs, id, Ixl);
    ResultForFetched(rs, id, Behavior);
  }

  /** The generate button's `disabled` condition, negated (:290). */
  predicate GenerateEnabled(isLoading: bool, data: StudentData)
  {
    !isLoading && data.studentName != ""
  }

  // ---------------------------------------------------------------------------------------
  // The panel's state and handlers
  // ---------------------------------------------------------------------------------------

  class InputState {
    /** The owner of `studentData`, `isLoading` and `error`, which reach the panel as props. */
    const app: App.AppState

    var psCredentials: PsCredentials
    var isPsConnected: bool
    var isPsLoading: bool
    var psError: Option<string>

    var ixlCredentials: IxlCredentials
    var isIxlConnected: bool
    var isIxlLoading: bool
    var ixlError: Option<string>

    var isBehaviorConnected: bool
    var isBehaviorLoading: bool
    var behaviorError: Option<string>

    var students: seq<Student>
    var selectedStudentId: string
    var isDataFetching: bool

    /** The initial `useState` values (:47-66). */
    constructor (app: App.AppState)
      ensures this.app == app
      ensures psCredentials == InitialPsCredentials && ixlCredentials == InitialIxlCredentials
      ensures !isPsConnected && !isPsLoading && psError == None
      ensures !isIxlConnected && !isIxlLoading && ixlError == None
      ensures !isBehaviorConnected && !isBehaviorLoading && behaviorError == None
      ensures students == [] && selectedStudentId == "" && !isDataFetching
    {
      this.app := app;
      psCredentials := InitialPsCredentials;
      isPsConnected := false;
      isPsLoading := false;
      psError := None;
      ixlCredentials := InitialIxlCredentials;
      isIxlConnected := false;
      isIxlLoading := false;
      ixlError := None;
      isBehaviorConnected := false;
      isBehaviorLoading := false;
      behaviorError := None;
      students := [];
      selectedStudentId := "";
      isDataFetching := false;
    }

    /** handleDataChange (:69-72): only the named field of the form changes. */
    method HandleDataChange(f: Field, value: string)
      modifies app`studentData
      ensures app.studentData == WithField(old(app.studentData), f, value)
    {
      app.studentData := WithField(app.studentData, f, value);
    }

    /** handleCredentialChange (:74-77) on the PowerSchool form. */
    method HandlePsCredentialChange(f: PsField, value: string)
      modifies this`psCredentials
      ensures psCredentials == WithPsField(old(psCredentials), f, value)
    {
      psCredentials := WithPsField(psCredentials, f, value);
    }

    /** handleCredentialChange (:74-77) on the IXL form. */
    method HandleIxlCredentialChange(f: IxlField, value: string)
      modifies this`ixlCredentials
      ensures ixlCredentials == WithIxlField(old(ixlCredentials), f, value)
    {
      ixlCredentials := WithIxlField(ixlCredentials, f, value);
    }

    /** handleConnectPowerSchool up to the await (:80-81). */
    method BeginConnectPowerSchool()
      modifies this`isPsLoading, this`psError
      ensures isPsLoading && psError == None
    {
      isPsLoading := true;
      psError := None;
    }

    /**
     * handleConnectPowerSchool after the await (:84-94): success loads the roster and marks the
     * connection; a false answer or a rejection shows its message; loading ends either way and
     * a connection once made is kept.
     */
    method FinishConnectPowerSchool(success: Awaited<bool>)
      modifies this`students, this`isPsConnected, this`psError, this`isPsLoading
      ensures success == Resolved(true) ==>
        students == PowerSchoolService.GetStudents() && isPsConnected && psError == old(psError)
      ensures success == Resolved(false) ==>
        psError == Some(ConnectFailedMessage) && students == old(students) && isPsConnected == old(isPsConnected)
      ensures success.Rejected? ==>
        psError == Some(ConnectErrorMessage) && students == old(students) && isPsConnected == old(isPsConnected)
      ensures !isPsLoading && (old(isPsConnected) ==> isPsConnected)
    {
      match success {
        case Resolved(ok) =>
          if ok {
            students := PowerSchoolService.GetStudents();
            isPsConnected := true;
          } else {
            psError := Some(ConnectFailedMessage);
          }
        case Rejected =>
          psError := Some(ConnectErrorMessage);
      }
      isPsLoading := false;
    }

    /** handleConnectPowerSchool (:79-96) against the mock, which never rejects. */
    method HandleConnectPowerSchool()
      modifies this`students, this`isPsConnected, this`psError, this`isPsLoading
      ensures var c := old(psCredentials);
        var ok := c.url != "" && c.clientId != "" && c.clientSecret != "";
        isPsConnected == (old(isPsConnected) || ok) && !isPsLoading &&
        (ok ==> students == PowerSchoolService.GetStudents() && psError == None) &&
        (!ok ==> students == old(students) && psError == Some(ConnectFailedMessage))
    {
      BeginConnectPowerSchool();
      var ok := PowerSchoolService.ConnectToPowerSchool(psCredentials.url, psCredentials.clientId, psCredentials.clientSecret);
      FinishConnectPowerSchool(Resolved(ok));
    }

    /** handleConnectIXL up to the await (:99-100). */
    method BeginConnectIxl()
      modifies this`isIxlLoading, this`ixlError
      ensures isIxlLoading && ixlError == None
    {
      isIxlLoading := true;
      ixlError := None;
    }

    /** handleConnectIXL after the await (:103-111). */
    method FinishConnectIxl(success: Awaited<bool>)
      modifies this`isIxlConnected, this`ixlError, this`isIxlLoading
      ensures success == Resolved(true) ==> isIxlConnected && ixlError == old(ixlError)
      ensures success == Resolved(false) ==>
        ixlError == Some(ConnectFailedMessage) && isIxlConnected == old(isIxlConnected)
      ensures success.Rejected? ==>
        ixlError == Some(ConnectErrorMessage) && isIxlConnected == old(isIxlConnected)
      ensures !isIxlLoading
    {
      match success {
        case Resolved(ok) =>
          if ok {
            isIxlConnected := true;
          } else {
            ixlError := Some(ConnectFailedMessage);
          }
        case Rejected =>
          ixlError := Some(ConnectErrorMessage);
      }
      isIxlLoading := false;
    }

    /** handleConnectIXL (:98-113) against the mock. */
    method HandleConnectIxl()
      modifies this`isIxlConnected, this`ixlError, this`isIxlLoading
      ensures var c := old(ixlCredentials);
        var ok := c.username != "" && c.secret != "";
        isIxlConnected == (old(isIxlConnected) || ok) && !isIxlLoading &&
        (ok ==> ixlError == None) && (!ok ==> ixlError == Some(ConnectFailedMessage))
    {
      BeginConnectIxl();
      var ok := IxlService.ConnectToIxl(ixlCredentials.username, ixlCredentials.secret);
      FinishConnectIxl(Resolved(ok));
    }

    /** handleConnectBehavior up to the await (:116-117). */
    method BeginConnectBehavior()
      modifies this`isBehaviorLoading, this`behaviorError
      ensures isBehaviorLoading && behaviorError == None
    {
      isBehaviorLoading := true;
      behaviorError := None;
    }

    /** handleConnectBehavior after the await (:120-128), with its own shorter failure message. */
    method FinishConnectBehavior(success: Awaited<bool>)
      modifies this`isBehaviorConnected, this`behaviorError, this`isBehaviorLoading
      ensures success == Resolved(true) ==> isBehaviorConnected && behaviorError == old(behaviorError)
      ensures success == Resolved(false) ==>
        behaviorError == Some(BehaviorConnectFailedMessage) && isBehaviorConnected == old(isBehaviorConnected)
      ensures success.Rejected? ==>
        behaviorError == Some(ConnectErrorMessage) && isBehaviorConnected == old(isBehaviorConnected)
      ensures !isBehaviorLoading
    {
      match success {
        case Resolved(ok) =>
          if ok {
            isBehaviorConnected := true;
          } else {
            behaviorError := Some(BehaviorConnectFailedMessage);
          }
        case Rejected =>
          behaviorError := Some(ConnectErrorMessage);
      }
      isBehaviorLoading := false;
    }

    /** handleConnectBehavior (:115-130) against the mock, which always accepts. */
    method HandleConnectBehavior()
      modifies this`isBehaviorConnected, this`behaviorError, this`isBehaviorLoading
      ensures isBehaviorConnected && behaviorError == None && !isBehaviorLoading
    {
      BeginConnectBehavior();
      var ok := BehaviorService.ConnectToBehaviorSystem();
      FinishConnectBehavior(Resolved(ok));
    }

    /**
     * handleSelectStudent up to the await (:133-146): it records the id and clears the form's
     * fetched fields; for the empty id it stops there, otherwise it starts fetching and builds
     * the request list, PowerSchool first, then IXL and behaviour when connected.
     */
    method BeginSelectStudent(studentId: string) returns (pending: Option<PendingFetch>)
      modifies this`selectedStudentId, this`isDataFetching, app`studentData
      ensures selectedStudentId == studentId
      ensures app.studentData == Cleared(old(app.studentData))
      ensures studentId == "" ==> pending == None && isDataFetching == old(isDataFetching)
      ensures studentId != "" ==> isDataFetching
      ensures studentId != "" ==>
        pending == Some(PendingFor(students, studentId, isIxlConnected, isBehaviorConnected))
    {
      selectedStudentId := studentId;
      app.studentData := Cleared(app.studentData);
      if studentId == "" {
        return None;
      }
      isDataFetching := true;
      var student := FindStudent(students, studentId);
      var requests := [PowerSchool];
      if isIxlConnected {
        requests := requests + [Ixl];
      }
      if isBehaviorConnected {
        requests := requests + [Behavior];
      }
      assert requests == Requests(isIxlConnected, isBehaviorConnected);
      pending := Some(PendingFetch(studentId, student, requests, isIxlConnected, isBehaviorConnected));
    }

    /**
     * handleSelectStudent after the await (:148-163): resolved answers are merged into the form
     * as it is now; a rejection leaves the form cleared; fetching ends either way.
     */
    method FinishSelectStudent(pending: PendingFetch, outcome: Awaited<seq<string>>)
      modifies this`isDataFetching, app`studentData
      ensures outcome.Resolved? ==> app.studentData == Merge(old(app.studentData), pending, outcome.value)
      ensures outcome.Rejected? ==> app.studentData == old(app.studentData)
      ensures !isDataFetching
    {
      if outcome.Resolved? {
        app.studentData := Merge(app.studentData, pending, outcome.value);
      }
      isDataFetching := false;
    }

    /**
     * handleSelectStudent (:132-164) against the mocks: the form gets the roster name, the
     * academic record, the skill record when IXL is connected and the behaviour notes only when
     * IXL and behaviour are both connected; the focus area is kept.
     */
    method SelectStudent(studentId: string)
      modifies this`selectedStudentId, this`isDataFetching, app`studentData
      ensures selectedStudentId == studentId
      ensures studentId == "" ==> app.studentData == Cleared(old(app.studentData)) && isDataFetching == old(isDataFetching)
      ensures studentId != "" ==> !isDataFetching
      ensures studentId != "" ==> var d := app.studentData; var s := FindStudent(students, studentId);
        d.studentName == (if s.Some? then s.value.name else "") &&
        d.powerschoolData == PowerSchoolService.GetStudentData(studentId) &&
        d.ixlData == (if isIxlConnected then IxlService.GetStudentIxlData(studentId) else "") &&
        d.behaviorData == (if isIxlConnected && isBehaviorConnected then BehaviorService.GetStudentBehaviorData(studentId) else "")
      ensures app.studentData.focusArea == old(app.studentData.focusArea)
    {
      var pending := BeginSelectStudent(studentId);
      if pending.Some? {
        var p := pending.value;
        FinishSelectStudent(p, Resolved(Fetched(p.requests, studentId)));
        MergeOfFetched(Cleared(old(app.studentData)), students, studentId, isIxlConnected, isBehaviorConnected);
      }
    }

    /**
     * A click on the generate button (:288-290): a disabled button does nothing; an enabled one
     * runs handleGenerateReport, whose name check then always passes, so the prompt for the form
     * is sent whenever there is a key and the report or the failure banner follows the answer.
     */
    method ClickGenerate(apiKey: Option<string>, remote: GeminiService.RemoteOutcome) returns (sent: Option<string>)
      modifies app
      ensures !GenerateEnabled(old(app.isLoading), old(app.studentData)) ==>
        sent == None && app.isLoading == old(app.isLoading) && app.error == old(app.error) &&
        app.progressReport == old(app.progressReport)
      ensures GenerateEnabled(old(app.isLoading), old(app.studentData)) ==> !app.isLoading
      ensures GenerateEnabled(old(app.isLoading), old(app.studentData)) ==>
        sent == (if apiKey.Some? && apiKey.value != "" then Some(GeminiService.Prompt(old(app.studentData)))
                 else None)
      ensures GenerateEnabled(old(app.isLoading), old(app.studentData)) && apiKey.Some? && apiKey.value != "" &&
              remote.Responded? ==>
        app.progressReport == remote.text && app.error == None
      ensures GenerateEnabled(old(app.isLoading), old(app.studentData)) &&
              (apiKey.None? || apiKey.value == "" || remote.RemoteFailed?) ==>
        app.progressReport == "" && app.error == Some(App.GenerateFailedMessage)
      ensures app.studentData == old(app.studentData)
    {
      if GenerateEnabled(app.isLoading, app.studentData) {
        sent := app.HandleGenerateReport(apiKey, remote);
      } else {
        sent := None;
      }
    }
  }
}
