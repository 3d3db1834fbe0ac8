/** The drafting workflow of the court-notice writer: a six-step form.

    Step 1 picks the interface language and the notice type, step 2 a
    department, step 3 a sub-department (or all cases of the department),
    step 4 a case, step 5 edits the generated notice and step 6 writes a
    custom notice. Each user action is an `Event`; `Next` is the state it
    leads to, the `CourtNoticeWriter` class holds that state in fields and
    its methods perform the events in place. Requests to the remote data
    service are recorded rather than performed, and their answers arrive as
    `FetchCompleted` events. */
module NoticeWorkflow {
  import opened NoticeTypes
  import opened Text
  import opened NoticeContent

  /** The wording the generators use for each interface language. */
  type WordingTable = Language -> Wording

  /** The request for a department's cases; a sub-department filter is
      added only for a present, non-empty sub-department id. */
  function CasesRequest(departmentId: int, subDepartmentId: Option<string>): (r: FetchRequest)
    ensures r.FetchCases? && r.departmentId == departmentId
    ensures r.subDepartmentFilter.Some? <==> subDepartmentId.Some? && subDepartmentId.value != ""
    ensures r.subDepartmentFilter.Some? ==> r.subDepartmentFilter == subDepartmentId
  {
    match subDepartmentId
    case Some(id) => if id != "" then FetchCases(departmentId, Some(id)) else FetchCases(departmentId, None)
    case None => FetchCases(departmentId, None)
  }

  /** The draft fields that the text inputs of steps 5 and 6 edit. */
  datatype DraftField = LetterNumberField | DateField | SubjectField | ContentField | SignatoryField | DesignationField

  function FieldOf(d: Draft, f: DraftField): string {
    match f
    case LetterNumberField => d.letterNumber
    case DateField => d.date
    case SubjectField => d.subject
    case ContentField => d.content
    case SignatoryField => d.signatory
    case DesignationField => d.designation
  }

  /** An edit of one text input: that field takes the typed value and every
      other part of the draft stays as it was. */
  function WithField(d: Draft, f: DraftField, v: string): (r: Draft)
    ensures FieldOf(r, f) == v
    ensures forall g :: g != f ==> FieldOf(r, g) == FieldOf(d, g)
    ensures r.noticeType == d.noticeType && r.language == d.language && r.department == d.department
    ensures r.subDepartment == d.subDepartment && r.caseData == d.caseData
  {
    match f
    case LetterNumberField => d.(letterNumber := v)
    case DateField => d.(date := v)
    case SubjectField => d.(subject := v)
    case ContentField => d.(content := v)
    case SignatoryField => d.(signatory := v)
    case DesignationField => d.(designation := v)
  }

  /** What the draft looks like on each step. The draft's own language is
      always Hi; the interface language is separate state. */
  predicate StepInvariant(step: int, d: Draft) {
    && 1 <= step <= 6
    && d.language == Hi
    && (step == 1 ==> d == DefaultDraft(d.date))
    && (2 <= step <= 5 ==> d.noticeType != Custom)
    && (3 <= step <= 5 ==> d.department.Some?)
    && (step == 5 ==> d.caseData.Some?)
    && (step == 6 ==> d.noticeType == Custom && d.department.None? && d.subDepartment.None? && d.caseData.None?)
    && (d.subDepartment.Some? || d.caseData.Some? ==> d.department.Some?)
  }

  /** The component's state; `requests` lists the data requests issued so far. */
  datatype State = State(
    step: int,
    language: Language,
    departments: seq<Department>,
    subDepartments: seq<SubDepartment>,
    cases: seq<Case>,
    draft: Draft,
    requests: seq<FetchRequest>)

  predicate Wellformed(s: State) {
    StepInvariant(s.step, s.draft)
  }

  /** The state when the component mounts: it asks for the departments. */
  function Initial(today: string): (s: State)
    ensures Wellformed(s) && s.step == 1 && s.requests == [FetchDepartments]
  {
    State(1, Hi, [], [], [], DefaultDraft(today), [FetchDepartments])
  }

  datatype Event =
    | LanguageChanged(lang: Language)
    | NoticeTypeSelected(noticeType: NoticeType)
    | DepartmentSelected(department: Department)
    | SubDepartmentSelected(subDepartment: SubDepartment)
    | AllCasesViewed
    | CaseSelected(caseData: Case, serial: int, year: nat)
    | BackPressed(today: string)
    | NewNoticePressed(today: string)
    | FieldEdited(field: DraftField, value: string)
    | FetchCompleted(result: FetchResult)

  /** An event can happen when the current step shows its control: a list
      entry can only be picked from the list on screen, and the pseudo-random
      serial of a letter number lies in [1000, 9999]. Data arrives at any time. */
  predicate Enabled(s: State, e: Event) {
    match e
    case LanguageChanged(_) => s.step == 1
    case NoticeTypeSelected(_) => s.step == 1
    case DepartmentSelected(dept) => s.step == 2 && dept in s.departments
    case SubDepartmentSelected(sub) => s.step == 3 && sub in s.subDepartments
    case AllCasesViewed => s.step == 3
    case CaseSelected(c, serial, _) => s.step == 4 && c in s.cases && 1000 <= serial <= 9999
    case BackPressed(_) => 2 <= s.step <= 6
    case NewNoticePressed(_) => s.step == 5
    case FieldEdited(_, _) => s.step == 5 || s.step == 6
    case FetchCompleted(_) => true
  }

  /** The form reset: step 1, a fresh draft dated `today`, and empty
      sub-department and case lists; the interface language, the departments
      and the request log are kept. */
  function Reset(s: State, today: string): State {
    s.(step := 1, draft := DefaultDraft(today), subDepartments := [], cases := [])
  }

  /** An answer from the data service updates its list; a response without
      cases empties the case list and a failure changes nothing. */
  function ApplyResult(s: State, r: FetchResult): State {
    match r
    case DepartmentsFetched(ds) => s.(departments := ds)
    case SubDepartmentsFetched(subs) => s.(subDepartments := subs)
    case CasesFetched(found) => s.(cases := if found.Some? then found.value else [])
    case FetchFailed => s
  }

  /** The draft after picking case `c` on step 4: the generated subject and
      body in the current interface language, the letter number and the
      signature block. */
  function CaseDraft(s: State, c: Case, serial: int, year: nat, wording: WordingTable, formatDate: DateFormatter)
    : Draft
    requires s.draft.department.Some? && 1000 <= serial <= 9999
  {
    var w := wording(s.language);
    var g := GenerateWith(w, s.draft.noticeType, s.language, c, s.draft.department.value, s.draft.subDepartment,
                          formatDate);
    s.draft.(caseData := Some(c), subject := g.subject, content := g.content,
             letterNumber := LetterNumber(serial, s.draft.noticeType, year),
             signatory := w.signatory, designation := w.designation)
  }

  /** The state an enabled event leads to. Back on steps 3 to 5 goes one step
      back and keeps everything else; Back on steps 2 and 6 resets the form. */
  function Next(s: State, e: Event, wording: WordingTable, formatDate: DateFormatter): State
    requires Wellformed(s) && Enabled(s, e)
  {
    match e
    case LanguageChanged(lang) => s.(language := lang)
    case NoticeTypeSelected(t) => s.(draft := s.draft.(noticeType := t), step := if t == Custom then 6 else 2)
    case DepartmentSelected(dept) =>
      s.(draft := s.draft.(department := Some(dept)), requests := s.requests + [FetchSubDepartments(dept.id)],
         step := 3)
    case SubDepartmentSelected(sub) =>
      s.(draft := s.draft.(subDepartment := Some(sub)),
         requests := s.requests + [CasesRequest(s.draft.department.value.id, Some(sub.id))], step := 4)
    case AllCasesViewed =>
      s.(requests := s.requests + [CasesRequest(s.draft.department.value.id, None)], step := 4)
    case CaseSelected(c, serial, year) => s.(draft := CaseDraft(s, c, serial, year, wording, formatDate), step := 5)
    case BackPressed(today) => if s.step == 2 || s.step == 6 then Reset(s, today) else s.(step := s.step - 1)
    case NewNoticePressed(today) => Reset(s, today)
    case FieldEdited(f, v) => s.(draft := WithField(s.draft, f, v))
    case FetchCompleted(r) => ApplyResult(s, r)
  }

  /** Every enabled event keeps the step invariant, which is what the
      component's non-null assertions on the department rely on. */
  lemma NextWellformed(s: State, e: Event, wording: WordingTable, formatDate: DateFormatter)
    requires Wellformed(s) && Enabled(s, e)
    ensures Wellformed(Next(s, e, wording, formatDate))
  {
    if e.FieldEdited? {
      var d := WithField(s.draft, e.field, e.value);
      assert s.step == 6 ==> d.department.None? && d.subDepartment.None? && d.caseData.None?;
    }
  }

  /** Runs a sequence of events; None when one of them is not enabled. Every
      state reached this way keeps the step invariant. */
  function Run(s: State, es: seq<Event>, wording: WordingTable, formatDate: DateFormatter): (r: Option<State>)
    requires Wellformed(s)
    ensures r.Some? ==> Wellformed(r.value)
    ensures r.Some? ==> |r.value.requests| >= |s.requests| && r.value.requests[..|s.requests|] == s.requests
    decreases |es|
  {
    if |es| == 0 then Some(s)
    else if !Enabled(s, es[0]) then None
    else
      NextWellformed(s, es[0], wording, formatDate);
      var n := Next(s, es[0], wording, formatDate);
      assert n.requests[..|s.requests|] == s.requests;
      Run(n, es[1..], wording, formatDate)
  }

  lemma {:induction false} RunCons(s: State, e: Event, es: seq<Event>, wording: WordingTable, formatDate: DateFormatter)
    requires Wellformed(s) && Enabled(s, e)
    ensures Wellformed(Next(s, e, wording, formatDate))
    ensures Run(s, [e] + es, wording, formatDate) == Run(Next(s, e, wording, formatDate), es, wording, formatDate)
  {
    NextWellformed(s, e, wording, formatDate);
    assert ([e] + es)[0] == e && ([e] + es)[1..] == es;
  }

  /** Picking a case on step 4 writes the notice: the subject reads back as the
      case number under the writ or contempt template, the letter number reads
      back as its serial, token and year, the signature block is that of the
      interface language, and the draft's own language stays Hi. This holds for
      any wording whose subject prefixes part ways, which `WordingForWellFormed`
      shows of the component's own. */
  lemma CaseSelectionWritesNotice(s: State, c: Case, serial: int, year: nat, wording: WordingTable, k: nat,
                                  formatDate: DateFormatter)
    requires Wellformed(s) && Enabled(s, CaseSelected(c, serial, year))
    requires WellFormedWording(wording(s.language), k)
    ensures var d := Next(s, CaseSelected(c, serial, year), wording, formatDate).draft;
      var w := wording(s.language);
      && d.caseData == Some(c)
      && ParseSubject(w, d.subject) == Some(SubjectParts(s.draft.noticeType == Contempt, c.caseNumber))
      && ParseLetterNumber(d.letterNumber) == Some(LetterParts(serial, s.draft.noticeType == Contempt, year))
      && d.signatory == w.signatory && d.designation == w.designation
      && d.language == Hi
  {
    var t := s.draft.noticeType;
    SubjectRoundTrip(wording(s.language), k, t, s.language, c, s.draft.department.value, s.draft.subDepartment,
                     formatDate);
    LetterNumberRoundTrip(serial, t, year);
  }

  /** The body written on case selection: a regular notice carries the four
      numbered lines with their values and the line of whatever sub-department
      the draft holds; a contempt notice carries the case number and party, and the hearing
      date or else the placeholder. */
  lemma CaseSelectionContent(s: State, c: Case, serial: int, year: nat, wording: WordingTable,
                             formatDate: DateFormatter)
    requires Wellformed(s) && Enabled(s, CaseSelected(c, serial, year))
    ensures var d := Next(s, CaseSelected(c, serial, year), wording, formatDate).draft;
      var w := wording(s.language);
      && (s.draft.noticeType == Regular ==>
            && Occurs(d.content, w.nameLabel + c.name)
            && Occurs(d.content, w.caseNumberLabel + c.caseNumber)
            && Occurs(d.content, w.filingDateLabel + formatDate(c.filingDate, s.language))
            && Occurs(d.content, w.departmentLabel + DepartmentName(s.draft.department.value, s.language))
            && Occurs(d.content, SubDepartmentLine(w, s.language, s.draft.subDepartment)))
      && (s.draft.noticeType == Contempt ==>
            && Occurs(d.content, c.caseNumber + ", " + c.name)
            && (HasHearingDate(c) ==> Occurs(d.content, formatDate(c.hearingDate.value, s.language)))
            && (!HasHearingDate(c) ==> Occurs(d.content, w.hearingPlaceholder)))
  {
    var t := s.draft.noticeType;
    var w := wording(s.language);
    var d := Next(s, CaseSelected(c, serial, year), wording, formatDate).draft;
    if t == Regular {
      assert d.content == RegularContent(w, s.language, c, s.draft.department.value, s.draft.subDepartment, formatDate);
      RegularContentMentions(w, s.language, c, s.draft.department.value, s.draft.subDepartment, formatDate);
    } else {
      assert d.content == ContemptContent(w, s.language, c, formatDate);
      ContemptHearingSlot(w, s.language, c, formatDate);
    }
  }

  /** Back from step 4 to 3 and from step 3 to 2 keeps the chosen
      sub-department, and picking another department and then "view all
      cases" does not clear it: the draft pairs the new department with the
      old sub-department, which may belong to another department, while the
      case request has no sub-department filter. */
  lemma StaleSubDepartment(s: State, b: Department, today: string, wording: WordingTable, formatDate: DateFormatter)
    requires Wellformed(s) && s.step == 4 && b in s.departments
    ensures var r := Run(s, [BackPressed(today), BackPressed(today), DepartmentSelected(b), AllCasesViewed], wording, formatDate);
      && r.Some?
      && r.value.step == 4
      && r.value.draft == s.draft.(department := Some(b))
      && r.value.requests == s.requests + [FetchSubDepartments(b.id), FetchCases(b.id, None)]
      && (s.draft.subDepartment.Some? && s.draft.subDepartment.value.departmentId != b.id ==>
            r.value.draft.subDepartment.value.departmentId != r.value.draft.department.value.id)
  {
    var s1 := s.(step := 3);
    var s2 := s.(step := 2);
    var s3 := s2.(draft := s.draft.(department := Some(b)), requests := s.requests + [FetchSubDepartments(b.id)],
                  step := 3);
    var s4 := s3.(requests := s3.requests + [FetchCases(b.id, None)], step := 4);
    RunCons(s, BackPressed(today), [BackPressed(today), DepartmentSelected(b), AllCasesViewed], wording, formatDate);
    RunCons(s1, BackPressed(today), [DepartmentSelected(b), AllCasesViewed], wording, formatDate);
    RunCons(s2, DepartmentSelected(b), [AllCasesViewed], wording, formatDate);
    RunCons(s3, AllCasesViewed, [], wording, formatDate);
    assert s3.requests + [FetchCases(b.id, None)] == s.requests + [FetchSubDepartments(b.id), FetchCases(b.id, None)];
  }

  /** The component itself: its state hooks are fields, and each handler
      updates them as the corresponding event prescribes. */
  class CourtNoticeWriter {
    var step: int
    var language: Language
    var departments: seq<Department>
    var subDepartments: seq<SubDepartment>
    var cases: seq<Case>
    var noticeData: Draft
    var requests: seq<FetchRequest>
    /** The host's locale date formatting. */
    const formatDate: DateFormatter
    /** The texts of the two generators; always `WordingFor`. */
    const wording: WordingTable

    function Snapshot(): State
      reads this
    {
      State(step, language, departments, subDepartments, cases, noticeData, requests)
    }

    ghost predicate Valid()
      reads this
    {
      && Wellformed(Snapshot())
      && forall lang {:trigger WordingFor(lang)} :: wording(lang) == WordingFor(lang)
    }

    /** Mounting the component; `today` is the current date as the host
        formats it. */
    constructor (today: string, formatDate: DateFormatter)
      ensures Valid() && Snapshot() == Initial(today) && this.formatDate == formatDate
    {
      step := 1;
      language := Hi;
      departments := [];
      subDepartments := [];
      cases := [];
      noticeData := DefaultDraft(today);
      requests := [FetchDepartments];
      this.formatDate := formatDate;
      wording := WordingFor;
    }

    /** The language select of step 1: only the interface language changes. */
    method SetLanguage(lang: Language)
      requires Valid() && Enabled(Snapshot(), LanguageChanged(lang))
      modifies this
      ensures Valid() && Snapshot() == Next(old(Snapshot()), LanguageChanged(lang), wording, formatDate)
      ensures Snapshot() == old(Snapshot()).(language := lang)
    {
      language := lang;
    }

    method HandleNoticeTypeSelect(t: NoticeType)
      requires Valid() && Enabled(Snapshot(), NoticeTypeSelected(t))
      modifies this
      ensures Valid() && Snapshot() == Next(old(Snapshot()), NoticeTypeSelected(t), wording, formatDate)
      ensures step == (if t == Custom then 6 else 2) && noticeData == old(noticeData).(noticeType := t)
    {
      noticeData := noticeData.(noticeType := t);
      if t == Custom {
        step := 6;
      } else {
        step := 2;
      }
    }

    method HandleDepartmentSelect(dept: Department)
      requires Valid() && Enabled(Snapshot(), DepartmentSelected(dept))
      modifies this
      ensures Valid() && Snapshot() == Next(old(Snapshot()), DepartmentSelected(dept), wording, formatDate)
      ensures step == 3 && noticeData == old(noticeData).(department := Some(dept))
      ensures requests == old(requests) + [FetchSubDepartments(dept.id)]
    {
      noticeData := noticeData.(department := Some(dept));
      requests := requests + [FetchSubDepartments(dept.id)];
      step := 3;
    }

    method HandleSubDepartmentSelect(sub: SubDepartment)
      requires Valid() && Enabled(Snapshot(), SubDepartmentSelected(sub))
      modifies this
      ensures Valid() && Snapshot() == Next(old(Snapshot()), SubDepartmentSelected(sub), wording, formatDate)
      ensures step == 4 && noticeData == old(noticeData).(subDepartment := Some(sub))
      ensures requests == old(requests) + [CasesRequest(noticeData.department.value.id, Some(sub.id))]
    {
      noticeData := noticeData.(subDepartment := Some(sub));
      requests := requests + [CasesRequest(noticeData.department.value.id, Some(sub.id))];
      step := 4;
    }

    /** "View all cases" on step 3: the draft is left as it is. */
    method ViewAllCases()
      requires Valid() && Enabled(Snapshot(), AllCasesViewed)
      modifies this
      ensures Valid() && Snapshot() == Next(old(Snapshot()), AllCasesViewed, wording, formatDate)
      ensures step == 4 && noticeData == old(noticeData)
      ensures requests == old(requests) + [FetchCases(noticeData.department.value.id, None)]
    {
      requests := requests + [CasesRequest(noticeData.department.value.id, None)];
      step := 4;
    }

    /** Picking a case; `serial` stands for the pseudo-random part of the
        letter number and `year` for the current year. */
    method HandleCaseSelect(c: Case, serial: int, year: nat)
      requires Valid() && Enabled(Snapshot(), CaseSelected(c, serial, year))
      modifies this
      ensures Valid() && Snapshot() == Next(old(Snapshot()), CaseSelected(c, serial, year), wording, formatDate)
      ensures step == 5 && noticeData.caseData == Some(c)
    {
      var next := Next(Snapshot(), CaseSelected(c, serial, year), wording, formatDate);
      NextWellformed(Snapshot(), CaseSelected(c, serial, year), wording, formatDate);
      assert next == Snapshot().(draft := next.draft, step := 5);
      noticeData := next.draft;
      step := 5;
    }

    method ResetForm(today: string)
      requires Valid()
      modifies this
      ensures Valid() && Snapshot() == Reset(old(Snapshot()), today)
      ensures step == 1 && noticeData == DefaultDraft(today) && subDepartments == [] && cases == []
      ensures language == old(language) && departments == old(departments) && requests == old(requests)
    {
      step := 1;
      noticeData := DefaultDraft(today);
      subDepartments := [];
      cases := [];
    }

    /** The Back buttons of steps 2 to 6. */
    method GoBack(today: string)
      requires Valid() && Enabled(Snapshot(), BackPressed(today))
      modifies this
      ensures Valid() && Snapshot() == Next(old(Snapshot()), BackPressed(today), wording, formatDate)
      ensures 3 <= old(step) <= 5 ==> Snapshot() == old(Snapshot()).(step := old(step) - 1)
    {
      if step == 2 || step == 6 {
        ResetForm(today);
      } else {
        step := step - 1;
      }
    }

    /** The "new notice" button of step 5. */
    method NewNotice(today: string)
      requires Valid() && Enabled(Snapshot(), NewNoticePressed(today))
      modifies this
      ensures Valid() && Snapshot() == Next(old(Snapshot()), NewNoticePressed(today), wording, formatDate)
    {
      ResetForm(today);
    }

    /** A text input of steps 5 and 6. */
    method EditField(f: DraftField, v: string)
      requires Valid() && Enabled(Snapshot(), FieldEdited(f, v))
      modifies this
      ensures Valid() && Snapshot() == Next(old(Snapshot()), FieldEdited(f, v), wording, formatDate)
      ensures Snapshot() == old(Snapshot()).(draft := WithField(old(noticeData), f, v))
    {
      noticeData := WithField(noticeData, f, v);
    }

    /** The answer to an earlier request. */
    method ApplyFetchResult(r: FetchResult)
      requires Valid()
      modifies this
      ensures Valid() && Snapshot() == Next(old(Snapshot()), FetchCompleted(r), wording, formatDate)
      ensures Snapshot() == ApplyResult(old(Snapshot()), r)
    {
      match r
      case DepartmentsFetched(ds) => departments := ds;
      case SubDepartmentsFetched(subs) => subDepartments := subs;
      case CasesFetched(found) => cases := if found.Some? then found.value else [];
      case FetchFailed =>
    }
  }
}
