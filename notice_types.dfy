/** The records the court-notice writer works with: departments, sub-departments
    and cases as the remote data service returns them, and the notice draft that
    the drafting workflow fills in field by field. */
module NoticeTypes {

  datatype Option<+T> = None | Some(value: T)

  /** The two languages of the interface and of the generated text. */
  datatype Language = Hi | En

  datatype NoticeType = Regular | Contempt | Custom

  datatype Department = Department(id: int, nameEn: string, nameHi: string)

  datatype SubDepartment = SubDepartment(id: string, departmentId: int, nameEn: string, nameHi: string)

  /** A court case record. The optional petition number, notice number and writ
      type of the source record are read by nothing and are not kept. */
  datatype Case = Case(
    id: string,
    caseNumber: string,
    name: string,
    filingDate: string,
    department: int,
    subDepartment: Option<SubDepartment>,
    status: string,
    hearingDate: Option<string>)

  /** The notice being drafted. `language` is the draft's own field, which the
      workflow sets to Hi and never updates. The source's optional custom
      content field is read and written by nothing and is not kept. */
  datatype Draft = Draft(
    noticeType: NoticeType,
    language: Language,
    department: Option<Department>,
    subDepartment: Option<SubDepartment>,
    caseData: Option<Case>,
    date: string,
    letterNumber: string,
    subject: string,
    content: string,
    signatory: string,
    designation: string)

  /** The draft the workflow starts from and returns to on reset; `today` is the
      current date as the host formats it in the en-GB locale. */
  function DefaultDraft(today: string): Draft {
    Draft(Regular, Hi, None, None, None, today, "", "", "", "", "")
  }

  /** The host's locale date formatting of a stored date string. */
  type DateFormatter = (string, Language) -> string

  function DepartmentName(dept: Department, lang: Language): string {
    match lang
    case Hi => dept.nameHi
    case En => dept.nameEn
  }

  function SubDepartmentName(sub: SubDepartment, lang: Language): string {
    match lang
    case Hi => sub.nameHi
    case En => sub.nameEn
  }

  /** A request to the remote data service, recorded instead of performed. */
  datatype FetchRequest =
    | FetchDepartments
    | FetchSubDepartments(departmentId: int)
    | FetchCases(departmentId: int, subDepartmentFilter: Option<string>)

  /** What a request came back with. `CasesFetched(None)` is a response body
      without a `cases` member; a failure carries nothing. */
  datatype FetchResult =
    | DepartmentsFetched(departments: seq<Department>)
    | SubDepartmentsFetched(subDepartments: seq<SubDepartment>)
    | CasesFetched(cases: Option<seq<Case>>)
    | FetchFailed
}
