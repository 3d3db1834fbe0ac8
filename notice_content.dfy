/** The content generator: the subject line, body text, letter number and
    signature strings of a notice, keyed on the notice type and on the
    interface language in force when a case is selected.

    The fixed wording of each language is gathered in one `Wording` table;
    the templates are lists of pieces drawn from that table and from the case,
    and the properties below are proved for every table, so in particular for
    the two the component uses. */
module NoticeContent {
  import opened NoticeTypes
  import opened Text

  datatype Generated = Generated(subject: string, content: string)

  /** The fixed phrases of one language. */
  datatype Wording = Wording(
    regularSubjectPrefix: string,
    regularSubjectSuffix: string,
    contemptSubjectPrefix: string,
    contemptSubjectSuffix: string,
    regularIntro: string,
    nameLabel: string,
    caseNumberLabel: string,
    filingDateLabel: string,
    departmentLabel: string,
    subDepartmentLabel: string,
    regularClosing: string,
    contemptOpening: string,
    contemptMiddle: string,
    hearingPlaceholder: string,
    contemptClosing: string,
    signatory: string,
    designation: string)

  /** The wording the component writes in each language. */
  function WordingFor(lang: Language): Wording {
    Wording(
      RegularSubjectPrefix(lang), RegularSubjectSuffix(lang),
      ContemptSubjectPrefix(lang), ContemptSubjectSuffix(lang),
      RegularIntro(lang), NameLabel(lang), CaseNumberLabel(lang), FilingDateLabel(lang),
      DepartmentLabel(lang), SubDepartmentLabel(lang), RegularClosing(lang),
      ContemptOpening(lang), ContemptMiddle(lang), HearingPlaceholder(lang), ContemptClosing(lang),
      Signatory(lang), Designation(lang))
  }

  // The wording texts below are written as concatenations of short literals:
  // the verifier reads a character or the length of a long literal only at a
  // cost that grows quickly with its length. Both English subjects open with
  // "Regarding " and part ways right after it, at index 10.
  function RegularSubjectPrefix(lang: Language): string {
    match lang
    case Hi => "रिट याचिका संख्या "
    case En => "Regarding " + "Writ Petition No. "
  }

  function RegularSubjectSuffix(lang: Language): string {
    match lang
    case Hi => " के संबंध में"
    case En => ""
  }

  function ContemptSubjectPrefix(lang: Language): string {
    match lang
    case Hi => "अवमानना आवेदन संख्या "
    case En => "Regarding " + "necessary " + "action required in Contempt Application No. "
  }

  function ContemptSubjectSuffix(lang: Language): string {
    match lang
    case Hi => " में वांछित आवश्यक कार्यवाही किये जाने के सम्बन्ध में"
    case En => ""
  }

  function RegularIntro(lang: Language): string {
    match lang
    case Hi =>
      "कृपया उपर्युक्त विषयक " +
      "का संदर्भ लें। उपरोक्त " +
      "रिट याचिका के संबंध " +
      "में मा० उच्च न्यायालय " +
      "द्वारा निर्देशित कार्यवाही " +
      "हेतु निम्नलिखित जानकारी " +
      "प्रेषित की जा रही है:"
    case En =>
      "Please refer to the " +
      "above subject. The following " +
      "information is being " +
      "sent for the action " +
      "directed by the Hon'ble " +
      "High Court regarding " +
      "the above writ petition:"
  }

  function NameLabel(lang: Language): string {
    match lang
    case Hi => "1. याचिकाकर्ता का नाम: "
    case En => "1. Petitioner's Name: "
  }

  function CaseNumberLabel(lang: Language): string {
    match lang
    case Hi => "2. रिट याचिका संख्या: "
    case En => "2. Writ Petition Number: "
  }

  function FilingDateLabel(lang: Language): string {
    match lang
    case Hi => "3. दाखिल दिनांक: "
    case En => "3. Filing Date: "
  }

  function DepartmentLabel(lang: Language): string {
    match lang
    case Hi => "4. विभाग: "
    case En => "4. Department: "
  }

  function SubDepartmentLabel(lang: Language): string {
    match lang
    case Hi => "5. उप-विभाग: "
    case En => "5. Sub-Department: "
  }

  function RegularClosing(lang: Language): string {
    match lang
    case Hi =>
      "\n\nउपरोक्त मामले में " +
      "आवश्यक कार्यवाही करने " +
      "तथा प्रतिवेदन प्रेषित " +
      "करने का कष्ट करें।\n\n" +
      "कृपया इस मामले में तत्परता " +
      "से आवश्यक कार्यवाही " +
      "सुनिश्चित करें तथा अनुपालना " +
      "रिपोर्ट इस कार्यालय " +
      "को प्रेषित करने का कष्ट " +
      "करें।\n        "
    case En =>
      "\n\nPlease take necessary " +
      "action in the above " +
      "matter and send the " +
      "report.\n\nPlease ensure " +
      "prompt necessary action " +
      "in this matter and send " +
      "the compliance report " +
      "to this office.\n        "
  }

  function ContemptOpening(lang: Language): string {
    match lang
    case Hi =>
      "\nकृपया उपर्युक्त विषयक " +
      "का सन्दर्भ ग्रहण करने " +
      "का कष्ट करें। जिसके " +
      "द्वारा अवमानना आवेदन " +
      "संख्या "
    case En =>
      "\nPlease refer to the " +
      "above subject matter " +
      "relating to Contempt " +
      "Application No. "
  }

  function ContemptMiddle(lang: Language): string {
    match lang
    case Hi =>
      " से सम्बंधित है। \n\nप्रश्नगत " +
      "अवमानना वाद में प्रभावी " +
      "पैरवी/सम्पूर्ण विधिक " +
      "कार्यवाही निर्धारित " +
      "सीमा के भीतर पूर्ण कराने " +
      "की अपेक्षा की गयी है।\n" +
      "\nअतः वाद सम्बंधित अवमानना " +
      "वाद में तत्परता प्रभावी " +
      "पैरवी / सम्पूर्ण विधिक " +
      "कार्यवाही निर्धारित " +
      "सीमा के भीतर सुनिश्चित " +
      "करायें। प्रश्नगत अवमानना " +
      "वाद में "
    case En =>
      ".\n\nEffective advocacy/complete " +
      "legal proceedings are " +
      "expected to be completed " +
      "within the prescribed " +
      "limit in the contempt " +
      "case in question.\n\nTherefore, " +
      "ensure prompt effective " +
      "advocacy/complete legal " +
      "proceedings within the " +
      "prescribed limit in " +
      "the contempt case. The " +
      "date "
  }

  function HearingPlaceholder(lang: Language): string {
    match lang
    case Hi => "अगली तारीख"
    case En => "next hearing"
  }

  function ContemptClosing(lang: Language): string {
    match lang
    case Hi =>
      " की तिथि नियत है।\n\nयदि " +
      "कोई अनिश्चित स्थिति " +
      "उत्पन्न होती है तो आप " +
      "स्वयं जिम्मेदार होंगे, " +
      "तथा कृत कार्यवाही से " +
      "जिलाधिकारी महोदय को " +
      "अवगत कराने का कष्ट करें।\n        "
    case En =>
      " is fixed in the contempt " +
      "case in question.\n\nIf " +
      "any uncertain situation " +
      "arises, you will be " +
      "responsible yourself, " +
      "and please inform the " +
      "District Magistrate " +
      "about the action taken.\n        "
  }

  function Signatory(lang: Language): string {
    match lang
    case Hi => "अपर जिलाधिकारी"
    case En => "Additional District Magistrate"
  }

  function Designation(lang: Language): string {
    match lang
    case Hi => "(वि०/न्या०)/प्रभारी अधिकारी रिट"
    case En => "(Legal)/In-charge Officer Writ"
  }

  // The regular (writ petition) notice.

  function RegularSubject(w: Wording, caseNumber: string): string {
    w.regularSubjectPrefix + caseNumber + w.regularSubjectSuffix
  }

  /** The fifth numbered line, naming the sub-department; empty without one. */
  function SubDepartmentLine(w: Wording, lang: Language, sub: Option<SubDepartment>): string {
    match sub
    case None => ""
    case Some(s) => w.subDepartmentLabel + SubDepartmentName(s, lang)
  }

  /** The regular body, piece by piece: an introduction, four numbered lines,
      the sub-department slot and the closing requests. */
  function RegularPieces(w: Wording, lang: Language, c: Case, dept: Department, sub: Option<SubDepartment>,
                         formatDate: DateFormatter): seq<string>
  {
    ["\n", w.regularIntro, "\n\n",
     w.nameLabel, c.name, "\n",
     w.caseNumberLabel, c.caseNumber, "\n",
     w.filingDateLabel, formatDate(c.filingDate, lang), "\n",
     w.departmentLabel, DepartmentName(dept, lang), "\n",
     SubDepartmentLine(w, lang, sub),
     w.regularClosing]
  }

  function RegularContent(w: Wording, lang: Language, c: Case, dept: Department, sub: Option<SubDepartment>,
                          formatDate: DateFormatter): string
  {
    Join(RegularPieces(w, lang, c, dept, sub, formatDate))
  }

  function GenerateRegular(w: Wording, lang: Language, c: Case, dept: Department, sub: Option<SubDepartment>,
                           formatDate: DateFormatter): Generated
  {
    Generated(RegularSubject(w, c.caseNumber), RegularContent(w, lang, c, dept, sub, formatDate))
  }

  // The contempt application notice. The department and sub-department the
  // component passes in are not used by it, so they are not parameters here.

  function ContemptSubject(w: Wording, caseNumber: string): string {
    w.contemptSubjectPrefix + caseNumber + w.contemptSubjectSuffix
  }

  /** A hearing date is used only when present and non-empty. */
  predicate HasHearingDate(c: Case) {
    c.hearingDate.Some? && c.hearingDate.value != ""
  }

  function HearingSlot(w: Wording, lang: Language, c: Case, formatDate: DateFormatter): string {
    if HasHearingDate(c) then formatDate(c.hearingDate.value, lang) else w.hearingPlaceholder
  }

  function ContemptPieces(w: Wording, lang: Language, c: Case, formatDate: DateFormatter): seq<string> {
    [w.contemptOpening, c.caseNumber + ", " + c.name, w.contemptMiddle,
     HearingSlot(w, lang, c, formatDate),
     w.contemptClosing]
  }

  function ContemptContent(w: Wording, lang: Language, c: Case, formatDate: DateFormatter): string {
    Join(ContemptPieces(w, lang, c, formatDate))
  }

  function GenerateContempt(w: Wording, lang: Language, c: Case, formatDate: DateFormatter): Generated {
    Generated(ContemptSubject(w, c.caseNumber), ContemptContent(w, lang, c, formatDate))
  }

  /** Case selection uses the regular generator for a regular notice and the
      contempt generator for every other type. */
  function GenerateWith(w: Wording, t: NoticeType, lang: Language, c: Case, dept: Department,
                        sub: Option<SubDepartment>, formatDate: DateFormatter): Generated
  {
    if t == Regular then GenerateRegular(w, lang, c, dept, sub, formatDate)
    else GenerateContempt(w, lang, c, formatDate)
  }

  /** The generator as the component runs it, in the wording of `lang`. */
  function GenerateContent(t: NoticeType, lang: Language, c: Case, dept: Department,
                           sub: Option<SubDepartment>, formatDate: DateFormatter): Generated
  {
    GenerateWith(WordingFor(lang), t, lang, c, dept, sub, formatDate)
  }

  // Letter number and signature block.

  /** The matter token of the letter number; it does not depend on the language. */
  function LetterToken(t: NoticeType): string {
    if t == Contempt then "अवमानना" else "रिट"
  }

  /** `serial/token/year`, where `serial` is the pseudo-random part. */
  function LetterNumber(serial: int, t: NoticeType, year: nat): string
    requires 1000 <= serial <= 9999
  {
    Decimal(serial) + "/" + LetterToken(t) + "/" + Decimal(year)
  }

  // Properties of the generated text.

  /** What the proofs need of a wording table: the two subject prefixes part
      ways at some index, and the sub-department label and the hearing
      placeholder are not empty. */
  predicate WellFormedWording(w: Wording, k: nat) {
    && k < |w.regularSubjectPrefix| && k < |w.contemptSubjectPrefix|
    && w.regularSubjectPrefix[k] != w.contemptSubjectPrefix[k]
    && w.subDepartmentLabel != "" && w.hearingPlaceholder != ""
  }

  /** The index at which the subject prefixes of a language part ways. */
  function SubjectFork(lang: Language): nat {
    match lang
    case Hi => 0
    case En => 10
  }

  lemma WordingForWellFormed(lang: Language)
    ensures WellFormedWording(WordingFor(lang), SubjectFork(lang))
  {
    SubjectPrefixesFork(lang);
    WordingForFields(lang);
  }

  lemma SubjectPrefixesFork(lang: Language)
    ensures SubjectFork(lang) < |RegularSubjectPrefix(lang)|
    ensures SubjectFork(lang) < |ContemptSubjectPrefix(lang)|
    ensures RegularSubjectPrefix(lang)[SubjectFork(lang)] != ContemptSubjectPrefix(lang)[SubjectFork(lang)]
    ensures SubDepartmentLabel(lang) != "" && HearingPlaceholder(lang) != ""
  {
  }

  lemma WordingForFields(lang: Language)
    ensures WordingFor(lang).regularSubjectPrefix == RegularSubjectPrefix(lang)
    ensures WordingFor(lang).contemptSubjectPrefix == ContemptSubjectPrefix(lang)
    ensures WordingFor(lang).subDepartmentLabel == SubDepartmentLabel(lang)
    ensures WordingFor(lang).hearingPlaceholder == HearingPlaceholder(lang)
  {
    var w := WordingFor(lang);
    assert w == Wording(
      RegularSubjectPrefix(lang), RegularSubjectSuffix(lang),
      ContemptSubjectPrefix(lang), ContemptSubjectSuffix(lang),
      RegularIntro(lang), NameLabel(lang), CaseNumberLabel(lang), FilingDateLabel(lang),
      DepartmentLabel(lang), SubDepartmentLabel(lang), RegularClosing(lang),
      ContemptOpening(lang), ContemptMiddle(lang), HearingPlaceholder(lang), ContemptClosing(lang),
      Signatory(lang), Designation(lang));
  }

  datatype SubjectParts = SubjectParts(contempt: bool, caseNumber: string)

  /** Reads back which template a subject line came from and its case number. */
  function ParseSubject(w: Wording, s: string): Option<SubjectParts> {
    if Framed(s, w.regularSubjectPrefix, w.regularSubjectSuffix) then
      Some(SubjectParts(false, Unframe(s, w.regularSubjectPrefix, w.regularSubjectSuffix)))
    else if Framed(s, w.contemptSubjectPrefix, w.contemptSubjectSuffix) then
      Some(SubjectParts(true, Unframe(s, w.contemptSubjectPrefix, w.contemptSubjectSuffix)))
    else None
  }

  /** The generated subject names the case and tells the two templates apart:
      a regular notice gets the writ subject, every other type the contempt one. */
  lemma SubjectRoundTrip(w: Wording, k: nat, t: NoticeType, lang: Language, c: Case, dept: Department,
                         sub: Option<SubDepartment>, formatDate: DateFormatter)
    requires WellFormedWording(w, k)
    ensures ParseSubject(w, GenerateWith(w, t, lang, c, dept, sub, formatDate).subject)
            == Some(SubjectParts(t != Regular, c.caseNumber))
  {
    if t == Regular {
      FramedRoundTrip(w.regularSubjectPrefix, c.caseNumber, w.regularSubjectSuffix);
    } else {
      var s := ContemptSubject(w, c.caseNumber);
      FramedRoundTrip(w.contemptSubjectPrefix, c.caseNumber, w.contemptSubjectSuffix);
      assert s[k] == w.contemptSubjectPrefix[k];
      NotFramedAt(s, w.regularSubjectPrefix, w.regularSubjectSuffix, k);
    }
  }

  /** The same for the subject lines the component writes. */
  lemma GeneratedSubjectRoundTrip(t: NoticeType, lang: Language, c: Case, dept: Department,
                                  sub: Option<SubDepartment>, formatDate: DateFormatter)
    ensures ParseSubject(WordingFor(lang), GenerateContent(t, lang, c, dept, sub, formatDate).subject)
            == Some(SubjectParts(t != Regular, c.caseNumber))
  {
    WordingForWellFormed(lang);
    SubjectRoundTrip(WordingFor(lang), SubjectFork(lang), t, lang, c, dept, sub, formatDate);
  }

  /** The regular body carries each numbered line with its value, and the
      sub-department line. */
  lemma RegularContentMentions(w: Wording, lang: Language, c: Case, dept: Department, sub: Option<SubDepartment>,
                               formatDate: DateFormatter)
    ensures var body := RegularContent(w, lang, c, dept, sub, formatDate);
      && Occurs(body, w.nameLabel + c.name)
      && Occurs(body, w.caseNumberLabel + c.caseNumber)
      && Occurs(body, w.filingDateLabel + formatDate(c.filingDate, lang))
      && Occurs(body, w.departmentLabel + DepartmentName(dept, lang))
      && Occurs(body, SubDepartmentLine(w, lang, sub))
  {
    var xs := RegularPieces(w, lang, c, dept, sub, formatDate);
    JoinContainsPair(xs, 3);
    JoinContainsPair(xs, 6);
    JoinContainsPair(xs, 9);
    JoinContainsPair(xs, 12);
    JoinContains(xs, 15);
  }

  /** With or without a sub-department the regular body is the same text
      except for the sub-department line, and that line is empty exactly when
      there is no sub-department. */
  lemma RegularSubDepartmentSlot(w: Wording, k: nat, lang: Language, c: Case, dept: Department,
                                 sub: Option<SubDepartment>, formatDate: DateFormatter)
    requires WellFormedWording(w, k)
    ensures exists head, tail ::
      && RegularContent(w, lang, c, dept, None, formatDate) == head + tail
      && RegularContent(w, lang, c, dept, sub, formatDate) == head + SubDepartmentLine(w, lang, sub) + tail
    ensures SubDepartmentLine(w, lang, sub) == "" <==> sub.None?
  {
    var xs := RegularPieces(w, lang, c, dept, sub, formatDate);
    var ys := RegularPieces(w, lang, c, dept, None, formatDate);
    SamePiecesAroundSlot(w, lang, c, dept, sub, formatDate);
    JoinAround(xs, 15);
    JoinAround(ys, 15);
    assert ys[15] == "";
    var head, tail := Join(ys[..15]), Join(ys[16..]);
    assert RegularContent(w, lang, c, dept, None, formatDate) == head + "" + tail;
  }

  lemma SamePiecesAroundSlot(w: Wording, lang: Language, c: Case, dept: Department,
                             sub: Option<SubDepartment>, formatDate: DateFormatter)
    ensures var xs := RegularPieces(w, lang, c, dept, sub, formatDate);
      var ys := RegularPieces(w, lang, c, dept, None, formatDate);
      xs[..15] == ys[..15] && xs[16..] == ys[16..] && xs[15] == SubDepartmentLine(w, lang, sub)
  {
  }

  /** The contempt body names the case number and party, and carries the
      formatted hearing date when the case has one and the placeholder phrase
      otherwise, always in the same place. */
  lemma ContemptHearingSlot(w: Wording, lang: Language, c: Case, formatDate: DateFormatter)
    ensures Occurs(ContemptContent(w, lang, c, formatDate), c.caseNumber + ", " + c.name)
    ensures HasHearingDate(c) ==>
      Occurs(ContemptContent(w, lang, c, formatDate), formatDate(c.hearingDate.value, lang))
    ensures !HasHearingDate(c) ==> Occurs(ContemptContent(w, lang, c, formatDate), w.hearingPlaceholder)
    ensures exists head, tail ::
      && ContemptContent(w, lang, c, formatDate) == head + HearingSlot(w, lang, c, formatDate) + tail
      && ContemptContent(w, lang, c.(hearingDate := None), formatDate) == head + w.hearingPlaceholder + tail
  {
    var xs := ContemptPieces(w, lang, c, formatDate);
    var ys := ContemptPieces(w, lang, c.(hearingDate := None), formatDate);
    JoinContains(xs, 1);
    JoinContains(xs, 3);
    JoinAround(xs, 3);
    JoinAround(ys, 3);
    assert xs[..3] == ys[..3] && xs[4..] == ys[4..];
  }

  /** The placeholder does not occur exactly once in every contempt body
      without a hearing date: a party named like the placeholder makes it
      occur twice. */
  lemma PlaceholderCanRepeat(w: Wording, k: nat, lang: Language, c: Case, formatDate: DateFormatter)
    requires WellFormedWording(w, k)
    requires !HasHearingDate(c) && c.name == w.hearingPlaceholder
    ensures exists i, j ::
      && i != j
      && ContainsAt(ContemptContent(w, lang, c, formatDate), w.hearingPlaceholder, i)
      && ContainsAt(ContemptContent(w, lang, c, formatDate), w.hearingPlaceholder, j)
  {
    var p := w.hearingPlaceholder;
    var xs := ContemptPieces(w, lang, c, formatDate);
    var body := ContemptContent(w, lang, c, formatDate);
    JoinContains(xs, 1);
    JoinContains(xs, 3);
    var i0 := |Join(xs[..1])|;
    ContainsTail(body, c.caseNumber + ", ", p, i0);
    JoinAround(xs[..3], 1);
    assert xs[..3][..1] == xs[..1] && xs[..3][1] == xs[1];
    assert |Join(xs[..3])| >= i0 + |xs[1]|;
  }

  datatype LetterParts = LetterParts(serial: nat, contempt: bool, year: nat)

  /** Reads a letter number `NNNN/token/year` back into its parts. */
  function ParseLetterNumber(s: string): (r: Option<LetterParts>)
    ensures r.Some? ==> 1000 <= r.value.serial <= 9999
  {
    var (serialText, rest) := SplitFirst(s, '/');
    if rest.None? || |serialText| != 4 then None
    else
      var (token, yearText) := SplitFirst(rest.value, '/');
      if yearText.None? then None
      else match (ParseDecimal(serialText), ParseDecimal(yearText.value))
        case (Some(n), Some(y)) =>
          DecimalBound(serialText);
          assert Pow10(4) == 10000;
          if n < 1000 then None
          else if token == LetterToken(Contempt) then Some(LetterParts(n, true, y))
          else if token == LetterToken(Regular) then Some(LetterParts(n, false, y))
          else None
        case _ => None
  }

  /** A letter number reads back as its serial, whether it is a contempt
      matter, and the year; the serial takes exactly four digits. */
  lemma LetterNumberRoundTrip(serial: int, t: NoticeType, year: nat)
    requires 1000 <= serial <= 9999
    ensures |Decimal(serial)| == 4
    ensures ParseLetterNumber(LetterNumber(serial, t, year)) == Some(LetterParts(serial, t == Contempt, year))
  {
    var n, tok, y := Decimal(serial), LetterToken(t), Decimal(year);
    FourDigits(serial);
    DecimalRoundTrip(serial);
    DecimalRoundTrip(year);
    assert LetterNumber(serial, t, year) == n + ['/'] + (tok + ['/'] + y);
    SplitFirstAt(n, '/', tok + ['/'] + y);
    assert forall k :: 0 <= k < |tok| ==> tok[k] != '/';
    SplitFirstAt(tok, '/', y);
    assert LetterToken(Contempt) != LetterToken(Regular);
  }
}
