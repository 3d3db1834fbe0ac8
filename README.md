# Court notice writer — a Dafny model

The court-notice writer is a six-step form. Its steps are:

1. Choose the interface language (Hindi or English) and the notice type (writ petition, contempt application or custom).
2. Pick a department.
3. Pick a sub-department, or view all of the department's cases.
4. Pick a case.
5. Edit the notice that was generated for that case.
6. Fill in a custom notice.

Picking a case generates:

- the subject line and body text from a writ or a contempt template, in the interface language;
- a letter number `NNNN/token/year`;
- the signature block.

The model has four modules:

- `NoticeTypes`: the records (department, sub-department, case, draft) and the requests to the data service with their answers.
- `Text`: string facts used to state properties. These cover where a piece occurs, decimal rendering and parsing, splitting at a separator, and joining template pieces.
- `NoticeContent`: the two generators, the letter number, and the signature texts.
  - The fixed phrases of each language form a `Wording` table, and the component's two tables are `WordingFor(lang)`.
  - Every property is proved for any table; `WordingForWellFormed` shows that the component's tables meet the lemmas' premise.
  - `ParseSubject` and `ParseLetterNumber` are the inverses the round-trip lemmas use.
- `NoticeWorkflow`: the workflow, in two forms.
  - As values: `State`, `Event`, `Next` (the state an enabled event leads to) and `Run` (a sequence of events).
  - As the component itself: the class `CourtNoticeWriter`. Its fields are the component's state hooks. Each handler method updates the fields and ensures that the new state is `Next` of the old state for that event, and that `Valid()` still holds.

The workflow takes the wording table as a parameter. The class keeps it in a constant `wording`, which the constructor sets to `WordingFor`. `Valid()` states that it agrees with `WordingFor` in both languages, so the handlers write the component's own texts. The workflow lemmas about the generated notice are proved for any well-formed table.

`Valid()` is also the step invariant. It says that:

- the draft's own language is always Hi;
- step 1 holds the default draft;
- steps 3–5 hold a department, and step 5 a case;
- step 6 holds a custom draft with no department, sub-department or case.

The component's non-null assertions on the department rely on this invariant.

Outside effects are recorded rather than performed, or passed in as parameters:

- Data requests are appended to a `requests` log. Their answers arrive through `ApplyFetchResult` (the `FetchCompleted` event).
- The host's date formatting in the hi-IN and en-GB locales is a function-valued parameter `formatDate`.
- The current date string, the current year and the pseudo-random serial of the letter number are method parameters. Only the serial's range [1000, 9999] is assumed.

Behaviours of the source kept as they are:

- The generators read the interface language at the time a case is picked. The draft's own `language` field stays Hi throughout.
- The language select changes only the interface language.
- Each text input sets one draft field.
- Back from steps 3, 4 and 5 only moves the step back. A sub-department once chosen therefore stays in the draft after going back and choosing "view all cases" (`StaleSubDepartment`). The draft can then pair a department with a sub-department of another department, and the writ body names that sub-department. The model keeps this behaviour as the code has it.
- Back on steps 2 and 6 and "new notice" reset the form. The reset empties the sub-department and case lists and keeps the language and the departments.

Three points of the code that a reader might expect otherwise:

- A failed request leaves the lists as they were, rather than emptying them (`ApplyResult`, `FetchFailed`).
- A cases response without a `cases` member empties the case list.
- Back from step 3 to 2 does not clear the sub-department list.

## Model

| member | source | states |
|---|---|---|
| NoticeWorkflow.CourtNoticeWriter.constructor | src/components/NoticeWriter.tsx:72-106 | mounting starts on step 1 with the default draft dated today, interface language Hi, empty lists, and one departments request issued |
| NoticeWorkflow.Initial | src/components/NoticeWriter.tsx:72-96 | the initial state satisfies the step invariant, is on step 1, and has issued exactly the departments request |
| NoticeWorkflow.CasesRequest | src/components/NoticeWriter.tsx:121-127 | the cases request is for the given department; it carries a sub-department filter exactly when the id is present and non-empty, and then the filter is that id |
| NoticeWorkflow.WithField | src/components/NoticeWriter.tsx:475-535 | a text input sets its own draft field to the typed value; every other field, and the type, language, department, sub-department and case, stay unchanged |
| NoticeWorkflow.NextWellformed | src/components/NoticeWriter.tsx:206-259 | every enabled event keeps the step invariant, so the department is present whenever a handler dereferences it |
| NoticeWorkflow.Run | src/components/NoticeWriter.tsx:262-701 | every state reached by a sequence of enabled events keeps the step invariant, and the request log only grows at its end |
| NoticeWorkflow.CaseSelectionWritesNotice | src/components/NoticeWriter.tsx:227-243 | picking a case stores it in the draft, and the subject parses back to the case number and whether it is a contempt matter; the letter number parses back to the serial, contempt token and year, the signature block is the interface language's, and the draft language stays Hi |
| NoticeWorkflow.CaseSelectionContent | src/components/NoticeWriter.tsx:138-204 | the body written on case selection contains, for a writ notice, the name, case-number, filing-date and department lines with their values and the line of the draft's sub-department, and, for a contempt notice, the case number with the party and the hearing date or else the placeholder |
| NoticeWorkflow.StaleSubDepartment | src/components/NoticeWriter.tsx:389-392 | from step 4, Back, Back, another department and "view all cases" reach step 4 again with a draft that pairs the new department with the old sub-department; the only requests issued are the sub-departments request and an unfiltered cases request; an old sub-department of another department then no longer matches the draft's department |
| NoticeWorkflow.CourtNoticeWriter.SetLanguage | src/components/NoticeWriter.tsx:274-281 | the language select changes the interface language and nothing else |
| NoticeWorkflow.CourtNoticeWriter.HandleNoticeTypeSelect | src/components/NoticeWriter.tsx:206-213 | the notice type is set; a custom notice goes to step 6, any other type to step 2; the invariant holds |
| NoticeWorkflow.CourtNoticeWriter.HandleDepartmentSelect | src/components/NoticeWriter.tsx:215-219 | the department is set, the sub-departments request for its id is issued, and the step becomes 3 |
| NoticeWorkflow.CourtNoticeWriter.HandleSubDepartmentSelect | src/components/NoticeWriter.tsx:221-225 | the sub-department is set, the cases request for the department is issued with the sub-department id as filter when that id is non-empty, and the step becomes 4 |
| NoticeWorkflow.CourtNoticeWriter.ViewAllCases | src/components/NoticeWriter.tsx:389-392 | an unfiltered cases request for the draft's department is issued, the step becomes 4 and the draft is unchanged |
| NoticeWorkflow.CourtNoticeWriter.HandleCaseSelect | src/components/NoticeWriter.tsx:227-243 | the draft takes the case, the generated subject and body, the letter number and the signature block; the step becomes 5 and the invariant holds |
| NoticeWorkflow.CourtNoticeWriter.ResetForm | src/components/NoticeWriter.tsx:245-259 | step 1, the default draft dated today, and empty sub-department and case lists; the language, departments and request log are kept |
| NoticeWorkflow.CourtNoticeWriter.GoBack | src/components/NoticeWriter.tsx:358-359 | Back resets the form on steps 2 and 6 and on steps 3 to 5 moves one step back with everything else unchanged (also at lines 405, 457, 556 and 684) |
| NoticeWorkflow.CourtNoticeWriter.NewNotice | src/components/NoticeWriter.tsx:568-569 | "new notice" on step 5 resets the form |
| NoticeWorkflow.CourtNoticeWriter.EditField | src/components/NoticeWriter.tsx:598-662 | a text input of step 5 or 6 replaces that one draft field; the invariant holds |
| NoticeWorkflow.CourtNoticeWriter.ApplyFetchResult | src/components/NoticeWriter.tsx:98-136 | an answer replaces the list it is for; a cases answer without cases empties the case list; a failure changes nothing |
| NoticeContent.WordingFor | src/components/NoticeWriter.tsx:141-201 | definition: the fixed phrases of each language's templates; its properties are stated by WordingForWellFormed and GeneratedSubjectRoundTrip |
| NoticeContent.GenerateRegular | src/components/NoticeWriter.tsx:138-174 | definition of the writ generator; its properties are stated by SubjectRoundTrip, RegularContentMentions and RegularSubDepartmentSlot |
| NoticeContent.GenerateContempt | src/components/NoticeWriter.tsx:176-204 | definition of the contempt generator; its properties are stated by SubjectRoundTrip, ContemptHearingSlot and PlaceholderCanRepeat |
| NoticeContent.GenerateWith | src/components/NoticeWriter.tsx:228-231 | definition: the writ generator for a regular notice and the contempt generator otherwise; its properties are stated by SubjectRoundTrip and CaseSelectionContent |
| NoticeContent.LetterToken | src/components/NoticeWriter.tsx:238 | definition: the contempt token for a contempt notice and the writ token otherwise; its properties are stated by LetterNumberRoundTrip |
| NoticeContent.LetterNumber | src/components/NoticeWriter.tsx:238 | definition: serial, token and year joined by slashes; its properties are stated by LetterNumberRoundTrip and ParseLetterNumber |
| NoticeContent.Signatory | src/components/NoticeWriter.tsx:239 | definition: the signatory in the interface language; stated of the draft by CaseSelectionWritesNotice |
| NoticeContent.Designation | src/components/NoticeWriter.tsx:240 | definition: the designation in the interface language; stated of the draft by CaseSelectionWritesNotice |
| NoticeWorkflow.CaseDraft | src/components/NoticeWriter.tsx:233-241 | definition of the draft written on case selection; its properties are stated by CaseSelectionWritesNotice and CaseSelectionContent, and HandleCaseSelect performs it |
| NoticeWorkflow.Reset | src/components/NoticeWriter.tsx:245-259 | definition of the form reset; its properties are stated by ResetForm and NextWellformed |
| NoticeWorkflow.ApplyResult | src/components/NoticeWriter.tsx:98-136 | definition of how an answer updates the lists (lines 102, 113 and 130, and the catch blocks); ApplyFetchResult performs it |
| NoticeWorkflow.Enabled | src/components/NoticeWriter.tsx:262-701 | definition: which events each rendered step offers; the handlers require it and NextWellformed and Run rely on it |
| NoticeWorkflow.Next | src/components/NoticeWriter.tsx:206-259 | definition of the state each event leads to; its properties are stated by NextWellformed, Run, CaseSelectionWritesNotice, CaseSelectionContent and StaleSubDepartment, and each handler method performs it |
| NoticeContent.WordingForWellFormed | src/components/NoticeWriter.tsx:141-198 | in both languages the writ and contempt subject prefixes differ at a known index, and the sub-department label and the hearing placeholder are non-empty |
| NoticeContent.SubjectRoundTrip | src/components/NoticeWriter.tsx:227-231 | for any well-formed wording, the generated subject parses back to the case number, with the writ template for a regular notice and the contempt template for every other type |
| NoticeContent.GeneratedSubjectRoundTrip | src/components/NoticeWriter.tsx:141-192 | the same, for the component's own Hindi and English subject lines |
| NoticeContent.RegularContentMentions | src/components/NoticeWriter.tsx:142-171 | the writ body contains each numbered line with its value (name, case number, formatted filing date, department name in the interface language) and the sub-department line |
| NoticeContent.RegularSubDepartmentSlot | src/components/NoticeWriter.tsx:149-166 | with and without a sub-department the writ body is the same text apart from the sub-department line, which is empty exactly when there is no sub-department |
| NoticeContent.ContemptHearingSlot | src/components/NoticeWriter.tsx:180-201 | the contempt body contains the case number and party, and the formatted hearing date when one is present and non-empty, else the placeholder, in the same position |
| NoticeContent.PlaceholderCanRepeat | src/components/NoticeWriter.tsx:181-198 | counterexample: when the party's name equals the placeholder and there is no hearing date, the placeholder occurs at two different positions, so it is not always present exactly once |
| NoticeContent.ParseLetterNumber | src/components/NoticeWriter.tsx:238 | a letter number that parses has a four-digit serial in [1000, 9999] |
| NoticeContent.LetterNumberRoundTrip | src/components/NoticeWriter.tsx:238 | a serial in [1000, 9999] renders with exactly four digits, and the letter number parses back to the serial, whether the matter is a contempt one, and the year |

## Left out

- Network, asynchrony and the loading flag: requests are logged instead of performed. Answers may arrive at any time and in any order. The lists on screen are not hidden while a request is in flight. Racing answers are not told apart.
- Printing (`window.print`), the print style sheet and all rendering. This includes the urgency marker and the addressee block of the printed notice, and the labels of the form.
- The host's locale date formatting, `new Date()` and `getFullYear`: these are parameters. The date string of the default draft is `today`, and the hearing and filing dates are formatted by `formatDate`.
- `Math.random`: the serial is a parameter. `Enabled` restricts it to the range the expression `Math.floor(Math.random() * 9000) + 1000` yields.
- Unused fields: the case's petition number, notice number and writ type, and the draft's custom content (lines 24-26 and 39), which nothing reads or writes. Also the console error logging.
- NoticeContent.ContemptHearingSlot: does not state that the placeholder occurs exactly once in a contempt body without a hearing date, because that is false. `PlaceholderCanRepeat` exhibits a party name that makes it occur twice. The lemma states instead that the placeholder fills the one hearing slot of the template.
