# Daily report screen: data logic

A model of the data logic behind the daily report screen of a hospital
management web application (`src/components/DailyReportManagement.tsx`). The
screen fetches the day's admitted patients and consultations, merges them
into one list of two row shapes, filters that list by the selected specialty,
shows it (with the day's clinic appointments) as tables and exports the same
data as a PDF whose file name records the date and the specialty.

What is modelled:

- `js_values.dfy` (module `JsValues`): the JavaScript rules the code leans on.
  A property read on a row of the other shape gives `undefined` (`None`);
  `||` keeps its left operand only when it is a non-empty string; `===` never
  equates `undefined` with a string; React shows `undefined` as nothing.
- `records.dfy` (module `Records`): the merged list's row as a tagged union
  `Patient(...) | Consultation(...)` (any string may be empty), subset types
  for the rows each query returns, appointments, and a query result made of
  data that may be `null` and an optional error.
- `report.dfy` (module `Report`): the merge (patients then consultations),
  the specialty filter of `filterPatients`, and the specialty and
  diagnosis/department columns with their `||` fall-through.
- `export.dfy` (module `Export`): the PDF file name and the content of the
  PDF document.
- `screen.dfy` (module `Screen`): the component's state as a class whose
  methods are the fetch and filter steps, and the table and export derived
  from that state.

Backend queries are parameters: a fetch method receives what each query
returned. The current date is a parameter of the constructor.

Every row has exactly one shape. With `||`, a
Patient whose specialty (or diagnosis) is empty falls through to a property
it does not have. The cell's value is then `undefined` and it shows as empty,
the same text as the empty field (`Report.SpecialtyCell`, `Report.DisplayLine`).

## Model

| member | source | states |
|---|---|---|
| `Report.Merge` | src/components/DailyReportManagement.tsx:272-277 | the merged list has length \|patients\| + \|consultations\|; the first \|patients\| rows are the patient rows and only those are Patient-shaped; the rest are the consultation rows, each part in received order |
| `Report.MergeData` | src/components/DailyReportManagement.tsx:272-275 | a `null` query result counts as empty; the length is the sum of the two result lengths; two `null`s give the empty list |
| `Report.MergeSplits` | src/components/DailyReportManagement.tsx:272-277 | splitting the merged list by row shape gives back exactly both query results, so no row is lost, reordered or invented |
| `Report.KeepRow` | src/components/DailyReportManagement.tsx:314-317 | the filter callback, evaluated with JavaScript's `undefined` on the absent property, keeps a row exactly when its own specialty field equals the selection |
| `Report.FilterRows` | src/components/DailyReportManagement.tsx:314-317 | `.filter` yields an order-preserving subsequence of its input in which every row carries the selected specialty |
| `Report.FilterRowsCounts` | src/components/DailyReportManagement.tsx:313-318 | each matching row is kept as many times as it occurs, and no non-matching row is kept |
| `Report.SpecialtyFilter` | src/components/DailyReportManagement.tsx:310-321 | no specialty selected: the visible list is the fetched list; otherwise an order-preserving subsequence whose rows all carry the selection |
| `Report.VisibleExactly` | src/components/DailyReportManagement.tsx:313-318 | with a specialty S selected, a row is visible iff it was fetched and is a Patient with specialty S or a Consultation with consultation specialty S, with its fetched multiplicity |
| `Report.VisibleSubset` | src/components/DailyReportManagement.tsx:310-321 | the visible rows are a sub-multiset of the fetched rows and no more numerous |
| `Report.CardiologyScenario` | src/components/DailyReportManagement.tsx:310-321 | two Cardiology and one Neurology admission, one Cardiology and one Neurology consultation: Cardiology shows exactly three rows, in fetched order; no selection shows all five |
| `Report.SpecialtyCell` | src/components/DailyReportManagement.tsx:159 | specialty column value (also line 403): a Patient's non-empty specialty; `undefined` for a Patient with an empty one; a Consultation's consultation specialty |
| `Report.DiagnosisCell` | src/components/DailyReportManagement.tsx:164 | diagnosis column value (also line 406): a Patient's non-empty diagnosis; `undefined` for an empty one; a Consultation's requesting department |
| `Report.DisplayLine` | src/components/DailyReportManagement.tsx:150-167 | a table line shows the row's MRN, name, age and gender; its specialty text is the row's own specialty field and its diagnosis text is a Patient's diagnosis or a Consultation's requesting department |
| `Report.PatientLines` | src/components/DailyReportManagement.tsx:150-168 | the table (PDF and on screen, also lines 397-409) has one line per row, in order, each the row's display line |
| `Report.VisibleLinesShowSelection` | src/components/DailyReportManagement.tsx:397-407 | with a specialty selected, every line of the visible table shows that specialty |
| `Export.FileName` | src/components/DailyReportManagement.tsx:367 | the file name is `daily_report_` and the date, then `_` and the specialty only when one is selected, then `.pdf`, and its length is the sum of those parts |
| `Export.ParseFileName` | src/components/DailyReportManagement.tsx:367 | the specialty selection can be read back from the file name made for it |
| `Export.FileNameOfParse` | src/components/DailyReportManagement.tsx:367 | every name that reads back as a specialty is the file name made for that specialty |
| `Export.FileNameInjective` | src/components/DailyReportManagement.tsx:367 | for one date, two different specialties (including none versus some) give different file names |
| `Export.FileNameDeterminesSelection` | src/components/DailyReportManagement.tsx:367 | for dates without an underscore (the date control's YYYY-MM-DD), equal file names mean equal date and equal specialty |
| `Export.FileNameAmbiguousForUnderscoreDates` | src/components/DailyReportManagement.tsx:367 | a date containing `_` with no specialty gives the same file name as a shorter date with a specialty |
| `Export.AppointmentLineOf` | src/components/DailyReportManagement.tsx:181-187 | an appointment line shows the patient name, medical number, clinic specialty, the type as "Urgent" or "Regular", and the notes |
| `Export.AppointmentLines` | src/components/DailyReportManagement.tsx:180-188 | the appointments table has one line per appointment, in order, each that appointment's line |
| `Export.BuildDocument` | src/components/DailyReportManagement.tsx:130-196 | the document shows the date, a specialty line exactly when a specialty is selected, one table line per given row and one appointment line per given appointment, in order |
| `Screen.DailyReportManagement.constructor` | src/components/DailyReportManagement.tsx:199-205 | the state starts with empty lists, today's date, no specialty and loading on; the visible list is consistent with the fetched one |
| `Screen.DailyReportManagement.BeginFetchPatients` | src/components/DailyReportManagement.tsx:248 | loading is switched on before the queries are awaited |
| `Screen.DailyReportManagement.FinishFetchPatients` | src/components/DailyReportManagement.tsx:269-283 | an error from either query leaves the stored list unchanged; otherwise it becomes the merge with `null` read as empty; loading is off in both cases |
| `Screen.DailyReportManagement.FetchPatients` | src/components/DailyReportManagement.tsx:246-284 | the whole fetch: loading ends off; on error the stored list, and with it the consistency of the visible list, is kept; on success the stored list is the merge |
| `Screen.DailyReportManagement.FetchAppointments` | src/components/DailyReportManagement.tsx:286-308 | on success the appointment list becomes the result with `null` read as empty; on error it is unchanged |
| `Screen.DailyReportManagement.FilterPatients` | src/components/DailyReportManagement.tsx:310-321 | the visible list becomes the specialty filter of the stored list; with no specialty selected it is the stored list itself |
| `Screen.DailyReportManagement.SetSelectedDate` | src/components/DailyReportManagement.tsx:338 | the date control sets the selected date |
| `Screen.DailyReportManagement.SetSelectedSpecialty` | src/components/DailyReportManagement.tsx:346 | the specialty control sets the selected specialty |
| `Screen.DailyReportManagement.PatientTable` | src/components/DailyReportManagement.tsx:397-409 | the on-screen table has one line per visible row, in order, each the row's display line |
| `Screen.DailyReportManagement.ExportDocument` | src/components/DailyReportManagement.tsx:358-366 | the export shows exactly the lines of the on-screen table of visible rows, but every fetched appointment whatever its specialty; its specialty line is present iff a specialty is selected |
| `Screen.DailyReportManagement.ExportFileName` | src/components/DailyReportManagement.tsx:367 | the current specialty selection can be read back from the export's file name |

## Left out

- The backend queries (range, equality and ordering filters on `patients`, `consultations` and `clinic_appointments`): they run in a remote database; the model receives their results.
- The day window computed with `Date`, `setHours` and `toISOString`: it depends on the local time zone and the JavaScript date library.
- `fetchDailyReports` and its state: its data is never shown.
- React scheduling: which effect runs when, and the race between overlapping fetches. The model offers the steps; it does not decide their order.
- The appointments fetch's and patients fetch's error notifications and console output.
- The PDF renderer, its page styles, its "Generating PDF..." label, and the footer timestamp from `toLocaleString`.
- The text of the "age / gender" column: the model keeps age and gender as values rather than formatting the number.
- The "Loading..." placeholder and the empty-table messages of the rendered screen.
- The list of specialties offered by the specialty control: it lives in a file that is not part of this model; a specialty is any string.
