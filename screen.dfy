/** The state of the DailyReportManagement component and the steps that change
    it: the patients fetch (fetchPatients), the appointments fetch
    (fetchAppointments), the specialty filter (filterPatients) and the two
    filter controls. What the screen and the PDF export show is derived from
    this state by functions. */
module Screen {
  import opened JsValues
  import opened Records
  import opened Report
  import opened Export

  class DailyReportManagement {
    /** The merged list as last fetched. */
    var patients: seq<Row>
    /** The rows shown and exported. */
    var filteredPatients: seq<Row>
    var appointments: seq<Appointment>
    var selectedDate: string
    /** The empty string stands for "All Specialties". */
    var selectedSpecialty: string
    var loading: bool

    /** The visible rows are the filter of the fetched rows for the current
        selection (what filterPatients establishes). */
    predicate FilterCurrent()
      reads this
    {
      filteredPatients == SpecialtyFilter(patients, selectedSpecialty)
    }

    /** The initial state; `today` is the current date as YYYY-MM-DD. */
    constructor (today: string)
      ensures patients == [] && filteredPatients == [] && appointments == []
      ensures selectedDate == today && selectedSpecialty == "" && loading
      ensures FilterCurrent()
    {
      patients := [];
      filteredPatients := [];
      appointments := [];
      selectedDate := today;
      selectedSpecialty := "";
      loading := true;
    }

    /** `setLoading(true)`, before the two queries are awaited. */
    method BeginFetchPatients()
      modifies this`loading
      ensures loading
    {
      loading := true;
    }

    /** The rest of fetchPatients, once both queries have answered: an error
        from either query leaves the stored list as it was; otherwise the list
        becomes the merge of the two results, `null` read as empty. In both
        cases loading ends. */
    method FinishFetchPatients(patientsResult: QueryResult<PatientData>,
                               consultationsResult: QueryResult<ConsultationData>)
      modifies this`patients, this`loading
      ensures !loading
      ensures patientsResult.error.Some? || consultationsResult.error.Some? ==> patients == old(patients)
      ensures patientsResult.error.None? && consultationsResult.error.None? ==>
                patients == MergeData(patientsResult.data, consultationsResult.data)
    {
      // An error from either query abandons the update.
      if patientsResult.error.None? && consultationsResult.error.None? {
        var combinedData := Merge(OrEmpty(patientsResult.data), OrEmpty(consultationsResult.data));
        patients := combinedData;
      }
      loading := false;
    }

    /** fetchPatients as a whole. A failed fetch keeps the visible rows
        consistent with the stored ones. */
    method FetchPatients(patientsResult: QueryResult<PatientData>,
                         consultationsResult: QueryResult<ConsultationData>)
      modifies this`patients, this`loading
      ensures !loading
      ensures patientsResult.error.Some? || consultationsResult.error.Some? ==>
                patients == old(patients) && (old(FilterCurrent()) ==> FilterCurrent())
      ensures patientsResult.error.None? && consultationsResult.error.None? ==>
                patients == MergeData(patientsResult.data, consultationsResult.data)
    {
      BeginFetchPatients();
      FinishFetchPatients(patientsResult, consultationsResult);
    }

    /** fetchAppointments: on success the list becomes the result, `null`
        read as empty; on error it is left as it was. */
    method FetchAppointments(result: QueryResult<Appointment>)
      modifies this`appointments
      ensures result.error.Some? ==> appointments == old(appointments)
      ensures result.error.None? ==> appointments == OrEmpty(result.data)
    {
      if result.error.None? {
        appointments := OrEmpty(result.data);
      }
    }

    /** filterPatients. */
    method FilterPatients()
      modifies this`filteredPatients
      ensures FilterCurrent()
      ensures selectedSpecialty == "" ==> filteredPatients == patients
    {
      var filtered := patients;
      if selectedSpecialty != "" {
        filtered := FilterRows(filtered, selectedSpecialty);
      }
      filteredPatients := filtered;
    }

    /** The date control's onChange. */
    method SetSelectedDate(date: string)
      modifies this`selectedDate
      ensures selectedDate == date
    {
      selectedDate := date;
    }

    /** The specialty control's onChange. */
    method SetSelectedSpecialty(specialty: string)
      modifies this`selectedSpecialty
      ensures selectedSpecialty == specialty
    {
      selectedSpecialty := specialty;
    }

    /** The lines of the on-screen patients-and-consultations table. */
    function PatientTable(): (lines: seq<PatientLine>)
      reads this
      ensures |lines| == |filteredPatients|
      ensures forall i :: 0 <= i < |lines| ==> lines[i] == DisplayLine(filteredPatients[i])
    {
      PatientLines(filteredPatients)
    }

    /** The document handed to PDFDownloadLink: the visible rows, the same
        lines as the on-screen table, and every fetched appointment, whatever
        its clinic specialty. */
    function ExportDocument(): (doc: ReportDocument)
      reads this
      ensures doc.patientLines == PatientTable()
      ensures |doc.appointmentLines| == |appointments|
      ensures forall i :: 0 <= i < |appointments| ==> doc.appointmentLines[i] == AppointmentLineOf(appointments[i])
      ensures doc.specialtyLine.Some? <==> selectedSpecialty != ""
    {
      BuildDocument(filteredPatients, appointments, selectedDate, selectedSpecialty)
    }

    /** The suggested file name; the current specialty selection can be read
        back from it. */
    function ExportFileName(): (name: string)
      reads this
      ensures ParseSpecialty(selectedDate, name) == Some(selectedSpecialty)
    {
      ParseFileName(selectedDate, selectedSpecialty);
      FileName(selectedDate, selectedSpecialty)
    }
  }
}
