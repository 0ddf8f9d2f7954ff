/** The records the daily report screen fetches (DailyReportManagement.tsx,
    interfaces Patient, Consultation and Appointment). The merged list of the
    screen holds rows of two shapes; here that list is a tagged union. */
module Records {
  import opened JsValues

  /** One row of the merged list: an admitted patient (a row of the `patients`
      table) or a consultation (a row of the `consultations` table). The two
      shapes share the identifying fields and differ in the specialty and
      diagnosis fields. Any string may be empty. */
  datatype Row =
    | Patient(mrn: string, patientName: string, age: int, gender: string,
              admissionDate: string, specialty: string, patientStatus: string,
              diagnosis: string, updatedAt: string)
    | Consultation(mrn: string, patientName: string, age: int, gender: string,
                   createdAt: string, consultationSpecialty: string, status: string,
                   requestingDepartment: string, updatedAt: string)

  /** A row as the `patients` query returns it. */
  type PatientData = r: Row | r.Patient?
    witness Patient("", "", 0, "", "", "", "", "", "")

  /** A row as the `consultations` query returns it. */
  type ConsultationData = r: Row | r.Consultation?
    witness Consultation("", "", 0, "", "", "", "", "", "")

  datatype AppointmentType = Urgent | Regular

  /** A row of the `clinic_appointments` table. */
  datatype Appointment = Appointment(appointmentId: string, patientName: string,
                                     patientMedicalNumber: string, clinicSpecialty: string,
                                     appointmentType: AppointmentType, notes: string,
                                     createdAt: string)

  /** What a backend query hands back: its data (which may be `null`) and its
      error (absent on success). */
  datatype QueryResult<T> = QueryResult(data: Option<seq<T>>, error: Option<string>)

  /** `(row as Patient).specialty`: a Consultation has no such property. */
  function SpecialtyField(r: Row): Option<string>
  {
    if r.Patient? then Some(r.specialty) else None
  }

  /** `(row as Consultation).consultation_specialty`. */
  function ConsultationSpecialtyField(r: Row): Option<string>
  {
    if r.Consultation? then Some(r.consultationSpecialty) else None
  }

  /** `(row as Patient).diagnosis`. */
  function DiagnosisField(r: Row): Option<string>
  {
    if r.Patient? then Some(r.diagnosis) else None
  }

  /** `(row as Consultation).requesting_department`. */
  function RequestingDepartmentField(r: Row): Option<string>
  {
    if r.Consultation? then Some(r.requestingDepartment) else None
  }

  /** The label the `appointment_type` column shows. */
  function TypeLabel(t: AppointmentType): string
  {
    match t
    case Urgent => "Urgent"
    case Regular => "Regular"
  }
}
