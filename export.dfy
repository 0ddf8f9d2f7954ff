/** The PDF export of the daily report screen: the suggested file name
    (the `fileName` of PDFDownloadLink) and the content MyDocument lays out. */
module Export {
  import opened JsValues
  import opened Records
  import opened Report

  const Prefix := "daily_report_"
  const Extension := ".pdf"

  // ---------------------------------------------------------------- file name

  /** `daily_report_${date}${specialty ? `_${specialty}` : ''}.pdf` */
  function FileName(date: string, specialty: string): (name: string)
    ensures var head := Prefix + date;
            |name| == |head| + (if specialty != "" then 1 + |specialty| else 0) + |Extension| &&
            name[..|head|] == head &&
            name[|name| - |Extension|..] == Extension &&
            name[|head|..|name| - |Extension|] == (if specialty != "" then "_" + specialty else "")
  {
    Prefix + date + (if specialty != "" then "_" + specialty else "") + Extension
  }

  /** Reads the specialty back out of a file name made for `date`: `None` when
      the name is not of that form. */
  function ParseSpecialty(date: string, name: string): (specialty: Option<string>)
    ensures specialty.Some? ==> |name| >= |Prefix| + |date| + |Extension|
  {
    var head := Prefix + date;
    if |name| < |head| + |Extension| || name[..|head|] != head || name[|name| - |Extension|..] != Extension then None
    else
      var middle := name[|head|..|name| - |Extension|];
      if middle == "" then Some("")
      else if middle[0] == '_' && |middle| > 1 then Some(middle[1..])
      else None
  }

  /** The specialty can always be read back from the name: the name carries
      the selection it was made for. */
  lemma ParseFileName(date: string, specialty: string)
    ensures ParseSpecialty(date, FileName(date, specialty)) == Some(specialty)
  {
  }

  /** And a name that parses is the name made for what it parses to. */
  lemma FileNameOfParse(date: string, name: string)
    requires ParseSpecialty(date, name).Some?
    ensures FileName(date, ParseSpecialty(date, name).value) == name
  {
    var head := Prefix + date;
    var middle := name[|head|..|name| - |Extension|];
    assert name == name[..|head|] + middle + name[|name| - |Extension|..];
    var specialty := ParseSpecialty(date, name).value;
    if middle != "" {
      assert middle == "_" + middle[1..];
    }
  }

  /** For one date, different specialties (including none versus some) give
      different file names. */
  lemma FileNameInjective(date: string, specialty1: string, specialty2: string)
    requires specialty1 != specialty2
    ensures FileName(date, specialty1) != FileName(date, specialty2)
  {
    ParseFileName(date, specialty1);
    ParseFileName(date, specialty2);
  }

  lemma ShorterDateDiffers(date1: string, specialty1: string, date2: string, specialty2: string)
    requires |date1| < |date2| && '_' !in date2
    ensures FileName(date1, specialty1) != FileName(date2, specialty2)
  {
    var name1, name2 := FileName(date1, specialty1), FileName(date2, specialty2);
    if specialty1 != "" {
      var k := |Prefix| + |date1|;
      assert name1[k] == name1[|Prefix + date1|..|name1| - |Extension|][0] == '_';
      assert name2[k] == name2[..|Prefix + date2|][k] == date2[|date1|];
      assert date2[|date1|] in date2;
    } else {
      assert |name1| < |name2|;
    }
  }

  /** Dates as the date control yields them (YYYY-MM-DD) contain no
      underscore; for such dates the file name determines both the date and
      the specialty. */
  lemma FileNameDeterminesSelection(date1: string, specialty1: string, date2: string, specialty2: string)
    requires '_' !in date1 && '_' !in date2
    requires FileName(date1, specialty1) == FileName(date2, specialty2)
    ensures date1 == date2 && specialty1 == specialty2
  {
    if |date1| < |date2| {
      ShorterDateDiffers(date1, specialty1, date2, specialty2);
    } else if |date2| < |date1| {
      ShorterDateDiffers(date2, specialty2, date1, specialty1);
    } else {
      assert (Prefix + date1)[|Prefix|..] == date1;
      assert (Prefix + date2)[|Prefix|..] == date2;
      if specialty1 != specialty2 {
        FileNameInjective(date1, specialty1, specialty2);
      }
    }
  }

  /** Without that restriction on the date the name is ambiguous. */
  lemma FileNameAmbiguousForUnderscoreDates()
    ensures FileName("2024_05", "") == FileName("2024", "05")
  {
  }

  // ---------------------------------------------------------------- document

  /** One line of the appointments table. */
  datatype AppointmentLine = AppointmentLine(patientName: string, medicalNumber: string,
                                             specialty: string, appointmentType: string, notes: string)

  /** The line shown for an appointment: its own fields, the type as its label. */
  function AppointmentLineOf(a: Appointment): (line: AppointmentLine)
    ensures line.patientName == a.patientName && line.medicalNumber == a.patientMedicalNumber
    ensures line.specialty == a.clinicSpecialty && line.notes == a.notes
    ensures line.appointmentType == if a.appointmentType.Urgent? then "Urgent" else "Regular"
  {
    AppointmentLine(a.patientName, a.patientMedicalNumber, a.clinicSpecialty, TypeLabel(a.appointmentType), a.notes)
  }

  /** `appointments.map(...)` into table lines, in order. */
  function AppointmentLines(appointments: seq<Appointment>): (lines: seq<AppointmentLine>)
    ensures |lines| == |appointments|
    ensures forall i :: 0 <= i < |appointments| ==> lines[i] == AppointmentLineOf(appointments[i])
  {
    seq(|appointments|, i requires 0 <= i < |appointments| => AppointmentLineOf(appointments[i]))
  }

  /** The content of MyDocument: title, date, the specialty line only when a
      specialty is selected, the patients-and-consultations table and the
      appointments table. The generation timestamp of the footer is not part
      of this model. */
  datatype ReportDocument = ReportDocument(title: string, dateLine: string, specialtyLine: Option<string>,
                                           patientLines: seq<PatientLine>,
                                           appointmentLines: seq<AppointmentLine>)

  /** MyDocument for the given rows, appointments and selection. */
  function BuildDocument(rows: seq<Row>, appointments: seq<Appointment>,
                         date: string, specialty: string): (doc: ReportDocument)
    ensures doc.dateLine == "Date: " + date
    ensures doc.specialtyLine.Some? <==> specialty != ""
    ensures doc.specialtyLine.Some? ==> doc.specialtyLine.value == "Specialty: " + specialty
    ensures |doc.patientLines| == |rows|
    ensures forall i :: 0 <= i < |rows| ==> doc.patientLines[i] == DisplayLine(rows[i])
    ensures |doc.appointmentLines| == |appointments|
    ensures forall i :: 0 <= i < |appointments| ==> doc.appointmentLines[i] == AppointmentLineOf(appointments[i])
  {
    ReportDocument("Daily Patient Report", "Date: " + date,
                   if specialty != "" then Some("Specialty: " + specialty) else None,
                   PatientLines(rows), AppointmentLines(appointments))
  }
}
