/** The data logic of the daily report screen: merging the two query results
    into one list (fetchPatients), the specialty filter (filterPatients) and the
    display columns derived from a row (the patients table and MyDocument). */
module Report {
  import opened JsValues
  import opened Records

  // ---------------------------------------------------------------- merge

  /** `[...(patientsData || []), ...(consultationsData || [])]`: every patient
      row, then every consultation row, each in the order received. */
  function Merge(patients: seq<PatientData>, consultations: seq<ConsultationData>): (rows: seq<Row>)
    ensures |rows| == |patients| + |consultations|
    ensures forall i :: 0 <= i < |rows| ==> (rows[i].Patient? <==> i < |patients|)
    ensures rows[..|patients|] == patients && rows[|patients|..] == consultations
  {
    patients + consultations
  }

  /** The merged list built from two possibly-`null` query results. */
  function MergeData(patients: Option<seq<PatientData>>, consultations: Option<seq<ConsultationData>>): (rows: seq<Row>)
    ensures |rows| == |OrEmpty(patients)| + |OrEmpty(consultations)|
    ensures patients.None? && consultations.None? ==> rows == []
  {
    Merge(OrEmpty(patients), OrEmpty(consultations))
  }

  /** The patient rows of a list, in order. */
  function PatientsOf(rows: seq<Row>): seq<PatientData>
  {
    if rows == [] then []
    else if rows[0].Patient? then [rows[0]] + PatientsOf(rows[1..])
    else PatientsOf(rows[1..])
  }

  /** The consultation rows of a list, in order. */
  function ConsultationsOf(rows: seq<Row>): seq<ConsultationData>
  {
    if rows == [] then []
    else if rows[0].Consultation? then [rows[0]] + ConsultationsOf(rows[1..])
    else ConsultationsOf(rows[1..])
  }

  lemma {:induction false} PatientsOfMerge(patients: seq<PatientData>, consultations: seq<ConsultationData>)
    ensures PatientsOf(patients + consultations) == patients
  {
    if patients == [] {
      assert patients + consultations == consultations;
      NoPatientsAmongConsultations(consultations);
    } else {
      assert (patients + consultations)[1..] == patients[1..] + consultations;
      PatientsOfMerge(patients[1..], consultations);
    }
  }

  lemma {:induction false} NoPatientsAmongConsultations(consultations: seq<ConsultationData>)
    ensures PatientsOf(consultations) == []
  {
    if consultations != [] {
      NoPatientsAmongConsultations(consultations[1..]);
    }
  }

  lemma {:induction false} ConsultationsOfMerge(patients: seq<PatientData>, consultations: seq<ConsultationData>)
    ensures ConsultationsOf(patients + consultations) == consultations
  {
    if patients == [] {
      assert patients + consultations == consultations;
      AllConsultationsKept(consultations);
    } else {
      assert (patients + consultations)[1..] == patients[1..] + consultations;
      ConsultationsOfMerge(patients[1..], consultations);
    }
  }

  lemma {:induction false} AllConsultationsKept(consultations: seq<ConsultationData>)
    ensures ConsultationsOf(consultations) == consultations
  {
    if consultations != [] {
      AllConsultationsKept(consultations[1..]);
      assert consultations == [consultations[0]] + consultations[1..];
    }
  }

  /** Splitting the merged list by row shape gives back exactly the two query
      results: the merge loses, reorders and invents no row. */
  lemma MergeSplits(patients: seq<PatientData>, consultations: seq<ConsultationData>)
    ensures PatientsOf(Merge(patients, consultations)) == patients
    ensures ConsultationsOf(Merge(patients, consultations)) == consultations
  {
    PatientsOfMerge(patients, consultations);
    ConsultationsOfMerge(patients, consultations);
  }

  // ---------------------------------------------------------------- filter

  /** A subsequence: `sub` is `full` with some elements removed, order kept. */
  predicate IsSubsequence(sub: seq<Row>, full: seq<Row>)
    decreases |full|
  {
    sub == [] ||
    (full != [] &&
     ((sub[0] == full[0] && IsSubsequence(sub[1..], full[1..])) || IsSubsequence(sub, full[1..])))
  }

  lemma {:induction false} SubsequenceMultiset(sub: seq<Row>, full: seq<Row>)
    requires IsSubsequence(sub, full)
    ensures multiset(sub) <= multiset(full)
    ensures |sub| <= |full|
    decreases |full|
  {
    if sub != [] {
      assert full == [full[0]] + full[1..];
      if sub[0] == full[0] && IsSubsequence(sub[1..], full[1..]) {
        SubsequenceMultiset(sub[1..], full[1..]);
        assert sub == [sub[0]] + sub[1..];
      } else {
        SubsequenceMultiset(sub, full[1..]);
      }
    }
  }

  lemma {:induction false} SubsequenceReflexive(s: seq<Row>)
    ensures IsSubsequence(s, s)
  {
    if s != [] {
      SubsequenceReflexive(s[1..]);
    }
  }

  /** The specialty a row carries: a Patient's `specialty` or a Consultation's
      `consultation_specialty`. */
  function RowSpecialty(r: Row): string
  {
    if r.Patient? then r.specialty else r.consultationSpecialty
  }

  /** The callback of the `.filter` in filterPatients, as JavaScript evaluates
      it on a row of either shape: a missing property reads as `undefined`,
      which is strictly equal to no string. It keeps exactly the rows whose own
      specialty field equals the selected specialty. */
  function KeepRow(r: Row, selected: string): (keep: bool)
    ensures keep <==> RowSpecialty(r) == selected
  {
    StrictEquals(SpecialtyField(r), selected) || StrictEquals(ConsultationSpecialtyField(r), selected)
  }

  /** `rows.filter(row => KeepRow(row, selected))`. */
  function FilterRows(rows: seq<Row>, selected: string): (kept: seq<Row>)
    ensures IsSubsequence(kept, rows)
    ensures forall i :: 0 <= i < |kept| ==> RowSpecialty(kept[i]) == selected
  {
    if rows == [] then []
    else if KeepRow(rows[0], selected) then [rows[0]] + FilterRows(rows[1..], selected)
    else FilterRows(rows[1..], selected)
  }

  /** The filter keeps every occurrence of every matching row and no
      occurrence of any other row. */
  lemma {:induction false} FilterRowsCounts(rows: seq<Row>, selected: string, x: Row)
    ensures multiset(FilterRows(rows, selected))[x] ==
            if RowSpecialty(x) == selected then multiset(rows)[x] else 0
  {
    if rows != [] {
      FilterRowsCounts(rows[1..], selected, x);
      assert rows == [rows[0]] + rows[1..];
    }
  }

  /** filterPatients: the visible rows. The list is filtered only when a
      specialty is selected (the empty string is falsy). */
  function SpecialtyFilter(rows: seq<Row>, selected: string): (visible: seq<Row>)
    ensures selected == "" ==> visible == rows
    ensures IsSubsequence(visible, rows)
    ensures selected != "" ==> forall i :: 0 <= i < |visible| ==> RowSpecialty(visible[i]) == selected
  {
    if selected != "" then FilterRows(rows, selected)
    else SubsequenceReflexive(rows); rows
  }

  /** With a specialty selected, a row is visible exactly when it is a Patient
      whose specialty is the selection or a Consultation whose consultation
      specialty is the selection; it appears as often as it was fetched. */
  lemma VisibleExactly(rows: seq<Row>, selected: string, x: Row)
    requires selected != ""
    ensures x in SpecialtyFilter(rows, selected) <==>
            x in rows && ((x.Patient? && x.specialty == selected) ||
                          (x.Consultation? && x.consultationSpecialty == selected))
    ensures multiset(SpecialtyFilter(rows, selected))[x] ==
            if RowSpecialty(x) == selected then multiset(rows)[x] else 0
  {
    FilterRowsCounts(rows, selected, x);
  }

  /** The visible rows are a sub-multiset of the fetched rows. */
  lemma VisibleSubset(rows: seq<Row>, selected: string)
    ensures multiset(SpecialtyFilter(rows, selected)) <= multiset(rows)
    ensures |SpecialtyFilter(rows, selected)| <= |rows|
  {
    SubsequenceMultiset(SpecialtyFilter(rows, selected), rows);
  }

  // ---------------------------------------------------------------- display

  /** The value of the specialty column, `(row as Patient).specialty ||
      (row as Consultation).consultation_specialty`: a Patient's non-empty
      specialty; for a Patient with an empty specialty the `||` falls through
      to a property the row lacks, so `undefined`; a Consultation's
      consultation specialty, empty or not. */
  function SpecialtyCell(r: Row): (v: Option<string>)
    ensures r.Patient? && r.specialty != "" ==> v == Some(r.specialty)
    ensures r.Patient? && r.specialty == "" ==> v == None
    ensures r.Consultation? ==> v == Some(r.consultationSpecialty)
  {
    Or(SpecialtyField(r), ConsultationSpecialtyField(r))
  }

  /** The value of the diagnosis column, `(row as Patient).diagnosis ||
      (row as Consultation).requesting_department`, with the same fall-through. */
  function DiagnosisCell(r: Row): (v: Option<string>)
    ensures r.Patient? && r.diagnosis != "" ==> v == Some(r.diagnosis)
    ensures r.Patient? && r.diagnosis == "" ==> v == None
    ensures r.Consultation? ==> v == Some(r.requestingDepartment)
  {
    Or(DiagnosisField(r), RequestingDepartmentField(r))
  }

  /** One line of the patients-and-consultations table. The age / gender
      column is kept as its two values. */
  datatype PatientLine = PatientLine(mrn: string, patientName: string, age: int, gender: string,
                                     specialty: string, diagnosisOrDepartment: string)

  /** The line shown for a row: the text shown in either shape's own
      specialty and diagnosis column is that shape's own field. */
  function DisplayLine(r: Row): (line: PatientLine)
    ensures line.mrn == r.mrn && line.patientName == r.patientName
    ensures line.age == r.age && line.gender == r.gender
    ensures line.specialty == RowSpecialty(r)
    ensures line.diagnosisOrDepartment == if r.Patient? then r.diagnosis else r.requestingDepartment
  {
    PatientLine(r.mrn, r.patientName, r.age, r.gender, Render(SpecialtyCell(r)), Render(DiagnosisCell(r)))
  }

  /** `rows.map(...)` into table lines, in order. */
  function PatientLines(rows: seq<Row>): (lines: seq<PatientLine>)
    ensures |lines| == |rows|
    ensures forall i :: 0 <= i < |rows| ==> lines[i] == DisplayLine(rows[i])
  {
    seq(|rows|, i requires 0 <= i < |rows| => DisplayLine(rows[i]))
  }

  /** With a specialty selected, every visible line shows that specialty. */
  lemma VisibleLinesShowSelection(rows: seq<Row>, selected: string)
    requires selected != ""
    ensures forall line :: line in PatientLines(SpecialtyFilter(rows, selected)) ==> line.specialty == selected
  {
    var visible := SpecialtyFilter(rows, selected);
    forall line | line in PatientLines(visible) ensures line.specialty == selected {
      var i :| 0 <= i < |visible| && PatientLines(visible)[i] == line;
    }
  }

  /** Three admissions (two in Cardiology, one in Neurology) and two
      consultations (one in Cardiology): selecting Cardiology shows three rows,
      the two Cardiology admissions first. */
  lemma CardiologyScenario()
    ensures
      var p1 := Patient("M1", "Ann", 40, "F", "", "Cardiology", "", "Angina", "");
      var p2 := Patient("M2", "Ben", 51, "M", "", "Neurology", "", "Stroke", "");
      var p3 := Patient("M3", "Cal", 66, "M", "", "Cardiology", "", "", "");
      var c1 := Consultation("M4", "Dee", 30, "F", "", "Cardiology", "", "ER", "");
      var c2 := Consultation("M5", "Eve", 25, "F", "", "Neurology", "", "ICU", "");
      var ps: seq<PatientData> := [p1, p2, p3];
      var cs: seq<ConsultationData> := [c1, c2];
      SpecialtyFilter(Merge(ps, cs), "Cardiology") == [p1, p3, c1] &&
      SpecialtyFilter(Merge(ps, cs), "") == [p1, p2, p3, c1, c2]
  {
  }
}
