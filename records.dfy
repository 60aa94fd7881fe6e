/** The two record kinds of the application: patients and visits, and the
    partial visit record that an update spreads over a visit. */
module Records {
  import opened Wrappers

  /** A patient of the directory; `mrn` is the medical record number. */
  datatype Patient = Patient(id: string, name: string, dob: string, gender: string, mrn: string)

  /** Vital signs, every one of them optional. Temperature and heart rate are
      JavaScript numbers, kept here as opaque reals. */
  datatype Vitals = Vitals(temperature: Option<real>, heartRate: Option<real>, bloodPressure: Option<string>)

  /** The empty vitals object `{}`. */
  const NoVitals := Vitals(None, None, None)

  /** A visit; `date` is the day in yyyy-MM-dd form and `medications` is an
      ordered list in which duplicates and empty entries are allowed. */
  datatype Visit = Visit(
    id: string,
    patientId: string,
    date: string,
    chiefComplaint: string,
    diagnosis: string,
    notes: string,
    medications: seq<string>,
    vitals: Vitals)

  /** A partial visit (`Partial<Visit>`): a field is `Some` exactly when the
      update object has that key. */
  datatype VisitUpdate = VisitUpdate(
    id: Option<string>,
    patientId: Option<string>,
    date: Option<string>,
    chiefComplaint: Option<string>,
    diagnosis: Option<string>,
    notes: Option<string>,
    medications: Option<seq<string>>,
    vitals: Option<Vitals>)

  /** The update object `{}`. */
  const NoChanges := VisitUpdate(None, None, None, None, None, None, None, None)

  function Pick<T>(base: T, field: Option<T>): T {
    if field.Some? then field.value else base
  }

  /** `r` agrees with `v` on every field that `u` does not carry. */
  predicate KeepsAbsent(v: Visit, r: Visit, u: VisitUpdate) {
    && (u.id.None? ==> r.id == v.id)
    && (u.patientId.None? ==> r.patientId == v.patientId)
    && (u.date.None? ==> r.date == v.date)
    && (u.chiefComplaint.None? ==> r.chiefComplaint == v.chiefComplaint)
    && (u.diagnosis.None? ==> r.diagnosis == v.diagnosis)
    && (u.notes.None? ==> r.notes == v.notes)
    && (u.medications.None? ==> r.medications == v.medications)
    && (u.vitals.None? ==> r.vitals == v.vitals)
  }

  /** `r` holds the value of every field that `u` carries. */
  predicate TakesPresent(r: Visit, u: VisitUpdate) {
    && (u.id.Some? ==> r.id == u.id.value)
    && (u.patientId.Some? ==> r.patientId == u.patientId.value)
    && (u.date.Some? ==> r.date == u.date.value)
    && (u.chiefComplaint.Some? ==> r.chiefComplaint == u.chiefComplaint.value)
    && (u.diagnosis.Some? ==> r.diagnosis == u.diagnosis.value)
    && (u.notes.Some? ==> r.notes == u.notes.value)
    && (u.medications.Some? ==> r.medications == u.medications.value)
    && (u.vitals.Some? ==> r.vitals == u.vitals.value)
  }

  /** `{ ...v, ...u }`: the keys present in `u` win, the others keep `v`'s. */
  function Merge(v: Visit, u: VisitUpdate): (r: Visit)
    ensures TakesPresent(r, u) && KeepsAbsent(v, r, u)
  {
    Visit(
      Pick(v.id, u.id),
      Pick(v.patientId, u.patientId),
      Pick(v.date, u.date),
      Pick(v.chiefComplaint, u.chiefComplaint),
      Pick(v.diagnosis, u.diagnosis),
      Pick(v.notes, u.notes),
      Pick(v.medications, u.medications),
      Pick(v.vitals, u.vitals))
  }

  /** `{ ...u1, ...u2 }`: two updates spread one after the other. */
  function Then(u1: VisitUpdate, u2: VisitUpdate): VisitUpdate {
    VisitUpdate(
      if u2.id.Some? then u2.id else u1.id,
      if u2.patientId.Some? then u2.patientId else u1.patientId,
      if u2.date.Some? then u2.date else u1.date,
      if u2.chiefComplaint.Some? then u2.chiefComplaint else u1.chiefComplaint,
      if u2.diagnosis.Some? then u2.diagnosis else u1.diagnosis,
      if u2.notes.Some? then u2.notes else u1.notes,
      if u2.medications.Some? then u2.medications else u1.medications,
      if u2.vitals.Some? then u2.vitals else u1.vitals)
  }

  /** Spreading `{}` changes nothing. */
  lemma MergeNoChanges(v: Visit)
    ensures Merge(v, NoChanges) == v
  {
  }

  /** Spreading the same update twice is spreading it once. */
  lemma MergeIdempotent(v: Visit, u: VisitUpdate)
    ensures Merge(Merge(v, u), u) == Merge(v, u)
  {
  }

  /** Two spreads in a row are one spread of the combined update. */
  lemma MergeThen(v: Visit, u1: VisitUpdate, u2: VisitUpdate)
    ensures Merge(Merge(v, u1), u2) == Merge(v, Then(u1, u2))
  {
  }
}
