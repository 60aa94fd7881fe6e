/** The visit edit form: the validation schema, as a predicate over the form
    values, and the mapping of an accepted form to the update that "Save"
    spreads over the visit. */
module VisitForm {
  import opened Wrappers
  import opened Sequences
  import opened Records

  /** The date field: a parsed date (held as its yyyy-MM-dd rendering) or
      the invalid date that parsing an unreadable input produces. */
  datatype DateInput = Day(text: string) | InvalidDate

  /** A numeric field read with `valueAsNumber`: never touched (undefined), a
      number, or NaN (a cleared input). */
  datatype NumberInput = Blank | Number(value: real) | NotANumber

  datatype FormVitals = FormVitals(temperature: NumberInput, heartRate: NumberInput, bloodPressure: Option<string>)

  datatype FormValues = FormValues(
    date: DateInput,
    chiefComplaint: string,
    diagnosis: string,
    notes: string,
    medications: seq<string>,
    vitals: FormVitals)

  /** One failed rule of the schema, named after its field. */
  datatype FormError =
    | DateError
    | ChiefComplaintError
    | DiagnosisError
    | NotesError
    | MedicationsError
    | TemperatureError
    | HeartRateError

  /** The message the schema attaches to a rule; `None` where the schema
      leaves the validation library's default message. */
  function Message(e: FormError): (r: Option<string>)
    ensures r.Some? <==> e.ChiefComplaintError? || e.DiagnosisError? || e.NotesError? || e.MedicationsError?
    ensures r.Some? ==> |r.value| > 0
  {
    match e
    case ChiefComplaintError => Some("Chief complaint is required")
    case DiagnosisError => Some("Diagnosis is required")
    case NotesError => Some("Notes are required")
    case MedicationsError => Some("At least one medication is required")
    case _ => None
  }

  /** An optional number accepts an absent value or a number, never NaN. */
  predicate OptionalNumber(n: NumberInput) {
    !n.NotANumber?
  }

  /** The schema: a valid date; non-empty chief complaint, diagnosis and
      notes; at least one medication entry (an entry may be empty); vitals
      that are absent or of the right kind. */
  predicate Accepts(f: FormValues) {
    && f.date.Day?
    && |f.chiefComplaint| >= 1
    && |f.diagnosis| >= 1
    && |f.notes| >= 1
    && |f.medications| >= 1
    && OptionalNumber(f.vitals.temperature)
    && OptionalNumber(f.vitals.heartRate)
  }

  /** Whether the rule behind error `e` fails on `f`. */
  predicate Fails(f: FormValues, e: FormError) {
    match e
    case DateError => f.date.InvalidDate?
    case ChiefComplaintError => f.chiefComplaint == ""
    case DiagnosisError => f.diagnosis == ""
    case NotesError => f.notes == ""
    case MedicationsError => f.medications == []
    case TemperatureError => f.vitals.temperature.NotANumber?
    case HeartRateError => f.vitals.heartRate.NotANumber?
  }

  /** The rules in the schema's field order. */
  const Rules := [DateError, ChiefComplaintError, DiagnosisError, NotesError,
                  MedicationsError, TemperatureError, HeartRateError]

  /** Every kind of error has its rule in `Rules`. */
  lemma RulesComplete()
    ensures forall e :: e in Rules
  {
    forall e: FormError ensures e in Rules {
      match e
      case DateError => assert Rules[0] == e;
      case ChiefComplaintError => assert Rules[1] == e;
      case DiagnosisError => assert Rules[2] == e;
      case NotesError => assert Rules[3] == e;
      case MedicationsError => assert Rules[4] == e;
      case TemperatureError => assert Rules[5] == e;
      case HeartRateError => assert Rules[6] == e;
    }
  }

  /** The failed rules, in the schema's field order. */
  function Errors(f: FormValues): (r: seq<FormError>)
    ensures forall e :: e in r <==> Fails(f, e)
    ensures r == [] <==> Accepts(f)
  {
    RulesComplete();
    Filter(Rules, (e: FormError) => Fails(f, e))
  }

  /** The rules that carry the schema's own message are reported exactly
      when their field is empty: the chief complaint, diagnosis or notes
      text, or the medication list. */
  lemma ReportedMessages(f: FormValues, e: FormError)
    ensures e in Errors(f) && Message(e).Some? <==>
      || (e == ChiefComplaintError && f.chiefComplaint == "")
      || (e == DiagnosisError && f.diagnosis == "")
      || (e == NotesError && f.notes == "")
      || (e == MedicationsError && f.medications == [])
  {
  }

  function NumberValue(n: NumberInput): Option<real> {
    if n.Number? then Some(n.value) else None
  }

  /** The vitals object of an accepted form. */
  function RecordedVitals(fv: FormVitals): (r: Vitals)
    requires OptionalNumber(fv.temperature) && OptionalNumber(fv.heartRate)
    ensures r.temperature.Some? <==> fv.temperature.Number?
    ensures r.heartRate.Some? <==> fv.heartRate.Number?
    ensures fv.temperature.Number? ==> r.temperature.value == fv.temperature.value
    ensures fv.heartRate.Number? ==> r.heartRate.value == fv.heartRate.value
    ensures r.bloodPressure == fv.bloodPressure
  {
    Vitals(NumberValue(fv.temperature), NumberValue(fv.heartRate), fv.bloodPressure)
  }

  /** Submitting the form: the failed rules, or the update holding all six
      form fields (and neither the id nor the owning patient). */
  function Submission(f: FormValues): (r: Result<VisitUpdate, seq<FormError>>)
    ensures r.Success? <==> Accepts(f)
    ensures r.Failure? ==> r.error == Errors(f) && r.error != []
    ensures r.Success? ==>
      && r.value.id.None? && r.value.patientId.None?
      && r.value.date == Some(f.date.text)
      && r.value.chiefComplaint == Some(f.chiefComplaint)
      && r.value.diagnosis == Some(f.diagnosis)
      && r.value.notes == Some(f.notes)
      && r.value.medications == Some(f.medications)
      && r.value.vitals == Some(RecordedVitals(f.vitals))
  {
    var errors := Errors(f);
    if errors != [] then Failure(errors)
    else Success(VisitUpdate(
      None, None,
      Some(f.date.text),
      Some(f.chiefComplaint),
      Some(f.diagnosis),
      Some(f.notes),
      Some(f.medications),
      Some(RecordedVitals(f.vitals))))
  }

  /** Saving an accepted form over any visit leaves its id and patient and
      replaces every other field by the form's. */
  lemma SavedVisit(v: Visit, f: FormValues)
    requires Accepts(f)
    ensures Merge(v, Submission(f).value)
         == Visit(v.id, v.patientId, f.date.text, f.chiefComplaint, f.diagnosis,
                  f.notes, f.medications, RecordedVitals(f.vitals))
  {
  }
}
