/** The application controller: the state the page component holds and the
    handlers the page's buttons and inputs invoke. Each handler is one atomic
    transition of that state. */
module App {
  import opened Wrappers
  import opened Records
  import opened Directory
  import opened Ledger
  import opened VisitForm

  /** What the main panel shows: no patient, a patient without a visit, or a
      visit in view or in edit mode. */
  datatype Mode = Idle | PatientSelected | VisitViewing | VisitEditing

  const MockPatients: seq<Patient> := [
    Patient("1", "John Doe", "1990-05-15", "Male", "12345"),
    Patient("2", "Jane Smith", "1985-10-22", "Female", "67890"),
    Patient("3", "Robert Jones", "2002-03-08", "Male", "24680"),
    Patient("4", "Alice Brown", "1998-12-01", "Female", "13579"),
    Patient("5", "Michael Davis", "1976-07-19", "Male", "98765")
  ]

  const MockVisits: seq<Visit> := [
    Visit("v1", "1", "2024-01-10", "Fever and cough", "Influenza",
      "Patient presented with a high fever and persistent cough.  Prescribed Tamiflu and advised to rest.",
      ["Tamiflu 75mg BID x 5 days"], Vitals(Some(39.2), Some(110.0), Some("130/80"))),
    Visit("v2", "1", "2024-01-15", "Follow-up visit", "Influenza",
      "Patient reports improvement in symptoms. Fever subsided. Continue medication as prescribed.",
      ["Tamiflu 75mg BID x 5 days"], Vitals(Some(37.0), Some(80.0), Some("120/70"))),
    Visit("v3", "2", "2024-02-01", "Abdominal pain", "Appendicitis",
      "Patient presented with severe right lower quadrant pain.  CT scan confirmed appendicitis.  Scheduled for surgery.",
      ["IV fluids", "Ceftriaxone 1g IV"], Vitals(Some(38.5), Some(100.0), Some("140/90"))),
    Visit("v4", "3", "2024-02-15", "Headache", "Migraine",
      "Patient reports severe headache with nausea.  Prescribed sumatriptan.",
      ["Sumatriptan 100mg PRN"], Vitals(Some(37.2), Some(72.0), Some("110/70"))),
    Visit("v5", "4", "2024-03-01", "Chest pain", "GERD",
      "Patient reports chest pain, worse after eating.  Prescribed omeprazole.",
      ["Omeprazole 20mg daily"], Vitals(Some(36.8), Some(78.0), Some("125/80"))),
    Visit("v6", "5", "2024-03-10", "Rash", "Allergic reaction",
      "Patient presented with a widespread rash after taking new medication.  Discontinued medication and prescribed antihistamines.",
      ["Cetirizine 10mg daily"], Vitals(Some(37.5), Some(85.0), Some("130/85"))),
    Visit("v7", "2", "2024-02-03", "Post-operative check", "Appendicitis",
      "Patient recovering well from appendectomy.  Wound clean and dry.  Discharge instructions given.",
      ["Pain medication PRN"], Vitals(Some(37.0), Some(75.0), Some("120/80")))
  ]

  class EMRApp {
    var patients: seq<Patient>
    var visits: seq<Visit>
    var selectedPatientId: Option<string>
    var selectedVisitId: Option<string>
    var isEditingVisit: bool
    var searchTerm: string

    /** The patient whose id is selected, if it is in the directory. */
    function SelectedPatient(): Option<Patient>
      reads this
    {
      FindPatient(patients, selectedPatientId)
    }

    /** The visit whose id is selected, if it is in the ledger. */
    function SelectedVisit(): Option<Visit>
      reads this
    {
      FindVisit(visits, selectedVisitId)
    }

    /** The sidebar's list of patients. */
    function FilteredPatients(): seq<Patient>
      reads this
    {
      FilterPatients(patients, searchTerm)
    }

    /** The visit panel shows a visit only when the selected one exists, and
        the edit flag matters only then. */
    function CurrentMode(): Mode
      reads this
    {
      if SelectedVisit().Some? then (if isEditingVisit then VisitEditing else VisitViewing)
      else if SelectedPatient().Some? then PatientSelected
      else Idle
    }

    constructor ()
      ensures patients == MockPatients && visits == MockVisits
      ensures selectedPatientId == None && selectedVisitId == None
      ensures !isEditingVisit && searchTerm == ""
      ensures CurrentMode() == Idle
    {
      patients := MockPatients;
      visits := MockVisits;
      selectedPatientId := None;
      selectedVisitId := None;
      isEditingVisit := false;
      searchTerm := "";
    }

    /** "View Details" on a visit row: select it, in view mode. */
    method SelectVisit(visitId: string)
      modifies this`selectedVisitId, this`isEditingVisit
      ensures selectedVisitId == Some(visitId) && !isEditingVisit
      ensures (exists v :: v in visits && v.id == visitId) ==> CurrentMode() == VisitViewing
    {
      selectedVisitId := Some(visitId);
      isEditingVisit := false;
    }

    /** Save: spread the update over every visit with id `id`, and leave edit
        mode whether or not a visit matched. */
    method UpdateVisit(id: string, updates: VisitUpdate)
      modifies this`visits, this`isEditingVisit
      ensures visits == UpdateVisits(old(visits), id, updates)
      ensures !isEditingVisit
      ensures old(UniqueIds(visits)) && updates.id.None? ==> UniqueIds(visits)
    {
      visits := UpdateVisits(visits, id, updates);
      isEditingVisit := false;
    }

    /** Delete: drop every visit with id `id`, clear the selected visit
        (whichever it was) and leave edit mode. */
    method DeleteVisit(id: string)
      modifies this`visits, this`selectedVisitId, this`isEditingVisit
      ensures visits == DeleteVisits(old(visits), id)
      ensures selectedVisitId == None && !isEditingVisit
      ensures CurrentMode() == if SelectedPatient().Some? then PatientSelected else Idle
      ensures old(UniqueIds(visits)) ==> UniqueIds(visits)
    {
      if UniqueIds(visits) && !FreshId(visits, id) {
        ghost var i :| 0 <= i < |visits| && visits[i].id == id;
        DeleteUniqueVisit(visits, i);
      }
      visits := DeleteVisits(visits, id);
      selectedVisitId := None;
      isEditingVisit := false;
    }

    /** "Edit": enter edit mode. */
    method StartEditVisit()
      modifies this`isEditingVisit
      ensures isEditingVisit
      ensures old(CurrentMode()) == VisitViewing ==> CurrentMode() == VisitEditing
    {
      isEditingVisit := true;
    }

    /** "Cancel": leave edit mode. */
    method CancelEditVisit()
      modifies this`isEditingVisit
      ensures !isEditingVisit
      ensures old(CurrentMode()) == VisitEditing ==> CurrentMode() == VisitViewing
    {
      isEditingVisit := false;
    }

    /** "Add Visit": append an empty visit for the patient, dated `today`,
        under a fresh id, select it and enter edit mode. */
    method AddVisit(patientId: string, newId: string, today: string)
      requires FreshId(visits, newId)
      modifies this`visits, this`selectedVisitId, this`isEditingVisit
      ensures visits == old(visits) + [NewVisit(newId, patientId, today)]
      ensures selectedVisitId == Some(newId) && isEditingVisit
      ensures SelectedVisit() == Some(NewVisit(newId, patientId, today))
      ensures CurrentMode() == VisitEditing
      ensures old(UniqueIds(visits)) ==> UniqueIds(visits)
    {
      var v := NewVisit(newId, patientId, today);
      visits := visits + [v];
      selectedVisitId := Some(newId);
      isEditingVisit := true;
    }

    /** "Add Medication" on a visit. */
    method AddMedication(visitId: string)
      modifies this`visits
      ensures visits == AddMedicationTo(old(visits), visitId)
      ensures old(UniqueIds(visits)) ==> UniqueIds(visits)
    {
      visits := AddMedicationTo(visits, visitId);
    }

    /** The remove button next to a visit's medication. */
    method RemoveMedication(visitId: string, index: int)
      modifies this`visits
      ensures visits == RemoveMedicationFrom(old(visits), visitId, index)
      ensures old(UniqueIds(visits)) ==> UniqueIds(visits)
    {
      visits := RemoveMedicationFrom(visits, visitId, index);
    }

    /** A patient in the sidebar: select it and clear the selected visit; the
        edit flag is left as it was. */
    method SelectPatient(patientId: string)
      modifies this`selectedPatientId, this`selectedVisitId
      ensures selectedPatientId == Some(patientId) && selectedVisitId == None
      ensures (exists p :: p in patients && p.id == patientId) ==> CurrentMode() == PatientSelected
    {
      selectedPatientId := Some(patientId);
      selectedVisitId := None;
    }

    /** Typing in the search box. */
    method Search(term: string)
      modifies this`searchTerm
      ensures searchTerm == term
      ensures FilteredPatients() == FilterPatients(patients, term)
    {
      searchTerm := term;
    }

    /** "Add Patient": append a placeholder patient under a fresh id and
        record number, then select it. */
    method AddPatient(newId: string, mrn: string)
      requires forall p :: p in patients ==> p.id != newId
      modifies this`patients, this`selectedPatientId, this`selectedVisitId
      ensures patients == old(patients) + [NewPatient(newId, mrn)]
      ensures selectedPatientId == Some(newId) && selectedVisitId == None
      ensures SelectedPatient() == Some(NewPatient(newId, mrn))
      ensures CurrentMode() == PatientSelected
    {
      var p := NewPatient(newId, mrn);
      patients := patients + [p];
      SelectPatient(newId);
    }

    /** Log out: empty both lists and clear both selections; the edit flag
        and the search term are left as they were. */
    method Logout()
      modifies this`patients, this`visits, this`selectedPatientId, this`selectedVisitId
      ensures patients == [] && visits == []
      ensures selectedPatientId == None && selectedVisitId == None
      ensures CurrentMode() == Idle
    {
      selectedPatientId := None;
      selectedVisitId := None;
      patients := [];
      visits := [];
    }

    /** "Save" on the edit form: a rejected form changes nothing and reports
        its failed rules; an accepted one is spread over the shown visit. */
    method SubmitVisitForm(form: FormValues) returns (errors: seq<FormError>)
      modifies this`visits, this`isEditingVisit
      ensures errors == Errors(form)
      ensures errors != [] || old(SelectedVisit()).None? ==>
        visits == old(visits) && isEditingVisit == old(isEditingVisit)
      ensures errors == [] && old(SelectedVisit()).Some? ==>
        && visits == UpdateVisits(old(visits), old(selectedVisitId).value, Submission(form).value)
        && !isEditingVisit
      ensures errors == [] && old(CurrentMode()) == VisitEditing ==> CurrentMode() == VisitViewing
      ensures old(UniqueIds(visits)) ==> UniqueIds(visits)
    {
      var outcome := Submission(form);
      if outcome.Failure? {
        errors := outcome.error;
      } else {
        errors := [];
        var shown := SelectedVisit();
        if shown.Some? {
          assert selectedVisitId == Some(shown.value.id);
          UpdateKeepsSelection(visits, shown.value.id, outcome.value);
          UpdateVisit(shown.value.id, outcome.value);
          assert SelectedVisit().Some? && !isEditingVisit;
        }
      }
    }
  }

  /** A routine check-up for Jane Smith, the second patient of the initial
      directory: "Add Visit" appends an empty visit, and saving the filled-in
      form turns that one visit into the visit the form describes, leaving the
      initial ledger in front of it untouched. The saved visit is still found
      under the selected id, so with editing off the screen shows it in view
      mode. */
  lemma CheckupScenario(today: string)
    ensures var form := FormValues(Day("2024-05-01"), "Checkup", "Healthy", "Routine", ["Vitamin D"],
                                   FormVitals(Number(37.0), Blank, None));
            && Accepts(form)
            && UpdateVisits(MockVisits + [NewVisit("v100", MockPatients[1].id, today)], "v100", Submission(form).value)
               == MockVisits + [Visit("v100", "2", "2024-05-01", "Checkup", "Healthy", "Routine",
                                      ["Vitamin D"], Vitals(Some(37.0), None, None))]
            && FindVisit(UpdateVisits(MockVisits + [NewVisit("v100", MockPatients[1].id, today)], "v100",
                                      Submission(form).value), Some("v100")).Some?
  {
    var form := FormValues(Day("2024-05-01"), "Checkup", "Healthy", "Routine", ["Vitamin D"],
                           FormVitals(Number(37.0), Blank, None));
    assert Accepts(form);
    assert forall i :: 0 <= i < |MockVisits| ==> MockVisits[i].id != "v100";
    CreateThenUpdate(MockVisits, "v100", "2", today, Submission(form).value);
    SavedVisit(NewVisit("v100", "2", today), form);
    var saved := UpdateVisits(MockVisits + [NewVisit("v100", "2", today)], "v100", Submission(form).value);
    assert saved[|MockVisits|].id == "v100" && saved[|MockVisits|] in saved;
  }
}
