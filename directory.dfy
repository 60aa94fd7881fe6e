/** The patient directory: the search filter over the patient list and the
    record the "Add Patient" button creates. */
module Directory {
  import opened Wrappers
  import opened Sequences
  import opened Text
  import opened Records

  /** The search test: the lower-cased name contains the lower-cased term, or
      the record number contains the term as typed. */
  predicate Matches(p: Patient, term: string) {
    Includes(Lower(p.name), Lower(term)) || Includes(p.mrn, term)
  }

  function MatchesTerm(term: string): Patient -> bool {
    p => Matches(p, term)
  }

  /** The patients shown in the sidebar for a search term. */
  function FilterPatients(ps: seq<Patient>, term: string): (r: seq<Patient>)
    ensures forall p :: p in r <==> p in ps && Matches(p, term)
  {
    Filter(ps, MatchesTerm(term))
  }

  /** The search keeps the directory's order: filtering a concatenation is
      concatenating the filtered parts. */
  lemma FilterPatientsAppend(a: seq<Patient>, b: seq<Patient>, term: string)
    ensures FilterPatients(a + b, term) == FilterPatients(a, term) + FilterPatients(b, term)
  {
    FilterAppend(a, b, MatchesTerm(term));
  }

  /** An empty search box shows every patient, in order. */
  lemma FilterPatientsEmptyTerm(ps: seq<Patient>)
    ensures FilterPatients(ps, "") == ps
  {
    forall p | p in ps ensures MatchesTerm("")(p) {
      assert Lower("") == "";
      IncludesEmpty(Lower(p.name));
    }
    FilterKeepsAll(ps, MatchesTerm(""));
  }

  /** A name matches whatever the case of the term and of the name. */
  lemma MatchesIgnoresNameCase(p: Patient, term: string)
    requires Includes(Lower(p.name), Lower(term))
    ensures Matches(p, Lower(term))
    ensures Matches(p.(name := Lower(p.name)), term)
  {
    LowerIdempotent(term);
    LowerIdempotent(p.name);
  }

  /** `patients.find(p => p.id === id)`. */
  function FindPatient(ps: seq<Patient>, id: Option<string>): (r: Option<Patient>)
    ensures r.Some? ==> r.value in ps && Some(r.value.id) == id
    ensures r.None? <==> forall p :: p in ps ==> Some(p.id) != id
  {
    Find(ps, (p: Patient) => Some(p.id) == id)
  }

  /** The record created by "Add Patient", with its generated id and record
      number. */
  function NewPatient(id: string, mrn: string): Patient {
    Patient(id, "New Patient", "2000-01-01", "Other", mrn)
  }

  /** A patient appended to the directory shows at the end of the search
      results exactly when it matches the term. */
  lemma FilterAfterAdd(ps: seq<Patient>, p: Patient, term: string)
    ensures FilterPatients(ps + [p], term)
         == FilterPatients(ps, term) + (if Matches(p, term) then [p] else [])
  {
    FilterPatientsAppend(ps, [p], term);
    assert [p][1..] == [];
  }
}
