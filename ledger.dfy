/** The visit ledger: the transformations the visit handlers assign to the
    visit list. Each is a `map` or a `filter` over the list. */
module Ledger {
  import opened Wrappers
  import opened Sequences
  import opened Records

  function HasId(id: string): Visit -> bool {
    (v: Visit) => v.id == id
  }

  function LacksId(id: string): Visit -> bool {
    (v: Visit) => v.id != id
  }

  function MergeWith(u: VisitUpdate): Visit -> Visit {
    v => Merge(v, u)
  }

  /** No two visits share an id. */
  predicate UniqueIds(vs: seq<Visit>) {
    forall i, j :: 0 <= i < j < |vs| ==> vs[i].id != vs[j].id
  }

  /** No visit has id `id`. */
  predicate FreshId(vs: seq<Visit>, id: string) {
    forall v :: v in vs ==> v.id != id
  }

  /** `visits.find(v => v.id === id)`. */
  function FindVisit(vs: seq<Visit>, id: Option<string>): (r: Option<Visit>)
    ensures r.Some? ==> r.value in vs && Some(r.value.id) == id
    ensures r.None? <==> forall v :: v in vs ==> Some(v.id) != id
  {
    Find(vs, (v: Visit) => Some(v.id) == id)
  }

  /** The visits of one patient, in ledger order. */
  function VisitsOf(vs: seq<Visit>, patientId: string): (r: seq<Visit>)
    ensures forall v :: v in r <==> v in vs && v.patientId == patientId
  {
    Filter(vs, (v: Visit) => v.patientId == patientId)
  }

  /** The visit "Add Visit" creates: bound to the patient, dated today, and
      otherwise empty. */
  function NewVisit(id: string, patientId: string, today: string): Visit {
    Visit(id, patientId, today, "", "", "", [], NoVitals)
  }

  /** Saving: every visit with id `id` gets the update spread over it. */
  function UpdateVisits(vs: seq<Visit>, id: string, u: VisitUpdate): (r: seq<Visit>)
    ensures |r| == |vs|
    ensures forall i :: 0 <= i < |vs| && vs[i].id != id ==> r[i] == vs[i]
    ensures forall i :: 0 <= i < |vs| && vs[i].id == id ==>
      TakesPresent(r[i], u) && KeepsAbsent(vs[i], r[i], u)
    ensures FreshId(vs, id) ==> r == vs
  {
    assert FreshId(vs, id) ==> MapWhere(vs, HasId(id), MergeWith(u)) == vs by {
      if FreshId(vs, id) {
        MapWhereMissing(vs, HasId(id), MergeWith(u));
      }
    }
    MapWhere(vs, HasId(id), MergeWith(u))
  }

  /** Deleting: the visits whose id differs, in their original order. */
  function DeleteVisits(vs: seq<Visit>, id: string): (r: seq<Visit>)
    ensures forall v :: v in r <==> v in vs && v.id != id
    ensures FreshId(vs, id) ==> r == vs
  {
    assert FreshId(vs, id) ==> Filter(vs, LacksId(id)) == vs by {
      if FreshId(vs, id) {
        FilterKeepsAll(vs, LacksId(id));
      }
    }
    Filter(vs, LacksId(id))
  }

  /** Deletion keeps the relative order of the visits it keeps. */
  lemma DeleteVisitsAppend(a: seq<Visit>, b: seq<Visit>, id: string)
    ensures DeleteVisits(a + b, id) == DeleteVisits(a, id) + DeleteVisits(b, id)
  {
    FilterAppend(a, b, LacksId(id));
  }

  /** With unique ids, the id of entry `i` occurs nowhere else. */
  lemma UniqueIdElsewhere(vs: seq<Visit>, i: nat)
    requires UniqueIds(vs) && i < |vs|
    ensures FreshId(vs[..i], vs[i].id) && FreshId(vs[i + 1..], vs[i].id)
  {
    forall v | v in vs[..i] ensures v.id != vs[i].id {
      var j :| 0 <= j < i && vs[..i][j] == v;
    }
    forall v | v in vs[i + 1..] ensures v.id != vs[i].id {
      var j :| 0 <= j < |vs| - i - 1 && vs[i + 1..][j] == v;
      assert vs[i + 1 + j] == v;
    }
  }

  /** Deleting a visit whose id is unique removes exactly that one entry. */
  lemma DeleteUniqueVisit(vs: seq<Visit>, i: nat)
    requires UniqueIds(vs) && i < |vs|
    ensures DeleteVisits(vs, vs[i].id) == vs[..i] + vs[i + 1..]
  {
    var id, a, b := vs[i].id, vs[..i], vs[i + 1..];
    UniqueIdElsewhere(vs, i);
    assert DeleteVisits([vs[i]], id) == [] by {
      assert [vs[i]][1..] == [];
    }
    assert vs == a + ([vs[i]] + b);
    DeleteVisitsAppend(a, [vs[i]] + b, id);
    DeleteVisitsAppend([vs[i]], b, id);
  }

  /** A deleted visit no longer appears among its patient's visits. */
  lemma DeleteThenList(vs: seq<Visit>, id: string, patientId: string)
    ensures forall v :: v in VisitsOf(DeleteVisits(vs, id), patientId) ==> v.id != id
  {
  }

  /** A created visit appears at the end of its patient's visits, after the
      ones the patient already had. */
  lemma CreateThenList(vs: seq<Visit>, id: string, patientId: string, today: string)
    ensures VisitsOf(vs + [NewVisit(id, patientId, today)], patientId)
         == VisitsOf(vs, patientId) + [NewVisit(id, patientId, today)]
  {
    FilterAppend(vs, [NewVisit(id, patientId, today)], (v: Visit) => v.patientId == patientId);
    assert [NewVisit(id, patientId, today)][1..] == [];
  }

  /** An update that carries no id keeps every id in place, so the visit
      selected before a save is still found after it. */
  lemma UpdateKeepsSelection(vs: seq<Visit>, id: string, u: VisitUpdate)
    requires u.id.None? && FindVisit(vs, Some(id)).Some?
    ensures FindVisit(UpdateVisits(vs, id, u), Some(id)).Some?
  {
    var v := FindVisit(vs, Some(id)).value;
    var i :| 0 <= i < |vs| && vs[i] == v;
    var r := UpdateVisits(vs, id, u);
    assert r[i].id == id && r[i] in r;
  }

  /** Two saves of the same visit in a row, neither of which changes its
      id, leave the ledger as one save of the combined update does. */
  lemma SaveTwice(vs: seq<Visit>, id: string, u1: VisitUpdate, u2: VisitUpdate)
    requires u1.id.None?
    ensures UpdateVisits(UpdateVisits(vs, id, u1), id, u2) == UpdateVisits(vs, id, Then(u1, u2))
  {
    var once := UpdateVisits(vs, id, u1);
    var twice := UpdateVisits(once, id, u2);
    var combined := UpdateVisits(vs, id, Then(u1, u2));
    forall i | 0 <= i < |vs| ensures twice[i] == combined[i] {
      if vs[i].id == id {
        assert once[i] == Merge(vs[i], u1);
        MergeThen(vs[i], u1, u2);
      }
    }
  }

  /** Saving right after creating changes only the new, last visit, which
      becomes the empty visit with the update spread over it. */
  lemma CreateThenUpdate(vs: seq<Visit>, id: string, patientId: string, today: string, u: VisitUpdate)
    requires FreshId(vs, id)
    ensures UpdateVisits(vs + [NewVisit(id, patientId, today)], id, u)
         == vs + [Merge(NewVisit(id, patientId, today), u)]
  {
    var ws := vs + [NewVisit(id, patientId, today)];
    var r := UpdateVisits(ws, id, u);
    forall i | 0 <= i < |vs| ensures r[i] == ws[i] {
      assert ws[i] == vs[i] && vs[i] in vs;
    }
    assert r[|vs|] == Merge(NewVisit(id, patientId, today), u) by {
      assert ws[|vs|].id == id;
    }
  }

  /** `medications.filter((_, i) => i !== index)`: drop the entry at
      position `index`; any other index drops nothing. */
  function DropIndex(s: seq<string>, index: int): (r: seq<string>)
    ensures 0 <= index < |s| ==> r == s[..index] + s[index + 1..]
    ensures !(0 <= index < |s|) ==> r == s
  {
    if s == [] then []
    else
      assert s == [s[0]] + s[1..];
      (if index == 0 then [] else [s[0]]) + DropIndex(s[1..], index - 1)
  }

  /** Removing the entry at a valid index shortens the list by one. */
  lemma DropIndexLength(s: seq<string>, index: int)
    ensures |DropIndex(s, index)| == if 0 <= index < |s| then |s| - 1 else |s|
  {
  }

  /** Removing the last entry undoes appending it. */
  lemma DropIndexAfterAppend(s: seq<string>, m: string)
    ensures DropIndex(s + [m], |s|) == s
  {
    assert (s + [m])[..|s|] == s;
  }

  /** Adding a medication and removing index 0 empties only a list that had
      no entries; a one-entry list keeps the appended empty entry. */
  lemma AddThenRemoveFirst(m: string)
    ensures DropIndex([] + [""], 0) == []
    ensures DropIndex([m] + [""], 0) == [""]
  {
    assert [m] + [""] == [m, ""];
    assert [m, ""][1..] == [""];
  }

  function AppendBlankMedication(v: Visit): Visit {
    v.(medications := v.medications + [""])
  }

  function DropMedication(index: int): Visit -> Visit {
    (v: Visit) => v.(medications := DropIndex(v.medications, index))
  }

  /** "Add Medication": every visit with id `id` gets an empty entry appended
      to its medications; nothing else changes. */
  function AddMedicationTo(vs: seq<Visit>, id: string): (r: seq<Visit>)
    ensures |r| == |vs|
    ensures forall i :: 0 <= i < |vs| && vs[i].id != id ==> r[i] == vs[i]
    ensures forall i :: 0 <= i < |vs| && vs[i].id == id ==>
      && |r[i].medications| == |vs[i].medications| + 1
      && r[i].medications[..|vs[i].medications|] == vs[i].medications
      && r[i].medications[|vs[i].medications|] == ""
      && r[i].(medications := vs[i].medications) == vs[i]
  {
    MapWhere(vs, HasId(id), AppendBlankMedication)
  }

  /** "Remove" next to a medication: every visit with id `id` loses the
      entry at `index` (none when `index` is out of range); nothing else
      changes. */
  function RemoveMedicationFrom(vs: seq<Visit>, id: string, index: int): (r: seq<Visit>)
    ensures |r| == |vs|
    ensures forall i :: 0 <= i < |vs| && vs[i].id != id ==> r[i] == vs[i]
    ensures forall i :: 0 <= i < |vs| && vs[i].id == id ==>
      && r[i].medications == DropIndex(vs[i].medications, index)
      && r[i].(medications := vs[i].medications) == vs[i]
  {
    MapWhere(vs, HasId(id), DropMedication(index))
  }

  /** Removing the entry that "Add Medication" just appended restores the
      ledger, when the visit's id is unique. */
  lemma AddThenRemoveMedication(vs: seq<Visit>, k: nat)
    requires UniqueIds(vs) && k < |vs|
    ensures RemoveMedicationFrom(AddMedicationTo(vs, vs[k].id), vs[k].id, |vs[k].medications|) == vs
  {
    var id := vs[k].id;
    var added := AddMedicationTo(vs, id);
    var r := RemoveMedicationFrom(added, id, |vs[k].medications|);
    forall i | 0 <= i < |vs| ensures r[i] == vs[i] {
      if i == k {
        assert added[k].medications == vs[k].medications + [""];
        DropIndexAfterAppend(vs[k].medications, "");
      } else {
        assert vs[i].id != id;
      }
    }
  }
}
