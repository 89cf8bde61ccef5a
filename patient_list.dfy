/**
 * The rules of the patient list page: the search that narrows the list, and
 * the add-patient form handler that checks the draft, builds a record and
 * stores it. The new record's id and creation time are parameters.
 */
module PatientList {
  import opened Types
  import opened Seqs
  import opened Text
  import opened Storage

  // ---------------------------------------------------------------------------
  // Search
  // ---------------------------------------------------------------------------

  /** "first last", joined by a single space. */
  function FullName(p: Patient): string
  {
    p.firstName + " " + p.lastName
  }

  /**
   * A patient is kept when the lower-cased full name contains the lower-cased
   * term, or when the phone contains the term exactly as typed.
   */
  predicate Matches(p: Patient, term: string)
  {
    Contains(Lower(FullName(p)), Lower(term)) || Contains(p.phone, term)
  }

  /** The search rule in terms of positions: where the term occurs, and in which text. */
  lemma MatchesAtPosition(p: Patient, term: string)
    ensures Matches(p, term) <==>
      || (exists i :: OccursAt(Lower(FullName(p)), Lower(term), i))
      || (exists j :: OccursAt(p.phone, term, j))
  {
    assert Matches(p, term) <==> Contains(Lower(FullName(p)), Lower(term)) || Contains(p.phone, term);
    assert Contains(Lower(FullName(p)), Lower(term)) <==> exists i :: OccursAt(Lower(FullName(p)), Lower(term), i);
  }

  /** `filteredPatients`: the patients that match, in list order, none dropped. */
  function FilteredPatients(patients: seq<Patient>, term: string): (r: seq<Patient>)
    ensures IsSubsequence(r, patients)
    ensures forall i :: 0 <= i < |r| ==> Matches(r[i], term)
    ensures forall p :: multiset(r)[p] == if Matches(p, term) then multiset(patients)[p] else 0
  {
    var keep := (p: Patient) => Matches(p, term);
    FilterIsExact(patients, keep);
    Filter(patients, keep)
  }

  /** An empty search keeps every patient. */
  lemma EmptySearchKeepsAll(patients: seq<Patient>)
    ensures FilteredPatients(patients, "") == patients
  {
    forall i | 0 <= i < |patients|
      ensures Matches(patients[i], "")
    {
      ContainsEmpty(patients[i].phone);
    }
    FilterKeepsAll(patients, (p: Patient) => Matches(p, ""));
  }

  /** Any term typed as it appears in the phone finds the patient. */
  lemma PhoneSubstringMatches(p: Patient, i: int, j: int)
    requires 0 <= i <= j <= |p.phone|
    ensures Matches(p, p.phone[i..j])
  {
    assert OccursAt(p.phone, p.phone[i..j], i);
  }

  /** The first name, spelled as stored, finds the patient. */
  lemma FirstNameMatches(p: Patient)
    ensures Matches(p, p.firstName)
  {
    LowerConcat(p.firstName, " " + p.lastName);
    assert FullName(p) == p.firstName + (" " + p.lastName);
    ContainsPrefix(Lower(p.firstName), Lower(" " + p.lastName));
  }

  /**
   * The first name typed in any letter case finds the patient: any term that
   * lower-cases to the lower-cased first name ("SARAH" for "Sarah") matches.
   */
  lemma FirstNameMatchesAnyCase(p: Patient, term: string)
    requires Lower(term) == Lower(p.firstName)
    ensures Matches(p, term)
  {
    FirstNameMatches(p);
  }

  /** The name match ignores case and may run across the joining space: "ah co" finds Sarah Connor. */
  lemma NameMatchSpansSpace(p: Patient)
    requires p.firstName == "Sarah" && p.lastName == "Connor"
    ensures Matches(p, "ah co")
  {
    var full := FullName(p);
    var lowered := Lower(full);
    assert full[3] == 'a' && full[4] == 'h' && full[5] == ' ' && full[6] == 'C' && full[7] == 'o';
    var term := Lower("ah co");
    assert term[0] == 'a' && term[1] == 'h' && term[2] == ' ' && term[3] == 'c' && term[4] == 'o';
    assert lowered[3..8] == term;
    assert OccursAt(lowered, term, 3);
  }

  /** The phone is compared as typed: "ext" does not find a phone that reads "555-EXT". */
  lemma PhoneMatchIsCaseSensitive(p: Patient)
    requires p.firstName == "Ann" && p.lastName == "Lee" && p.phone == "555-EXT"
    ensures !Matches(p, "ext")
  {
    assert forall k :: 0 <= k < |p.phone| ==> p.phone[k] != 'e';
    var full := FullName(p);
    var lowered := Lower(full);
    assert forall k :: 0 <= k < |full| ==> full[k] != 'x' && full[k] != 'X';
    assert forall k :: 0 <= k < |lowered| ==> lowered[k] != 'x';
    var term := Lower("ext");
    assert term[1] == 'x';
  }

  // ---------------------------------------------------------------------------
  // Adding a patient
  // ---------------------------------------------------------------------------

  /** The form's partial patient: every text field may be missing. */
  datatype PatientDraft = PatientDraft(
    firstName: Option<string>,
    lastName: Option<string>,
    dob: Option<string>,
    gender: Gender,
    phone: Option<string>,
    email: Option<string>,
    address: Option<string>)

  /** The draft the page opens with: empty names, date of birth and address. */
  const InitialDraft: PatientDraft :=
    PatientDraft(Some(""), Some(""), Some(""), Male, None, None, Some(""))

  /** The draft after a successful add: only the gender is set. */
  const ResetDraft: PatientDraft :=
    PatientDraft(None, None, None, Male, None, None, None)

  /** The field is truthy: given and not the empty string. */
  predicate Filled(field: Option<string>)
  {
    field.Some? && field.value != ""
  }

  /** `field || ''`. */
  function OrEmpty(field: Option<string>): (s: string)
    ensures Filled(field) ==> s == field.value
    ensures !Filled(field) ==> s == ""
  {
    if Filled(field) then field.value else ""
  }

  /**
   * The record `handleAddPatient` builds, or nothing when either name is
   * missing or empty. Names are taken as typed, absent optional fields
   * become the empty string, and the allergy list starts empty.
   */
  function BuildPatient(draft: PatientDraft, id: string, createdAt: string): (r: Option<Patient>)
    ensures r.None? <==> !Filled(draft.firstName) || !Filled(draft.lastName)
    ensures r.Some? ==>
      && r.value.id == id && r.value.createdAt == createdAt
      && r.value.firstName == draft.firstName.value && r.value.firstName != ""
      && r.value.lastName == draft.lastName.value && r.value.lastName != ""
      && r.value.gender == draft.gender
      && r.value.dob == OrEmpty(draft.dob)
      && r.value.phone == OrEmpty(draft.phone)
      && r.value.email == OrEmpty(draft.email)
      && r.value.address == OrEmpty(draft.address)
      && r.value.allergies == []
  {
    if !Filled(draft.firstName) || !Filled(draft.lastName) then None
    else Some(Patient(id, draft.firstName.value, draft.lastName.value, OrEmpty(draft.dob),
                      draft.gender, OrEmpty(draft.phone), OrEmpty(draft.email),
                      OrEmpty(draft.address), [], createdAt))
  }

  /** The form as the page opens it cannot be submitted: both names are empty. */
  lemma InitialDraftIsRefused(id: string, createdAt: string)
    ensures BuildPatient(InitialDraft, id, createdAt) == None
  {
  }

  /** A patient just added is found by searching for its first name. */
  lemma AddedPatientIsFound(draft: PatientDraft, id: string, createdAt: string, others: seq<Patient>)
    requires BuildPatient(draft, id, createdAt).Some?
    ensures var p := BuildPatient(draft, id, createdAt).value;
      FilteredPatients(others + [p], draft.firstName.value) ==
        FilteredPatients(others, draft.firstName.value) + [p]
  {
    var p := BuildPatient(draft, id, createdAt).value;
    FirstNameMatches(p);
    FilterAppend(others, p, (q: Patient) => Matches(q, draft.firstName.value));
  }

  // ---------------------------------------------------------------------------
  // The page's state
  // ---------------------------------------------------------------------------

  /** The component state the handler reads and sets. */
  class PatientListPage {
    const service: StorageService
    var patients: seq<Patient>
    var searchTerm: string
    var isModalOpen: bool
    var newPatient: PatientDraft

    constructor(service: StorageService)
      ensures this.service == service
      ensures patients == [] && searchTerm == "" && !isModalOpen && newPatient == InitialDraft
    {
      this.service := service;
      patients := [];
      searchTerm := "";
      isModalOpen := false;
      newPatient := InitialDraft;
    }

    /** `loadPatients`: show what the store holds now. */
    method LoadPatients()
      modifies this
      ensures patients == service.GetPatients()
      ensures searchTerm == old(searchTerm) && isModalOpen == old(isModalOpen) && newPatient == old(newPatient)
    {
      patients := service.GetPatients();
    }

    /**
     * `handleAddPatient`: with both names filled, append the built record to
     * the store, close the form, reset the draft and reload the list; with
     * either name empty, change nothing.
     */
    method HandleAddPatient(id: string, createdAt: string)
      modifies this, service
      ensures var built := BuildPatient(old(newPatient), id, createdAt);
        if built.None? then
          && service.store == old(service.store)
          && patients == old(patients) && isModalOpen == old(isModalOpen)
          && newPatient == old(newPatient)
        else
          && service.GetPatients() == old(service.GetPatients()) + [built.value]
          && service.store.visits == old(service.store.visits)
          && service.store.prescriptions == old(service.store.prescriptions)
          && service.store.appointments == old(service.store.appointments)
          && !isModalOpen && newPatient == ResetDraft
          && patients == service.GetPatients()
      ensures searchTerm == old(searchTerm)
    {
      var built := BuildPatient(newPatient, id, createdAt);
      if built.None? {
        return;
      }
      service.AddPatient(built.value);
      isModalOpen := false;
      newPatient := ResetDraft;
      LoadPatients();
    }

    /** The list the page renders. */
    function Visible(): (r: seq<Patient>)
      reads this
      ensures IsSubsequence(r, patients)
      ensures forall i :: 0 <= i < |r| ==> Matches(r[i], searchTerm)
      ensures forall p :: multiset(r)[p] == if Matches(p, searchTerm) then multiset(patients)[p] else 0
      ensures searchTerm == "" ==> r == patients
    {
      EmptySearchKeepsAll(patients);
      FilteredPatients(patients, searchTerm)
    }
  }
}
