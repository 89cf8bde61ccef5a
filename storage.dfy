/**
 * The clinic's persistence layer: four collections kept as whole lists under
 * fixed keys of the browser's key-value store, a one-time seed, appends,
 * per-patient lookups and dashboard counts.
 *
 * The value under a key is modelled after decoding: it is missing, the empty
 * string, or the encoding of a list. The JSON text itself is not modelled.
 * The clock is a parameter: `SeedClock` holds the timestamps the seed data
 * takes, and `today` is the UTC date prefix the statistics compare against.
 */
module Storage {
  import opened Types
  import opened Seqs
  import opened Text

  // ---------------------------------------------------------------------------
  // Keys and stored values
  // ---------------------------------------------------------------------------

  datatype Key = PatientsKey | VisitsKey | PrescriptionsKey | AppointmentsKey

  /** The fixed key each collection is kept under. */
  function StorageKey(k: Key): (name: string)
    ensures StartsWith(name, "patientlog_")
  {
    match k
    case PatientsKey => "patientlog_patients"
    case VisitsKey => "patientlog_visits"
    case PrescriptionsKey => "patientlog_prescriptions"
    case AppointmentsKey => "patientlog_appointments"
  }

  /** The four key names are pairwise distinct. */
  lemma StorageKeysDistinct(k: Key, k': Key)
    ensures StorageKey(k) == StorageKey(k') <==> k == k'
  {
  }

  /**
   * What the key-value store holds under one key: nothing, the empty string,
   * or the encoding of a list (which is a non-empty string even for `[]`).
   */
  datatype Slot<T> = Absent | Blank | Saved(items: seq<T>)

  /** The stored string is truthy: it exists and is not empty. */
  predicate Present<T>(v: Slot<T>)
  {
    v.Saved?
  }

  /** `getList`: a missing or empty value reads as the empty list. */
  function GetList<T>(v: Slot<T>): (r: seq<T>)
    ensures !Present(v) ==> r == []
    ensures Present(v) ==> r == v.items
  {
    match v
    case Saved(items) => items
    case _ => []
  }

  /** The four stored values, one per key. */
  datatype Store = Store(
    patients: Slot<Patient>,
    visits: Slot<Visit>,
    prescriptions: Slot<Prescription>,
    appointments: Slot<Appointment>)

  /** A browser store the clinic has never written to. */
  const EmptyStore: Store := Store(Absent, Absent, Absent, Absent)

  // ---------------------------------------------------------------------------
  // Seed data
  // ---------------------------------------------------------------------------

  /** The clock readings the seed records take. */
  datatype SeedClock = SeedClock(
    sarahCreatedAt: string,
    johnCreatedAt: string,
    visitDate: string,
    appointmentDate: string)

  /** Sarah Connor (p1) and John Doe (p2): two patients with distinct ids. */
  function SeedPatients(clock: SeedClock): (ps: seq<Patient>)
    ensures |ps| == 2 && ps[0].id != ps[1].id
    ensures ps[0].createdAt == clock.sarahCreatedAt && ps[1].createdAt == clock.johnCreatedAt
  {
    [ Patient("p1", "Sarah", "Connor", "1985-05-12", Female, "555-0123",
              "sarah.c@example.com", "123 Tech Blvd, Silicon Valley",
              ["Penicillin"], clock.sarahCreatedAt),
      Patient("p2", "John", "Doe", "1978-11-02", Male, "555-0199",
              "john.d@example.com", "456 Maple Dr, Springfield",
              [], clock.johnCreatedAt) ]
  }

  /** One routine visit of the first seed patient, with all four vitals recorded. */
  function SeedVisits(clock: SeedClock): (vs: seq<Visit>)
    ensures |vs| == 1 && vs[0].patientId == SeedPatients(clock)[0].id
    ensures vs[0].date == clock.visitDate && vs[0].vitals.Some?
  {
    [ Visit("v1", "p1", clock.visitDate, Routine, "Mild headache, fatigue",
            "Tension Headache", "Patient advised to rest and hydrate.",
            Some(Vitals(Some("120/80"), Some("72"), Some("98.6"), Some("65kg")))) ]
  }

  /** One Scheduled appointment of the first seed patient. */
  function SeedAppointments(clock: SeedClock): (appts: seq<Appointment>)
    ensures |appts| == 1 && appts[0].patientId == SeedPatients(clock)[0].id
    ensures appts[0].status == Scheduled && appts[0].date == clock.appointmentDate
  {
    [ Appointment("a1", "p1", clock.appointmentDate, "10:00", "Follow up checkup", Scheduled) ]
  }

  /**
   * The store after `init`: when the patients value is missing or empty, the
   * seed patients, visits and appointments overwrite their keys; otherwise
   * nothing changes. Prescriptions are never touched.
   */
  function Initialized(st: Store, clock: SeedClock): (r: Store)
    ensures Present(st.patients) ==> r == st
    ensures !Present(st.patients) ==>
      && r.patients == Saved(SeedPatients(clock))
      && r.visits == Saved(SeedVisits(clock))
      && r.appointments == Saved(SeedAppointments(clock))
    ensures r.prescriptions == st.prescriptions
    ensures Present(r.patients)
  {
    if Present(st.patients) then st
    else st.(patients := Saved(SeedPatients(clock)),
             visits := Saved(SeedVisits(clock)),
             appointments := Saved(SeedAppointments(clock)))
  }

  /** A second `init`, at any later time, changes nothing. */
  lemma InitIdempotent(st: Store, clock: SeedClock, later: SeedClock)
    ensures Initialized(Initialized(st, clock), later) == Initialized(st, clock)
  {
  }

  /** Seeding an unused store gives two patients, one visit, one appointment. */
  lemma SeedOnEmptyStore(clock: SeedClock)
    ensures var st := Initialized(EmptyStore, clock);
      && |GetList(st.patients)| == 2
      && GetList(st.patients)[0].firstName == "Sarah" && GetList(st.patients)[0].lastName == "Connor"
      && GetList(st.patients)[1].firstName == "John" && GetList(st.patients)[1].lastName == "Doe"
      && |GetList(st.visits)| == 1 && GetList(st.visits)[0].patientId == "p1"
      && |GetList(st.appointments)| == 1 && GetList(st.appointments)[0].status == Scheduled
      && GetList(st.prescriptions) == []
  {
  }

  // ---------------------------------------------------------------------------
  // Lookups by owning patient
  // ---------------------------------------------------------------------------

  /** The `patientId` argument is truthy: given and not the empty string. */
  predicate IsTruthy(patientId: Option<string>)
  {
    patientId.Some? && patientId.value != ""
  }

  /**
   * A collection as `get*` returns it: the whole list when no truthy
   * `patientId` is given, otherwise exactly the records that `owner` assigns
   * to that patient, each as often as in the list and in the list's order.
   */
  function OwnedBy<T(==,!new)>(list: seq<T>, patientId: Option<string>, owner: T -> string): (r: seq<T>)
    ensures !IsTruthy(patientId) ==> r == list
    ensures IsTruthy(patientId) ==> IsSubsequence(r, list)
    ensures IsTruthy(patientId) ==> forall i :: 0 <= i < |r| ==> owner(r[i]) == patientId.value
    ensures IsTruthy(patientId) ==>
      forall x :: multiset(r)[x] == if owner(x) == patientId.value then multiset(list)[x] else 0
  {
    if IsTruthy(patientId) then
      var keep := (x: T) => owner(x) == patientId.value;
      FilterIsExact(list, keep);
      Filter(list, keep)
    else list
  }

  function VisitOwner(v: Visit): string { v.patientId }
  function PrescriptionOwner(p: Prescription): string { p.patientId }
  function AppointmentOwner(a: Appointment): string { a.patientId }

  // ---------------------------------------------------------------------------
  // Statistics
  // ---------------------------------------------------------------------------

  /** A visit falls on `today` when its timestamp starts with that date. */
  function VisitedOn(today: string): Visit -> bool
  {
    (v: Visit) => StartsWith(v.date, today)
  }

  function IsPending(a: Appointment): bool
  {
    a.status == Scheduled
  }

  /**
   * `getStats` over the four lists read from the store. Every count is a
   * number of records of one list; only visits and appointments are filtered.
   */
  function ComputeStats(patients: seq<Patient>, visits: seq<Visit>, prescriptions: seq<Prescription>,
                        appointments: seq<Appointment>, today: string): (s: Stats)
    ensures s.totalPatients == |patients|
    ensures s.activePrescriptions == |prescriptions|
    ensures s.visitsToday == Count(visits, VisitedOn(today)) <= |visits|
    ensures s.pendingAppointments == Count(appointments, IsPending) <= |appointments|
  {
    FilterLengthIsCount(visits, VisitedOn(today));
    FilterLengthIsCount(appointments, IsPending);
    Stats(|patients|, |Filter(visits, VisitedOn(today))|, |prescriptions|, |Filter(appointments, IsPending)|)
  }

  /** Recording a visit adds one to `visitsToday` exactly when it is dated today. */
  lemma StatsAfterAddVisit(patients: seq<Patient>, visits: seq<Visit>, prescriptions: seq<Prescription>,
                           appointments: seq<Appointment>, today: string, v: Visit)
    ensures var before := ComputeStats(patients, visits, prescriptions, appointments, today);
            var after := ComputeStats(patients, visits + [v], prescriptions, appointments, today);
      && after.visitsToday == before.visitsToday + (if StartsWith(v.date, today) then 1 else 0)
      && after.totalPatients == before.totalPatients
      && after.activePrescriptions == before.activePrescriptions
      && after.pendingAppointments == before.pendingAppointments
  {
    CountAppend(visits, v, VisitedOn(today));
  }

  /** Booking an appointment adds one to `pendingAppointments` exactly when it is Scheduled. */
  lemma StatsAfterAddAppointment(patients: seq<Patient>, visits: seq<Visit>, prescriptions: seq<Prescription>,
                                 appointments: seq<Appointment>, today: string, a: Appointment)
    ensures var before := ComputeStats(patients, visits, prescriptions, appointments, today);
            var after := ComputeStats(patients, visits, prescriptions, appointments + [a], today);
      && after.pendingAppointments == before.pendingAppointments + (if a.status == Scheduled then 1 else 0)
      && after.totalPatients == before.totalPatients
      && after.activePrescriptions == before.activePrescriptions
      && after.visitsToday == before.visitsToday
  {
    CountAppend(appointments, a, IsPending);
  }

  // ---------------------------------------------------------------------------
  // The service
  // ---------------------------------------------------------------------------

  /**
   * `StorageService` together with the part of the browser store it owns.
   * Reads are functions of `store`; `init` and the four adds are methods
   * that overwrite whole values.
   */
  class StorageService {
    var store: Store

    /** A service over whatever the browser store already holds. */
    constructor(initial: Store)
      ensures store == initial
    {
      store := initial;
    }

    /** `init`: seed the store once, when the patients value is missing or empty. */
    method Init(clock: SeedClock)
      modifies this
      ensures store == Initialized(old(store), clock)
    {
      if !Present(store.patients) {
        store := store.(patients := Saved(SeedPatients(clock)));
        store := store.(visits := Saved(SeedVisits(clock)));
        store := store.(appointments := Saved(SeedAppointments(clock)));
      }
    }

    function GetPatients(): (r: seq<Patient>)
      reads this
      ensures !Present(store.patients) ==> r == []
      ensures Present(store.patients) ==> r == store.patients.items
    {
      GetList(store.patients)
    }

    /** Reads the list, pushes `patient` at its end and writes the list back. */
    method AddPatient(patient: Patient)
      modifies this
      ensures GetPatients() == old(GetPatients()) + [patient]
      ensures Present(store.patients)
      ensures store.visits == old(store.visits)
      ensures store.prescriptions == old(store.prescriptions)
      ensures store.appointments == old(store.appointments)
    {
      var list := GetList(store.patients);
      list := list + [patient];
      store := store.(patients := Saved(list));
    }

    function GetVisits(patientId: Option<string>): (r: seq<Visit>)
      reads this
      ensures !IsTruthy(patientId) ==> r == GetList(store.visits)
      ensures IsTruthy(patientId) ==> IsSubsequence(r, GetList(store.visits))
      ensures IsTruthy(patientId) ==>
        forall v :: v in r <==> v in GetList(store.visits) && v.patientId == patientId.value
      ensures IsTruthy(patientId) ==>
        forall v :: multiset(r)[v] ==
          if v.patientId == patientId.value then multiset(GetList(store.visits))[v] else 0
    {
      var r := OwnedBy(GetList(store.visits), patientId, VisitOwner);
      assert IsTruthy(patientId) ==> forall v :: v in r <==> multiset(r)[v] > 0;
      r
    }

    method AddVisit(visit: Visit)
      modifies this
      ensures GetVisits(None) == old(GetVisits(None)) + [visit]
      ensures Present(store.visits)
      ensures store.patients == old(store.patients)
      ensures store.prescriptions == old(store.prescriptions)
      ensures store.appointments == old(store.appointments)
    {
      var list := GetList(store.visits);
      list := list + [visit];
      store := store.(visits := Saved(list));
    }

    function GetPrescriptions(patientId: Option<string>): (r: seq<Prescription>)
      reads this
      ensures !IsTruthy(patientId) ==> r == GetList(store.prescriptions)
      ensures IsTruthy(patientId) ==> IsSubsequence(r, GetList(store.prescriptions))
      ensures IsTruthy(patientId) ==>
        forall p :: p in r <==> p in GetList(store.prescriptions) && p.patientId == patientId.value
      ensures IsTruthy(patientId) ==>
        forall p :: multiset(r)[p] ==
          if p.patientId == patientId.value then multiset(GetList(store.prescriptions))[p] else 0
    {
      var r := OwnedBy(GetList(store.prescriptions), patientId, PrescriptionOwner);
      assert IsTruthy(patientId) ==> forall p :: p in r <==> multiset(r)[p] > 0;
      r
    }

    method AddPrescription(prescription: Prescription)
      modifies this
      ensures GetPrescriptions(None) == old(GetPrescriptions(None)) + [prescription]
      ensures Present(store.prescriptions)
      ensures store.patients == old(store.patients)
      ensures store.visits == old(store.visits)
      ensures store.appointments == old(store.appointments)
    {
      var list := GetList(store.prescriptions);
      list := list + [prescription];
      store := store.(prescriptions := Saved(list));
    }

    function GetAppointments(patientId: Option<string>): (r: seq<Appointment>)
      reads this
      ensures !IsTruthy(patientId) ==> r == GetList(store.appointments)
      ensures IsTruthy(patientId) ==> IsSubsequence(r, GetList(store.appointments))
      ensures IsTruthy(patientId) ==>
        forall a :: a in r <==> a in GetList(store.appointments) && a.patientId == patientId.value
      ensures IsTruthy(patientId) ==>
        forall a :: multiset(r)[a] ==
          if a.patientId == patientId.value then multiset(GetList(store.appointments))[a] else 0
    {
      var r := OwnedBy(GetList(store.appointments), patientId, AppointmentOwner);
      assert IsTruthy(patientId) ==> forall a :: a in r <==> multiset(r)[a] > 0;
      r
    }

    method AddAppointment(appointment: Appointment)
      modifies this
      ensures GetAppointments(None) == old(GetAppointments(None)) + [appointment]
      ensures Present(store.appointments)
      ensures store.patients == old(store.patients)
      ensures store.visits == old(store.visits)
      ensures store.prescriptions == old(store.prescriptions)
    {
      var list := GetList(store.appointments);
      list := list + [appointment];
      store := store.(appointments := Saved(list));
    }

    /** `getStats`, with today's UTC date passed in. */
    function GetStats(today: string): (s: Stats)
      reads this
      ensures s.totalPatients == |GetPatients()|
      ensures s.activePrescriptions == |GetPrescriptions(None)|
      ensures s.visitsToday == Count(GetVisits(None), VisitedOn(today))
      ensures s.pendingAppointments == Count(GetAppointments(None), IsPending)
    {
      ComputeStats(GetList(store.patients), GetList(store.visits), GetList(store.prescriptions),
                   GetList(store.appointments), today)
    }
  }
}
