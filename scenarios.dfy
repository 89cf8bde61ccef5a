/**
 * Clients of the storage service: each runs a short sequence of calls on a
 * fresh, empty browser store and returns what the pages would read back.
 * What they promise follows from the service's contracts alone.
 */
module Scenarios {
  import opened Types
  import opened Seqs
  import opened Text
  import opened Storage

  /** First start, then one new patient: the two seed patients, then the new one. */
  method SeedThenAddPatient(clock: SeedClock, jane: Patient) returns (seeded: seq<Patient>, after: seq<Patient>)
    ensures |seeded| == 2
    ensures seeded[0].firstName == "Sarah" && seeded[0].lastName == "Connor"
    ensures seeded[1].firstName == "John" && seeded[1].lastName == "Doe"
    ensures after == seeded + [jane]
  {
    var service := new StorageService(EmptyStore);
    service.Init(clock);
    seeded := service.GetPatients();
    service.AddPatient(jane);
    after := service.GetPatients();
  }

  /** Recording a visit dated today raises `visitsToday` by one. */
  method VisitTodayIsCounted(clock: SeedClock, today: string, visit: Visit) returns (before: Stats, after: Stats)
    requires StartsWith(visit.date, today)
    ensures after.visitsToday == before.visitsToday + 1
    ensures after.totalPatients == before.totalPatients == 2
    ensures after.pendingAppointments == before.pendingAppointments
  {
    var service := new StorageService(EmptyStore);
    service.Init(clock);
    before := service.GetStats(today);
    var patients, visits := service.GetPatients(), service.GetVisits(None);
    var prescriptions, appointments := service.GetPrescriptions(None), service.GetAppointments(None);
    service.AddVisit(visit);
    after := service.GetStats(today);
    StatsAfterAddVisit(patients, visits, prescriptions, appointments, today, visit);
  }

  /** Of a Scheduled and a Cancelled appointment, only the Scheduled one is pending. */
  method OnlyScheduledIsPending(today: string, booked: Appointment, cancelled: Appointment) returns (stats: Stats)
    requires booked.status == Scheduled && cancelled.status == Cancelled
    ensures stats.pendingAppointments == 1
    ensures stats.totalPatients == 0 && stats.visitsToday == 0 && stats.activePrescriptions == 0
  {
    var service := new StorageService(EmptyStore);
    service.AddAppointment(booked);
    StatsAfterAddAppointment([], [], [], [], today, booked);
    service.AddAppointment(cancelled);
    StatsAfterAddAppointment([], [], [], [booked], today, cancelled);
    stats := service.GetStats(today);
  }

  /** Looking up the visits of a patient nobody refers to finds none. */
  method VisitsOfUnknownPatient(clock: SeedClock, unknown: string) returns (found: seq<Visit>, all: seq<Visit>)
    requires unknown != "" && unknown != "p1"
    ensures found == [] && |all| == 1
  {
    var service := new StorageService(EmptyStore);
    service.Init(clock);
    all := service.GetVisits(None);
    found := service.GetVisits(Some(unknown));
  }

  /** After a patient has been added, starting the app does not seed. */
  method AddBeforeInitSkipsSeed(clock: SeedClock, first: Patient) returns (patients: seq<Patient>, visits: seq<Visit>)
    ensures patients == [first]
    ensures visits == []
  {
    var service := new StorageService(EmptyStore);
    service.AddPatient(first);
    service.Init(clock);
    patients := service.GetPatients();
    visits := service.GetVisits(None);
  }
}
