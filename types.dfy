/**
 * The record types the clinic stores: patients, visits, prescriptions and
 * appointments, their enumerations, and the dashboard statistics.
 *
 * The enumerations are closed datatypes. Each carries the string value the
 * browser store persists for it, and a parser that reads such a value back.
 */
module Types {

  datatype Option<+T> = None | Some(value: T)

  // ---------------------------------------------------------------------------
  // Gender
  // ---------------------------------------------------------------------------

  datatype Gender = Male | Female | Other

  /** The string a gender is stored as. */
  function GenderValue(g: Gender): string
  {
    match g
    case Male => "Male"
    case Female => "Female"
    case Other => "Other"
  }

  /** Reads a stored gender string; any other string is not a gender. */
  function ParseGender(s: string): (r: Option<Gender>)
    ensures r.Some? <==> s == "Male" || s == "Female" || s == "Other"
  {
    if s == "Male" then Some(Male)
    else if s == "Female" then Some(Female)
    else if s == "Other" then Some(Other)
    else None
  }

  /** Parsing is the exact inverse of the stored value, in both directions. */
  lemma GenderValueRoundTrip(g: Gender, s: string)
    ensures ParseGender(s) == Some(g) <==> GenderValue(g) == s
  {
  }

  // ---------------------------------------------------------------------------
  // Visit type
  // ---------------------------------------------------------------------------

  datatype VisitType = Routine | Emergency | FollowUp | Specialist

  /** The display string a visit type is stored as. */
  function VisitTypeValue(t: VisitType): string
  {
    match t
    case Routine => "Routine Checkup"
    case Emergency => "Emergency"
    case FollowUp => "Follow Up"
    case Specialist => "Specialist Consultation"
  }

  function ParseVisitType(s: string): (r: Option<VisitType>)
    ensures r.Some? <==>
      s == "Routine Checkup" || s == "Emergency" || s == "Follow Up" || s == "Specialist Consultation"
  {
    if s == "Routine Checkup" then Some(Routine)
    else if s == "Emergency" then Some(Emergency)
    else if s == "Follow Up" then Some(FollowUp)
    else if s == "Specialist Consultation" then Some(Specialist)
    else None
  }

  lemma VisitTypeValueRoundTrip(t: VisitType, s: string)
    ensures ParseVisitType(s) == Some(t) <==> VisitTypeValue(t) == s
  {
  }

  // ---------------------------------------------------------------------------
  // Appointment status
  // ---------------------------------------------------------------------------

  datatype AppointmentStatus = Scheduled | Completed | Cancelled

  function StatusValue(s: AppointmentStatus): string
  {
    match s
    case Scheduled => "Scheduled"
    case Completed => "Completed"
    case Cancelled => "Cancelled"
  }

  function ParseStatus(s: string): (r: Option<AppointmentStatus>)
    ensures r.Some? <==> s == "Scheduled" || s == "Completed" || s == "Cancelled"
  {
    if s == "Scheduled" then Some(Scheduled)
    else if s == "Completed" then Some(Completed)
    else if s == "Cancelled" then Some(Cancelled)
    else None
  }

  lemma StatusValueRoundTrip(st: AppointmentStatus, s: string)
    ensures ParseStatus(s) == Some(st) <==> StatusValue(st) == s
  {
  }

  // ---------------------------------------------------------------------------
  // Records
  // ---------------------------------------------------------------------------

  datatype Patient = Patient(
    id: string,
    firstName: string,
    lastName: string,
    dob: string,
    gender: Gender,
    phone: string,
    email: string,
    address: string,
    allergies: seq<string>,
    createdAt: string)

  /** Optional vital signs of a visit: free text, no units and no numeric check. */
  datatype Vitals = Vitals(
    bp: Option<string>,
    heartRate: Option<string>,
    temperature: Option<string>,
    weight: Option<string>)

  /** `visitType` is the record's `type` field (a reserved word in Dafny). */
  datatype Visit = Visit(
    id: string,
    patientId: string,
    date: string,
    visitType: VisitType,
    symptoms: string,
    diagnosis: string,
    notes: string,
    vitals: Option<Vitals>)

  /** `notes` is the only optional field; `visitId` is always a string. */
  datatype Prescription = Prescription(
    id: string,
    visitId: string,
    patientId: string,
    medicationName: string,
    dosage: string,
    frequency: string,
    duration: string,
    notes: Option<string>,
    datePrescribed: string)

  datatype Appointment = Appointment(
    id: string,
    patientId: string,
    date: string,
    time: string,
    reason: string,
    status: AppointmentStatus)

  /** Dashboard counts; each is a number of records, so never negative. */
  datatype Stats = Stats(
    totalPatients: nat,
    visitsToday: nat,
    activePrescriptions: nat,
    pendingAppointments: nat)
}
