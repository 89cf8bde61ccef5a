# patientlog — a Dafny model of the clinic's storage layer

patientlog is a single-clinic patient-record app that runs in the browser. This
project models its persistence and query layer, together with the record types
it stores and the two rules of the patient list page:

- The storage service keeps four collections in the browser's key-value
  store: patients, visits, prescriptions and appointments. Each collection is
  one whole list under a fixed key. The service offers:
  - one-time seeding (`init`);
  - appends (`add*`);
  - reads, optionally narrowed to one patient (`get*`);
  - dashboard counts (`getStats`).
- The patient list page has two rules:
  - a search that keeps a patient when the lower-cased full name contains the
    lower-cased term, or when the phone contains the term as typed;
  - an add-patient handler that refuses a draft with an empty name and
    otherwise builds and stores a record.

Files:

- `types.dfy` (module `Types`): the enumerations and records as datatypes.
  Each enumeration has the string it is stored as and a parser for that string.
- `seqs.dfy` (module `Seqs`): order-preserving `Filter`, `Count` and the
  subsequence relation, with their lemmas.
- `text.dfy` (module `Text`): `includes`, `startsWith` and ASCII `toLowerCase`.
- `storage.dfy` (module `Storage`): the parts of the storage service.
  - The value stored under a key is a `Slot`: absent, the empty string, or a
    saved list.
  - The four values together form a `Store`.
  - It also holds the seed data, `init` as the function `Initialized`, the
    per-patient lookup `OwnedBy` and `ComputeStats`.
  - The class `StorageService` holds the store. Its `Init` and `Add*` methods
    overwrite whole values; its `Get*` functions only read.
- `patient_list.dfy` (module `PatientList`): the search predicate and
  `FilteredPatients`, the draft and `BuildPatient`, and the class
  `PatientListPage`, whose `HandleAddPatient` updates the store and the page
  state.
- `scenarios.dfy` (module `Scenarios`): short client runs on an empty store.
  Each run's outcome is proved from the service's contracts.

Three behaviours of the code are easy to misread:

- A stored value that is not valid JSON makes `JSON.parse` throw; nothing
  turns it into an empty list. The model has no such value.
- `init` seeds when the patients value is missing or is the empty string,
  because it tests the string for truthiness. A stored `[]` is a non-empty
  string, so a store holding `[]` under the patients key is not seeded
  (`Slot.Saved([])` in the model).
- `getStats` compares against the UTC date prefix of the current time, not the
  local date. The model takes that prefix as the parameter `today`.

## Model

| member | source | states |
|---|---|---|
| `Types.ParseGender` | types.ts:1-5 | exactly the three strings Male, Female and Other are genders |
| `Types.GenderValueRoundTrip` | types.ts:1-5 | parsing a stored gender string and the stored value of a gender are inverse, both directions |
| `Types.ParseVisitType` | types.ts:7-12 | exactly the four display strings 'Routine Checkup', 'Emergency', 'Follow Up', 'Specialist Consultation' are visit types |
| `Types.VisitTypeValueRoundTrip` | types.ts:7-12 | a visit type and its display string determine each other |
| `Types.ParseStatus` | types.ts:61 | an appointment status is exactly one of 'Scheduled', 'Completed', 'Cancelled' |
| `Types.StatusValueRoundTrip` | types.ts:61 | a status and its stored string determine each other |
| `Seqs.Filter` | services/storageService.ts:92 | `filter` keeps only elements satisfying the predicate, as a subsequence of the input in the same order |
| `Seqs.FilterIsExact` | services/storageService.ts:92 | `filter` drops no satisfying element: each value occurs as often as in the input when it satisfies the predicate, otherwise never |
| `Seqs.FilterAppend` | services/storageService.ts:84-88 | filtering a list with one record pushed at the end is the old filtered list, plus that record when it satisfies the predicate |
| `Seqs.FilterLengthIsCount` | services/storageService.ts:136-138 | `filter(...).length` equals the number of elements satisfying the predicate |
| `Seqs.Count` | services/storageService.ts:136-138 | a count of matching records is at most the length of the list |
| `Seqs.CountAppend` | services/storageService.ts:136-138 | pushing one record raises a count by one exactly when the record is counted |
| `Seqs.FilterKeepsAll` | pages/PatientList.tsx:58-61 | filtering with a predicate every element satisfies returns the list unchanged |
| `Text.Contains` | pages/PatientList.tsx:59-60 | `includes` holds exactly when the term occurs at some position of the string |
| `Text.Lower` | pages/PatientList.tsx:59 | `toLowerCase` keeps the length and lowers each character on its own |
| `Text.StartsWith` | services/storageService.ts:136 | `startsWith` holds exactly when the prefix occurs at position 0, and then the string also includes it |
| `Text.LowerChar` | pages/PatientList.tsx:59 | a capital A-Z becomes the small letter at the same place in the alphabet; every other character is kept; the result is never a capital |
| `Text.LowerIgnoresCase` | pages/PatientList.tsx:59 | two strings that differ only in the case of their letters lower-case to the same string |
| `Text.LowerConcat` | pages/PatientList.tsx:59 | lowering the joined "first last" is joining the lowered parts |
| `Text.ContainsEmpty` | pages/PatientList.tsx:58-61 | every string includes the empty term |
| `Text.ContainsPrefix` | pages/PatientList.tsx:59 | a string includes each of its prefixes |
| `Storage.StorageKey` | services/storageService.ts:3-8 | every collection key carries the `patientlog_` prefix |
| `Storage.StorageKeysDistinct` | services/storageService.ts:3-8 | the four key names are pairwise distinct |
| `Storage.GetList` | services/storageService.ts:63-66 | a missing value or an empty-string value reads as the empty list; a saved list reads back as itself |
| `Storage.Present` | services/storageService.ts:65 | the stored string is truthy exactly when it exists and is not empty, i.e. holds an encoded list |
| `Storage.SeedPatients` | services/storageService.ts:11-36 | two seed patients with distinct ids, created at the given clock readings |
| `Storage.SeedVisits` | services/storageService.ts:38-49 | one seed visit, of the first seed patient, with vitals recorded |
| `Storage.SeedAppointments` | services/storageService.ts:51-60 | one Scheduled seed appointment, of the first seed patient |
| `Storage.Initialized` | services/storageService.ts:74-80 | seeds patients, visits and appointments exactly when the patients value is missing or empty, overwriting visits and appointments; otherwise no change; prescriptions never change; afterwards the patients value is present |
| `Storage.InitIdempotent` | services/storageService.ts:74-80 | a second `init` at any later time leaves the store as the first left it |
| `Storage.SeedOnEmptyStore` | services/storageService.ts:11-60 | seeding an unused store gives Sarah Connor and John Doe, one visit of p1 and one Scheduled appointment, and no prescriptions |
| `Storage.IsTruthy` | services/storageService.ts:92 | a patient id narrows the lookup exactly when it is given and not the empty string |
| `Storage.OwnedBy` | services/storageService.ts:90-94 | no truthy patient id gives the whole list; otherwise exactly that patient's records, in order and with their multiplicities |
| `Storage.VisitedOn` | services/storageService.ts:136 | a visit counts as today's exactly when its date starts with today's date |
| `Storage.IsPending` | services/storageService.ts:138 | an appointment is pending exactly when its status is Scheduled |
| `Storage.ComputeStats` | services/storageService.ts:126-140 | totalPatients and activePrescriptions are the list lengths; visitsToday counts visits dated with today's prefix; pendingAppointments counts Scheduled appointments; both are bounded by their list lengths |
| `Storage.StatsAfterAddVisit` | services/storageService.ts:96-100 | adding a visit raises visitsToday by one exactly when it is dated today; the other counts stay |
| `Storage.StatsAfterAddAppointment` | services/storageService.ts:120-124 | adding an appointment raises pendingAppointments by one exactly when it is Scheduled; the other counts stay |
| `Storage.StorageService.constructor` | services/storageService.ts:73 | a service over the store's current contents |
| `Storage.StorageService.Init` | services/storageService.ts:74-80 | the store afterwards is `Initialized` of the store before |
| `Storage.StorageService.GetPatients` | services/storageService.ts:82 | all stored patients; none when the value is missing or empty |
| `Storage.StorageService.AddPatient` | services/storageService.ts:84-88 | the patients list becomes the old list with the patient appended; the other three values are unchanged |
| `Storage.StorageService.GetVisits` | services/storageService.ts:90-94 | the whole list without a truthy id; otherwise a subsequence holding exactly the visits of that patient, each as often as it is stored |
| `Storage.StorageService.AddVisit` | services/storageService.ts:96-100 | the visits list gains the visit at its end; the other values are unchanged |
| `Storage.StorageService.GetPrescriptions` | services/storageService.ts:102-106 | the whole list without a truthy id; otherwise a subsequence holding exactly that patient's prescriptions, each as often as it is stored |
| `Storage.StorageService.AddPrescription` | services/storageService.ts:108-112 | the prescriptions list gains the prescription at its end; the other values are unchanged |
| `Storage.StorageService.GetAppointments` | services/storageService.ts:114-118 | the whole list without a truthy id; otherwise a subsequence holding exactly that patient's appointments, each as often as it is stored |
| `Storage.StorageService.AddAppointment` | services/storageService.ts:120-124 | the appointments list gains the appointment at its end; the other values are unchanged |
| `Storage.StorageService.GetStats` | services/storageService.ts:126-140 | the four counts over the current lists, with the prescription count unfiltered |
| `PatientList.Matches` | pages/PatientList.tsx:59-60 | the lowered full name includes the lowered term, or the phone includes the term as typed |
| `PatientList.MatchesAtPosition` | pages/PatientList.tsx:59-60 | a patient matches exactly when the lowered term occurs at some position of the lowered "first last", or the term occurs at some position of the phone |
| `PatientList.FilteredPatients` | pages/PatientList.tsx:58-61 | the result is a subsequence of the patients; it holds exactly the matching ones, with their multiplicities |
| `PatientList.EmptySearchKeepsAll` | pages/PatientList.tsx:58-61 | an empty search term keeps every patient |
| `PatientList.PhoneSubstringMatches` | pages/PatientList.tsx:60 | any piece of the phone as typed finds the patient |
| `PatientList.FirstNameMatches` | pages/PatientList.tsx:59 | the first name, spelled as stored, finds the patient |
| `PatientList.FirstNameMatchesAnyCase` | pages/PatientList.tsx:59 | a term that lower-cases like the first name ("SARAH" for "Sarah") finds the patient |
| `PatientList.NameMatchSpansSpace` | pages/PatientList.tsx:59 | "ah co" finds Sarah Connor: the name match ignores case and spans the joining space |
| `PatientList.PhoneMatchIsCaseSensitive` | pages/PatientList.tsx:60 | "ext" does not find a patient whose phone reads "555-EXT" and whose name lacks it: the phone is not lowered |
| `PatientList.Filled` | pages/PatientList.tsx:37 | a draft name passes the guard exactly when it is given and not the empty string |
| `PatientList.OrEmpty` | pages/PatientList.tsx:43-47 | `field || ''` is the field when it is a non-empty string, otherwise the empty string |
| `PatientList.BuildPatient` | pages/PatientList.tsx:37-50 | no record when either name is missing or empty; otherwise exactly one record with the given id and timestamp, names as typed, missing fields as '', and no allergies |
| `PatientList.InitialDraftIsRefused` | pages/PatientList.tsx:18-25 | the form as first opened (`InitialDraft`: empty names, date of birth and address) cannot add a patient |
| `PatientList.AddedPatientIsFound` | pages/PatientList.tsx:37-61 | a newly added patient appears at the end of the search for its first name |
| `PatientList.PatientListPage.constructor` | pages/PatientList.tsx:15-25 | the page starts with no patients, an empty search, the form closed and the initial draft |
| `PatientList.PatientListPage.LoadPatients` | pages/PatientList.tsx:31-33 | the page's list becomes the stored patients |
| `PatientList.PatientListPage.HandleAddPatient` | pages/PatientList.tsx:35-56 | a refused draft changes nothing; otherwise the store gains the built patient, the form closes, the draft resets to `ResetDraft` (gender Male only), and the list is reloaded; the record stored is the one `BuildPatient` builds |
| `PatientList.PatientListPage.Visible` | pages/PatientList.tsx:58-61 | the rendered list is an ordered subsequence of the page's patients holding exactly those that match the search, each as often as listed; with an empty search it is all of them |
| `Scenarios.SeedThenAddPatient` | services/storageService.ts:74-88 | after the first `init` the patients are Sarah Connor and John Doe, and one add appends the new patient |
| `Scenarios.VisitTodayIsCounted` | services/storageService.ts:96-139 | a visit dated today, added after seeding, raises visitsToday by exactly one |
| `Scenarios.OnlyScheduledIsPending` | services/storageService.ts:120-138 | with one Scheduled and one Cancelled appointment, one appointment is pending |
| `Scenarios.VisitsOfUnknownPatient` | services/storageService.ts:90-94 | visits looked up for an id no visit has are none, although the store has visits |
| `Scenarios.AddBeforeInitSkipsSeed` | services/storageService.ts:74-88 | once a patient was added, `init` seeds nothing: the patients list is only that patient and there are no visits |

## Left out

- JSON text and `localStorage` itself: a stored value is modelled after
  decoding, so the stringify/parse round trip is not modelled. A value that
  fails to parse throws in the source; the model has no such value.
- The clock, `toISOString` and `crypto.randomUUID`. The seed timestamps are
  the parameter `SeedClock`. The today prefix of `getStats` is the parameter
  `today`. A new patient's id and `createdAt` are parameters of
  `HandleAddPatient`.
- Id uniqueness and owner existence: the adds check neither, and the model
  promises neither.
- Unicode case mapping: `toLowerCase` is modelled on ASCII letters only.
- `Visit.type` is the field `visitType`, because `type` is a Dafny keyword.
- The draft's extra `contact` field, which no patient field reads, is not
  modelled. The draft's gender is always set by the page, so it is not optional
  in the model.
- `e.preventDefault()`, the mount-time `useEffect` that loads the list, and
  all rendering, modals and routing: `App.tsx`, `components/Layout.tsx`,
  `components/EmptyState.tsx`, the age and locale display in the patient list.
- `pages/Dashboard.tsx`: it calls the service, takes the first five records and
  draws a fixed chart through a foreign charting library.
- `pages/PatientDetail.tsx`: its form handlers only fill defaults and call the
  add operations modelled here.
- Concurrency: the store has one synchronous user, and no interleaving is
  modelled.
- A stored record whose `phone` is missing; the search's optional chaining on
  `phone` only guards that case. In the model every patient has a phone string.
