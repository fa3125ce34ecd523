# Healthcare records data manager: a Dafny model

This project models the data layer of a small healthcare administration application: the
`DataManager` that loads patients, clinicians, facilities, appointments, prescriptions, referrals
and staff from comma-separated files into seven in-memory lists, and then adds, deletes and looks
up entities by ID. It also models the entity classes those lists hold.

The model has five modules:

- `Csv` covers the quote-aware field tokenizer `parseCSVLine`. `ParseCsvLine` is the
  character loop, proved equal to the specification function `Tokenize`. `Tokenize` is a fold of
  one scanning `Step` per character. Lemmas give the field count, the absence of quote characters,
  trimming and the unmatched-quote behaviour. Java's `String.trim` is `Trim`: it strips characters
  up to U+0020 at both ends.
- `Ingest` covers the line loop that all seven loaders share. A file is its sequence of lines. The
  first line is skipped. Reading stops at the end or at the first line that is blank after
  trimming. A line is kept when it tokenizes to at least the kind's arity of fields. `ReadRows`
  is that loop, proved equal to the specification `Records`.
- `Store` covers the list semantics behind the repository: the order-preserving filter that
  `removeIf` performs (`Survivors`) and first-match lookup (`FirstIndex`).
- `Model` covers the entity classes. Each is a class with a positional constructor, one setter per
  field with a field-granular frame, and `ToString`; Patient has only its constructor (see
  "## Left out"). `Fields()` lists the attributes in constructor order.
- `Data` covers the `DataManager` class with its seven list fields. It has a constructor, seven
  loaders, and add and delete for every kind. `FindPatient`, `FindClinician` and `FindFacility`
  do the lookups. Each loader parses the records with `ReadRows`, then builds one new entity per
  record (`NewPatients` and the like) and appends them.

A sixth module, `Panels`, holds the user interface's "update" action. It is a delete by ID
followed by an add.

## Model

| member | source | states |
|---|---|---|
| Csv.Trim | src/com/healthcare/data/DataManager.java:59 | neither end of the result is a character up to U+0020, and it is no longer than the input |
| Csv.TrimSlice | src/com/healthcare/data/DataManager.java:59 | the result is a slice of the input, and everything cut off on either side is a character up to U+0020 |
| Csv.TrimSurrounded | src/com/healthcare/data/DataManager.java:59 | `trim` is determined by that property: space runs around a trimmed core are removed and the core is returned |
| Csv.TrimIdempotent | src/com/healthcare/data/DataManager.java:65 | trimming a trimmed string changes nothing, so trimming twice is trimming once |
| Csv.TrimWithin | src/com/healthcare/data/DataManager.java:65 | every character of a trimmed string occurs in the original |
| Csv.ScanInvariant | src/com/healthcare/data/DataManager.java:54-63 | after any prefix, the quote flag is the parity of quotes read, one field is finished per comma met outside quotes, and no field or partial field holds a quote; finished fields are trimmed |
| Csv.FieldCount | src/com/healthcare/data/DataManager.java:54-66 | the field count is exactly one more than the number of commas met outside quotes, hence at least one |
| Csv.FieldsHaveNoQuotes | src/com/healthcare/data/DataManager.java:56-62 | no field contains a quote character |
| Csv.FieldsTrimmed | src/com/healthcare/data/DataManager.java:59-65 | every field is trimmed at both ends |
| Csv.UnmatchedQuoteScan | src/com/healthcare/data/DataManager.java:56-62 | once a quote is left open, further quote-free text (commas included) is appended to the current field |
| Csv.UnmatchedQuote | src/com/healthcare/data/DataManager.java:56-66 | after an unmatched quote the field count stops growing and the last field is the trimmed rest of the line |
| Csv.PlainScan | src/com/healthcare/data/DataManager.java:54-63 | text with no comma and no quote is only accumulated into the current field, outside quotes |
| Csv.PlainLine | src/com/healthcare/data/DataManager.java:54-66 | a line with no comma and no quote is one field, the trimmed line |
| Csv.ParseCsvLine | src/com/healthcare/data/DataManager.java:49-67 | the scanning loop returns exactly the fields of the tokenizer specification `Tokenize` |
| Ingest.BlankFrom | src/com/healthcare/data/DataManager.java:72 | the index of the first blank-after-trim line from a position on, or the end; every line before it is non-blank |
| Ingest.Accepted | src/com/healthcare/data/DataManager.java:73-74 | only field lists with at least the kind's arity are kept, and never more than there are lines |
| Ingest.Records | src/com/healthcare/data/DataManager.java:71-79 | every record the loader builds from has at least the kind's arity of fields |
| Ingest.AcceptedFrom | src/com/healthcare/data/DataManager.java:73-74 | every record is the field list of some data line and has at least the arity |
| Ingest.AcceptedComplete | src/com/healthcare/data/DataManager.java:73-74 | every data line with at least the arity of fields contributes its field list |
| Ingest.AcceptedSnoc | src/com/healthcare/data/DataManager.java:72-77 | a further line with too few fields adds nothing; one with enough adds its field list at the end, so records follow line order |
| Ingest.HeaderIgnored | src/com/healthcare/data/DataManager.java:71 | the first line is discarded unread: replacing it does not change the records |
| Ingest.BlankFromAgrees | src/com/healthcare/data/DataManager.java:72 | where reading stops depends only on the lines from the current position on |
| Ingest.StopsAtBlank | src/com/healthcare/data/DataManager.java:72 | nothing at or after a blank line is read: cutting the lines there gives the same records |
| Ingest.BlankFromPrefix | src/com/healthcare/data/DataManager.java:72 | cutting the input at a blank line does not move the first blank line |
| Ingest.AppendLine | src/com/healthcare/data/DataManager.java:72-77 | while no blank line has been met, one more line adds its field list at the end exactly when it is non-blank and has enough fields |
| Ingest.AppendDataLine | src/com/healthcare/data/DataManager.java:72-77 | the non-blank case of the above |
| Ingest.BlankFromAll | src/com/healthcare/data/DataManager.java:72 | with no blank line ahead, reading runs to the end of input |
| Ingest.NoBlankLine | src/com/healthcare/data/DataManager.java:72 | with no blank line after the header, every later line is a data line |
| Ingest.ReadOne | src/com/healthcare/data/DataManager.java:72-77 | one pass of the read loop over a non-blank line extends the records as `AcceptedSnoc` says |
| Ingest.ReadRows | src/com/healthcare/data/DataManager.java:71-79 | the read loop (header skipped, stop at end or first blank line, keep rows with enough fields) returns exactly `Records` |
| Store.Survivors | src/com/healthcare/data/DataManager.java:240-266 | the `removeIf` result has as many elements fewer as there are matching IDs |
| Store.Count | src/com/healthcare/data/DataManager.java:240-266 | the number of matching IDs is at most the list length |
| Store.FirstIndex | src/com/healthcare/data/DataManager.java:269-288 | the first index whose ID matches, or the length: the ID matches there and at no earlier index |
| Store.CountPositive | src/com/healthcare/data/DataManager.java:240-266 | some element is removed exactly when the ID occurs |
| Store.SurvivorsNoMatch | src/com/healthcare/data/DataManager.java:240-266 | with no matching ID the list is unchanged |
| Store.Removed | src/com/healthcare/data/DataManager.java:240-266 | the list shrinks exactly when the ID occurs, and is unchanged otherwise |
| Store.SurvivorOrigin | src/com/healthcare/data/DataManager.java:240-266 | each survivor comes from the original list and does not carry the ID |
| Store.SurvivorComplete | src/com/healthcare/data/DataManager.java:240-266 | each element of the original list that does not carry the ID survives |
| Store.SurvivorsSnoc | src/com/healthcare/data/DataManager.java:240-266 | an element added at the end survives exactly when its ID differs, and stays last |
| Store.SurvivorsAppend | src/com/healthcare/data/DataManager.java:240-266 | the filter works element by element in place, so survivors keep their relative order |
| Store.SurvivorsIdempotent | src/com/healthcare/data/DataManager.java:240-266 | after a delete no element carries the ID, so deleting again removes nothing (stated on the ID list, which `Data.PatientIdsOfSurvivors` and its siblings tie to the entity lists) |
| Store.FindNothing | src/com/healthcare/data/DataManager.java:269-288 | lookup finds nothing exactly when the ID does not occur |
| Store.UpdateFindsReplacement | src/com/healthcare/view/PatientPanel.java:184-185 | delete-then-add leaves the survivors with the new entity last, and on the ID list (tied to the entity lists by `Data.PatientIdsOfSurvivors` and its siblings) a lookup of the deleted ID then stops at the appended entry |
| Data.PatientIdsOfSurvivors | src/com/healthcare/data/DataManager.java:240-242 | the IDs of the Patients that survive a delete are exactly the IDs that survive filtering the ID list, so the key-list lemmas of `Store` apply to the Patient list |
| Data.ClinicianIdsOfSurvivors | src/com/healthcare/data/DataManager.java:244-246 | the IDs of the Clinicians that survive a delete are exactly the IDs that survive filtering the ID list, so the key-list lemmas of `Store` apply to the Clinician list |
| Data.FacilityIdsOfSurvivors | src/com/healthcare/data/DataManager.java:248-250 | the IDs of the Facilitys that survive a delete are exactly the IDs that survive filtering the ID list, so the key-list lemmas of `Store` apply to the Facility list |
| Data.AppointmentIdsOfSurvivors | src/com/healthcare/data/DataManager.java:252-254 | the IDs of the Appointments that survive a delete are exactly the IDs that survive filtering the ID list, so the key-list lemmas of `Store` apply to the Appointment list |
| Data.PrescriptionIdsOfSurvivors | src/com/healthcare/data/DataManager.java:256-258 | the IDs of the Prescriptions that survive a delete are exactly the IDs that survive filtering the ID list, so the key-list lemmas of `Store` apply to the Prescription list |
| Data.ReferralIdsOfSurvivors | src/com/healthcare/data/DataManager.java:260-262 | the IDs of the Referrals that survive a delete are exactly the IDs that survive filtering the ID list, so the key-list lemmas of `Store` apply to the Referral list |
| Data.StaffIdsOfSurvivors | src/com/healthcare/data/DataManager.java:264-266 | the IDs of the Staffs that survive a delete are exactly the IDs that survive filtering the ID list, so the key-list lemmas of `Store` apply to the Staff list |
| Data.NewPatients | src/com/healthcare/data/DataManager.java:75-77 | one fresh Patient per record, in record order, whose attributes are the record's first 10 fields |
| Data.NewClinicians | src/com/healthcare/data/DataManager.java:91-93 | one fresh Clinician per record, in record order, whose attributes are the record's first 8 fields |
| Data.NewFacilities | src/com/healthcare/data/DataManager.java:107-109 | one fresh Facility per record, in record order, whose attributes are the record's first 8 fields |
| Data.NewAppointments | src/com/healthcare/data/DataManager.java:123-125 | one fresh Appointment per record, in record order, whose attributes are the record's first 9 fields |
| Data.NewPrescriptions | src/com/healthcare/data/DataManager.java:139-141 | one fresh Prescription per record, in record order, whose attributes are the record's first 10 fields |
| Data.NewReferrals | src/com/healthcare/data/DataManager.java:155-157 | one fresh Referral per record, in record order, whose attributes are the record's first 10 fields |
| Data.NewStaff | src/com/healthcare/data/DataManager.java:171-173 | one fresh Staff per record, in record order, whose attributes are the record's first 7 fields |
| Data.DataManager.constructor | src/com/healthcare/data/DataManager.java:23-31 | all seven lists are empty |
| Data.DataManager.LoadPatients | src/com/healthcare/data/DataManager.java:69-83 | the old list is kept as a prefix; one fresh Patient is appended per accepted record (`Ingest.Records` with arity 10), in line order, its attribute i being field i |
| Data.DataManager.AddPatient | src/com/healthcare/data/DataManager.java:211-213 | the list becomes the old list followed by exactly the given Patient; the frame lets no other list change |
| Data.DataManager.DeletePatient | src/com/healthcare/data/DataManager.java:240-242 | the list becomes the survivors (`Store.Survivors`): no Patient with that ID remains; the result is true exactly when some Patient had the ID and the list shrank |
| Data.DataManager.FindPatient | src/com/healthcare/data/DataManager.java:269-274 | null exactly when no Patient has the ID; otherwise the Patient at the first index whose ID matches |
| Data.DataManager.LoadClinicians | src/com/healthcare/data/DataManager.java:85-99 | the old list is kept as a prefix; one fresh Clinician is appended per accepted record (`Ingest.Records` with arity 8), in line order, its attribute i being field i |
| Data.DataManager.AddClinician | src/com/healthcare/data/DataManager.java:215-217 | the list becomes the old list followed by exactly the given Clinician; the frame lets no other list change |
| Data.DataManager.DeleteClinician | src/com/healthcare/data/DataManager.java:244-246 | the list becomes the survivors (`Store.Survivors`): no Clinician with that ID remains; the result is true exactly when some Clinician had the ID and the list shrank |
| Data.DataManager.FindClinician | src/com/healthcare/data/DataManager.java:276-281 | null exactly when no Clinician has the ID; otherwise the Clinician at the first index whose ID matches |
| Data.DataManager.LoadFacilities | src/com/healthcare/data/DataManager.java:101-115 | the old list is kept as a prefix; one fresh Facility is appended per accepted record (`Ingest.Records` with arity 8), in line order, its attribute i being field i |
| Data.DataManager.AddFacility | src/com/healthcare/data/DataManager.java:219-221 | the list becomes the old list followed by exactly the given Facility; the frame lets no other list change |
| Data.DataManager.DeleteFacility | src/com/healthcare/data/DataManager.java:248-250 | the list becomes the survivors (`Store.Survivors`): no Facility with that ID remains; the result is true exactly when some Facility had the ID and the list shrank |
| Data.DataManager.FindFacility | src/com/healthcare/data/DataManager.java:283-288 | null exactly when no Facility has the ID; otherwise the Facility at the first index whose ID matches |
| Data.DataManager.LoadAppointments | src/com/healthcare/data/DataManager.java:117-131 | the old list is kept as a prefix; one fresh Appointment is appended per accepted record (`Ingest.Records` with arity 9), in line order, its attribute i being field i |
| Data.DataManager.AddAppointment | src/com/healthcare/data/DataManager.java:223-225 | the list becomes the old list followed by exactly the given Appointment; the frame lets no other list change |
| Data.DataManager.DeleteAppointment | src/com/healthcare/data/DataManager.java:252-254 | the list becomes the survivors (`Store.Survivors`): no Appointment with that ID remains; the result is true exactly when some Appointment had the ID and the list shrank |
| Data.DataManager.LoadPrescriptions | src/com/healthcare/data/DataManager.java:133-147 | the old list is kept as a prefix; one fresh Prescription is appended per accepted record (`Ingest.Records` with arity 10), in line order, its attribute i being field i |
| Data.DataManager.AddPrescription | src/com/healthcare/data/DataManager.java:227-229 | the list becomes the old list followed by exactly the given Prescription; the frame lets no other list change |
| Data.DataManager.DeletePrescription | src/com/healthcare/data/DataManager.java:256-258 | the list becomes the survivors (`Store.Survivors`): no Prescription with that ID remains; the result is true exactly when some Prescription had the ID and the list shrank |
| Data.DataManager.LoadReferrals | src/com/healthcare/data/DataManager.java:149-163 | the old list is kept as a prefix; one fresh Referral is appended per accepted record (`Ingest.Records` with arity 10), in line order, its attribute i being field i |
| Data.DataManager.AddReferral | src/com/healthcare/data/DataManager.java:231-233 | the list becomes the old list followed by exactly the given Referral; the frame lets no other list change |
| Data.DataManager.DeleteReferral | src/com/healthcare/data/DataManager.java:260-262 | the list becomes the survivors (`Store.Survivors`): no Referral with that ID remains; the result is true exactly when some Referral had the ID and the list shrank |
| Data.DataManager.LoadStaff | src/com/healthcare/data/DataManager.java:165-179 | the old list is kept as a prefix; one fresh Staff is appended per accepted record (`Ingest.Records` with arity 7), in line order, its attribute i being field i |
| Data.DataManager.AddStaff | src/com/healthcare/data/DataManager.java:235-237 | the list becomes the old list followed by exactly the given Staff; the frame lets no other list change |
| Data.DataManager.DeleteStaff | src/com/healthcare/data/DataManager.java:264-266 | the list becomes the survivors (`Store.Survivors`): no Staff with that ID remains; the result is true exactly when some Staff had the ID and the list shrank |
| Model.Patient.constructor | src/com/healthcare/data/DataManager.java:75-76 | argument i is stored in attribute i: patientID, firstName, lastName, dateOfBirth, gender, nhsNumber, email, phone, address, gpSurgery |
| Model.Clinician.constructor | src/com/healthcare/model/Clinician.java:19-29 | argument i is stored in attribute i: clinicianID, firstName, lastName, qualification, specialty, workplace, email, phone |
| Model.Clinician.SetClinicianID | src/com/healthcare/model/Clinician.java:36-38 | overwrites `clinicianID` (attribute 0) and leaves every other attribute as it was, so the getter returns the value last stored |
| Model.Clinician.SetFirstName | src/com/healthcare/model/Clinician.java:44-46 | overwrites `firstName` (attribute 1) and leaves every other attribute as it was, so the getter returns the value last stored |
| Model.Clinician.SetLastName | src/com/healthcare/model/Clinician.java:52-54 | overwrites `lastName` (attribute 2) and leaves every other attribute as it was, so the getter returns the value last stored |
| Model.Clinician.SetQualification | src/com/healthcare/model/Clinician.java:60-62 | overwrites `qualification` (attribute 3) and leaves every other attribute as it was, so the getter returns the value last stored |
| Model.Clinician.SetSpecialty | src/com/healthcare/model/Clinician.java:68-70 | overwrites `specialty` (attribute 4) and leaves every other attribute as it was, so the getter returns the value last stored |
| Model.Clinician.SetWorkplace | src/com/healthcare/model/Clinician.java:76-78 | overwrites `workplace` (attribute 5) and leaves every other attribute as it was, so the getter returns the value last stored |
| Model.Clinician.SetEmail | src/com/healthcare/model/Clinician.java:84-86 | overwrites `email` (attribute 6) and leaves every other attribute as it was, so the getter returns the value last stored |
| Model.Clinician.SetPhone | src/com/healthcare/model/Clinician.java:92-94 | overwrites `phone` (attribute 7) and leaves every other attribute as it was, so the getter returns the value last stored |
| Model.Clinician.ToString | src/com/healthcare/model/Clinician.java:96-99 | the label is exactly the concatenation, in order, of `firstName`, `" "`, `lastName`, `" - "`, `specialty`, `" ("`, `clinicianID`, `")"`, part by part: its length is the sum of the parts' lengths and each part sits at its own offset |
| Model.Facility.constructor | src/com/healthcare/model/Facility.java:19-29 | argument i is stored in attribute i: facilityID, name, facilityType, address, phone, email, services, capacity |
| Model.Facility.SetFacilityID | src/com/healthcare/model/Facility.java:36-38 | overwrites `facilityID` (attribute 0) and leaves every other attribute as it was, so the getter returns the value last stored |
| Model.Facility.SetName | src/com/healthcare/model/Facility.java:44-46 | overwrites `name` (attribute 1) and leaves every other attribute as it was, so the getter returns the value last stored |
| Model.Facility.SetType | src/com/healthcare/model/Facility.java:52-54 | overwrites `facilityType` (attribute 2) and leaves every other attribute as it was, so the getter returns the value last stored |
| Model.Facility.SetAddress | src/com/healthcare/model/Facility.java:60-62 | overwrites `address` (attribute 3) and leaves every other attribute as it was, so the getter returns the value last stored |
| Model.Facility.SetPhone | src/com/healthcare/model/Facility.java:68-70 | overwrites `phone` (attribute 4) and leaves every other attribute as it was, so the getter returns the value last stored |
| Model.Facility.SetEmail | src/com/healthcare/model/Facility.java:76-78 | overwrites `email` (attribute 5) and leaves every other attribute as it was, so the getter returns the value last stored |
| Model.Facility.SetServices | src/com/healthcare/model/Facility.java:84-86 | overwrites `services` (attribute 6) and leaves every other attribute as it was, so the getter returns the value last stored |
| Model.Facility.SetCapacity | src/com/healthcare/model/Facility.java:92-94 | overwrites `capacity` (attribute 7) and leaves every other attribute as it was, so the getter returns the value last stored |
| Model.Facility.ToString | src/com/healthcare/model/Facility.java:96-99 | the label is exactly the concatenation, in order, of `name`, `" ("`, `facilityID`, `")"`, part by part: its length is the sum of the parts' lengths and each part sits at its own offset |
| Model.Appointment.constructor | src/com/healthcare/model/Appointment.java:20-31 | argument i is stored in attribute i: appointmentID, patientID, clinicianID, facilityID, date, time, status, reason, notes |
| Model.Appointment.SetAppointmentID | src/com/healthcare/model/Appointment.java:38-40 | overwrites `appointmentID` (attribute 0) and leaves every other attribute as it was, so the getter returns the value last stored |
| Model.Appointment.SetPatientID | src/com/healthcare/model/Appointment.java:46-48 | overwrites `patientID` (attribute 1) and leaves every other attribute as it was, so the getter returns the value last stored |
| Model.Appointment.SetClinicianID | src/com/healthcare/model/Appointment.java:54-56 | overwrites `clinicianID` (attribute 2) and leaves every other attribute as it was, so the getter returns the value last stored |
| Model.Appointment.SetFacilityID | src/com/healthcare/model/Appointment.java:62-64 | overwrites `facilityID` (attribute 3) and leaves every other attribute as it was, so the getter returns the value last stored |
| Model.Appointment.SetDate | src/com/healthcare/model/Appointment.java:70-72 | overwrites `date` (attribute 4) and leaves every other attribute as it was, so the getter returns the value last stored |
| Model.Appointment.SetTime | src/com/healthcare/model/Appointment.java:78-80 | overwrites `time` (attribute 5) and leaves every other attribute as it was, so the getter returns the value last stored |
| Model.Appointment.SetStatus | src/com/healthcare/model/Appointment.java:86-88 | overwrites `status` (attribute 6) and leaves every other attribute as it was, so the getter returns the value last stored |
| Model.Appointment.SetReason | src/com/healthcare/model/Appointment.java:94-96 | overwrites `reason` (attribute 7) and leaves every other attribute as it was, so the getter returns the value last stored |
| Model.Appointment.SetNotes | src/com/healthcare/model/Appointment.java:102-104 | overwrites `notes` (attribute 8) and leaves every other attribute as it was, so the getter returns the value last stored |
| Model.Appointment.ToString | src/com/healthcare/model/Appointment.java:106-109 | the label is exactly the concatenation, in order, of `appointmentID`, `" - "`, `date`, `" "`, `time`, `" ("`, `status`, `")"`, part by part: its length is the sum of the parts' lengths and each part sits at its own offset |
| Model.Prescription.constructor | src/com/healthcare/model/Prescription.java:21-34 | argument i is stored in attribute i: prescriptionID, patientID, clinicianID, medication, dosage, quantity, pharmacy, datePrescribed, collectionStatus, notes |
| Model.Prescription.SetPrescriptionID | src/com/healthcare/model/Prescription.java:41-43 | overwrites `prescriptionID` (attribute 0) and leaves every other attribute as it was, so the getter returns the value last stored |
| Model.Prescription.SetPatientID | src/com/healthcare/model/Prescription.java:49-51 | overwrites `patientID` (attribute 1) and leaves every other attribute as it was, so the getter returns the value last stored |
| Model.Prescription.SetClinicianID | src/com/healthcare/model/Prescription.java:57-59 | overwrites `clinicianID` (attribute 2) and leaves every other attribute as it was, so the getter returns the value last stored |
| Model.Prescription.SetMedication | src/com/healthcare/model/Prescription.java:65-67 | overwrites `medication` (attribute 3) and leaves every other attribute as it was, so the getter returns the value last stored |
| Model.Prescription.SetDosage | src/com/healthcare/model/Prescription.java:73-75 | overwrites `dosage` (attribute 4) and leaves every other attribute as it was, so the getter returns the value last stored |
| Model.Prescription.SetQuantity | src/com/healthcare/model/Prescription.java:81-83 | overwrites `quantity` (attribute 5) and leaves every other attribute as it was, so the getter returns the value last stored |
| Model.Prescription.SetPharmacy | src/com/healthcare/model/Prescription.java:89-91 | overwrites `pharmacy` (attribute 6) and leaves every other attribute as it was, so the getter returns the value last stored |
| Model.Prescription.SetDatePrescribed | src/com/healthcare/model/Prescription.java:97-99 | overwrites `datePrescribed` (attribute 7) and leaves every other attribute as it was, so the getter returns the value last stored |
| Model.Prescription.SetCollectionStatus | src/com/healthcare/model/Prescription.java:105-107 | overwrites `collectionStatus` (attribute 8) and leaves every other attribute as it was, so the getter returns the value last stored |
| Model.Prescription.SetNotes | src/com/healthcare/model/Prescription.java:113-115 | overwrites `notes` (attribute 9) and leaves every other attribute as it was, so the getter returns the value last stored |
| Model.Prescription.ToString | src/com/healthcare/model/Prescription.java:117-120 | the label is exactly the concatenation, in order, of `prescriptionID`, `" - "`, `medication`, `" ("`, `datePrescribed`, `")"`, part by part: its length is the sum of the parts' lengths and each part sits at its own offset |
| Model.Referral.constructor | src/com/healthcare/model/Referral.java:21-34 | argument i is stored in attribute i: referralID, patientID, referringClinicianID, receivingClinicianID, referringFacility, receivingFacility, date, urgency, clinicalSummary, status |
| Model.Referral.SetReferralID | src/com/healthcare/model/Referral.java:41-43 | overwrites `referralID` (attribute 0) and leaves every other attribute as it was, so the getter returns the value last stored |
| Model.Referral.SetPatientID | src/com/healthcare/model/Referral.java:49-51 | overwrites `patientID` (attribute 1) and leaves every other attribute as it was, so the getter returns the value last stored |
| Model.Referral.SetReferringClinicianID | src/com/healthcare/model/Referral.java:57-59 | overwrites `referringClinicianID` (attribute 2) and leaves every other attribute as it was, so the getter returns the value last stored |
| Model.Referral.SetReceivingClinicianID | src/com/healthcare/model/Referral.java:65-67 | overwrites `receivingClinicianID` (attribute 3) and leaves every other attribute as it was, so the getter returns the value last stored |
| Model.Referral.SetReferringFacility | src/com/healthcare/model/Referral.java:73-75 | overwrites `referringFacility` (attribute 4) and leaves every other attribute as it was, so the getter returns the value last stored |
| Model.Referral.SetReceivingFacility | src/com/healthcare/model/Referral.java:81-83 | overwrites `receivingFacility` (attribute 5) and leaves every other attribute as it was, so the getter returns the value last stored |
| Model.Referral.SetDate | src/com/healthcare/model/Referral.java:89-91 | overwrites `date` (attribute 6) and leaves every other attribute as it was, so the getter returns the value last stored |
| Model.Referral.SetUrgency | src/com/healthcare/model/Referral.java:97-99 | overwrites `urgency` (attribute 7) and leaves every other attribute as it was, so the getter returns the value last stored |
| Model.Referral.SetClinicalSummary | src/com/healthcare/model/Referral.java:105-107 | overwrites `clinicalSummary` (attribute 8) and leaves every other attribute as it was, so the getter returns the value last stored |
| Model.Referral.SetStatus | src/com/healthcare/model/Referral.java:113-115 | overwrites `status` (attribute 9) and leaves every other attribute as it was, so the getter returns the value last stored |
| Model.Referral.ToString | src/com/healthcare/model/Referral.java:117-120 | the label is exactly the concatenation, in order, of `referralID`, `" - "`, `date`, `" ("`, `urgency`, `")"`, part by part: its length is the sum of the parts' lengths and each part sits at its own offset |
| Model.Staff.constructor | src/com/healthcare/model/Staff.java:18-27 | argument i is stored in attribute i: staffID, firstName, lastName, role, facilityID, email, phone |
| Model.Staff.SetStaffID | src/com/healthcare/model/Staff.java:34-36 | overwrites `staffID` (attribute 0) and leaves every other attribute as it was, so the getter returns the value last stored |
| Model.Staff.SetFirstName | src/com/healthcare/model/Staff.java:42-44 | overwrites `firstName` (attribute 1) and leaves every other attribute as it was, so the getter returns the value last stored |
| Model.Staff.SetLastName | src/com/healthcare/model/Staff.java:50-52 | overwrites `lastName` (attribute 2) and leaves every other attribute as it was, so the getter returns the value last stored |
| Model.Staff.SetRole | src/com/healthcare/model/Staff.java:58-60 | overwrites `role` (attribute 3) and leaves every other attribute as it was, so the getter returns the value last stored |
| Model.Staff.SetFacilityID | src/com/healthcare/model/Staff.java:66-68 | overwrites `facilityID` (attribute 4) and leaves every other attribute as it was, so the getter returns the value last stored |
| Model.Staff.SetEmail | src/com/healthcare/model/Staff.java:74-76 | overwrites `email` (attribute 5) and leaves every other attribute as it was, so the getter returns the value last stored |
| Model.Staff.SetPhone | src/com/healthcare/model/Staff.java:82-84 | overwrites `phone` (attribute 6) and leaves every other attribute as it was, so the getter returns the value last stored |
| Model.Staff.ToString | src/com/healthcare/model/Staff.java:86-89 | the label is exactly the concatenation, in order, of `firstName`, `" "`, `lastName`, `" - "`, `role`, `" ("`, `staffID`, `")"`, part by part: its length is the sum of the parts' lengths and each part sits at its own offset |
| Panels.UpdatePatient | src/com/healthcare/view/PatientPanel.java:184-185 | the list becomes the delete's survivors in their original order followed by the new Patient; no other Patient keeps the ID; when the new Patient carries the ID, `findPatient` then returns it |
| Panels.UpdateClinician | src/com/healthcare/view/ClinicianPanel.java:105-106 | the list becomes the delete's survivors in their original order followed by the new Clinician; no other Clinician keeps the ID; when the new Clinician carries the ID, `findClinician` then returns it |
| Panels.UpdateFacility | src/com/healthcare/view/FacilityPanel.java:123-124 | the list becomes the delete's survivors in their original order followed by the new Facility; no other Facility keeps the ID; when the new Facility carries the ID, `findFacility` then returns it |
| Panels.UpdateAppointment | src/com/healthcare/view/AppointmentPanel.java:106-107 | the list becomes the delete's survivors in their original order followed by the new Appointment; no other Appointment keeps the ID |
| Panels.UpdatePrescription | src/com/healthcare/view/PrescriptionPanel.java:130-131 | the list becomes the delete's survivors in their original order followed by the new Prescription; no other Prescription keeps the ID |
| Panels.UpdateReferral | src/com/healthcare/view/ReferralPanel.java:110-111 | the list becomes the delete's survivors in their original order followed by the new Referral; no other Referral keeps the ID |
| Panels.UpdateStaff | src/com/healthcare/view/StaffPanel.java:126-127 | the list becomes the delete's survivors in their original order followed by the new Staff; no other Staff keeps the ID |

## Left out

- File I/O is not modelled. Opening and reading the file, and the `IOException` handler that logs to standard error, are not part of the model. A loader takes the file's lines as a sequence. A read failure part-way through a real file leaves the entities appended so far; the model has no such failure.
- Data.DataManager.LoadPatients and the other six loaders compute the same list the source does, but in a different order. The source tokenizes each line, constructs the entity and appends it, one line at a time. The model parses all records first, then constructs, then appends. Without I/O failures the resulting list is the same.
- The path building in `loadAllData` is string plumbing around the seven loaders and is not part of this model.
- The getters of `DataManager` and of the entity classes are not separate members. The model reads the fields directly. The getters return the live `ArrayList` itself; the model represents that list by its current value, so aliasing through a returned list is not modelled.
- The entity classes' no-argument constructors, which leave every field null, are not modelled. Strings here are never null.
- `Patient.java` is not part of this model. The Patient class has the ten fields the loader passes, in that order, and a constructor only. Its setters and `toString` are not modelled.
- Strings are sequences of Dafny characters. Java's UTF-16 code units and surrogate pairs are not distinguished.
- UpdateClinician (Panels.UpdateClinician): the new entity is never null, so the blank-ID path is not modelled. In the source, the form builder returns null when the ID field is blank (src/com/healthcare/view/ClinicianPanel.java:130-133), and the update handler still deletes the selected clinician and then hands that null to add (src/com/healthcare/view/ClinicianPanel.java:104-106), with no null check. The model's lists cannot hold null, so it promises nothing for that path. Only the patient update checks for null before deleting.
- UpdateFacility (Panels.UpdateFacility): the new entity is never null, so the blank-ID path is not modelled. In the source, the form builder returns null when the ID field is blank (src/com/healthcare/view/FacilityPanel.java:148-151), and the update handler still deletes the selected facility and then hands that null to add (src/com/healthcare/view/FacilityPanel.java:122-124), with no null check. The model's lists cannot hold null, so it promises nothing for that path. Only the patient update checks for null before deleting.
- UpdateAppointment (Panels.UpdateAppointment): the new entity is never null, so the blank-ID path is not modelled. In the source, the form builder returns null when the ID field is blank (src/com/healthcare/view/AppointmentPanel.java:131-134), and the update handler still deletes the selected appointment and then hands that null to add (src/com/healthcare/view/AppointmentPanel.java:105-107), with no null check. The model's lists cannot hold null, so it promises nothing for that path. Only the patient update checks for null before deleting.
- UpdatePrescription (Panels.UpdatePrescription): the new entity is never null, so the blank-ID path is not modelled. In the source, the form builder returns null when the ID field is blank (src/com/healthcare/view/PrescriptionPanel.java:155-158), and the update handler still deletes the selected prescription and then hands that null to add (src/com/healthcare/view/PrescriptionPanel.java:129-131), with no null check. The model's lists cannot hold null, so it promises nothing for that path. Only the patient update checks for null before deleting.
- UpdateReferral (Panels.UpdateReferral): the new entity is never null, so the blank-ID path is not modelled. In the source, the form builder returns null when the ID field is blank (src/com/healthcare/view/ReferralPanel.java:161-164), and the update handler still deletes the selected referral and then hands that null to add (src/com/healthcare/view/ReferralPanel.java:109-111), with no null check. The model's lists cannot hold null, so it promises nothing for that path. Only the patient update checks for null before deleting.
- UpdateStaff (Panels.UpdateStaff): the new entity is never null, so the blank-ID path is not modelled. In the source, the form builder returns null when the ID field is blank (src/com/healthcare/view/StaffPanel.java:151-154), and the update handler still deletes the selected staff member and then hands that null to add (src/com/healthcare/view/StaffPanel.java:125-127), with no null check. The model's lists cannot hold null, so it promises nothing for that path. Only the patient update checks for null before deleting.
- The panels' 11-, 12- and 15-argument constructor calls on Facility, Staff and Prescription are not modelled. They do not match the constructors of the model classes, and the model follows the model classes and the loader.
- The rest of the Swing user interface, the controller, and the export of referral letters to files are outside the data layer and are not part of this model.
