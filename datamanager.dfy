/** The data manager: one list per entity kind, filled by the loaders and changed by add and delete. */
module Data {
  import opened Model
  import Ingest
  import Store

  /** The least number of fields a data line needs for each kind; further fields are ignored. */
  const PatientArity := 10
  const ClinicianArity := 8
  const FacilityArity := 8
  const AppointmentArity := 9
  const PrescriptionArity := 10
  const ReferralArity := 10
  const StaffArity := 7

  /** The ID of each patient in `s`, index by index. */
  function PatientIds(s: seq<Patient>): (r: seq<string>)
    reads s
    ensures |r| == |s| && forall k :: 0 <= k < |s| ==> r[k] == s[k].patientID
  {
    if s == [] then [] else PatientIds(s[..|s| - 1]) + [s[|s| - 1].patientID]
  }

  /** The IDs of a concatenation are the IDs of its parts, concatenated. */
  lemma PatientIdsAppend(a: seq<Patient>, b: seq<Patient>)
    ensures PatientIds(a + b) == PatientIds(a) + PatientIds(b)
  {
    assert forall k :: 0 <= k < |a + b| ==> PatientIds(a + b)[k] == (PatientIds(a) + PatientIds(b))[k];
  }

  /** Deleting from the patient list and deleting from its ID list agree: the IDs of the survivors
      are the surviving IDs, so the `Store` lemmas about the ID list speak about the patients. */
  lemma {:induction false} PatientIdsOfSurvivors(s: seq<Patient>, id: string)
    ensures PatientIds(Store.Survivors(s, PatientIds(s), id)) == Store.Survivors(PatientIds(s), PatientIds(s), id)
  {
    if s != [] {
      var n := |s| - 1;
      var ids := PatientIds(s);
      var p := s[..n];
      assert PatientIds(p) == ids[..n] by {
        assert forall k :: 0 <= k < n ==> PatientIds(p)[k] == ids[k];
      }
      PatientIdsOfSurvivors(p, id);
      var r := Store.Survivors(p, ids[..n], id);
      var last := if ids[n] == id then [] else [s[n]];
      PatientIdsAppend(r, last);
      assert PatientIds(last) == if ids[n] == id then [] else [ids[n]];
    }
  }

  /** The ID of each clinician in `s`, index by index. */
  function ClinicianIds(s: seq<Clinician>): (r: seq<string>)
    reads s
    ensures |r| == |s| && forall k :: 0 <= k < |s| ==> r[k] == s[k].clinicianID
  {
    if s == [] then [] else ClinicianIds(s[..|s| - 1]) + [s[|s| - 1].clinicianID]
  }

  /** The IDs of a concatenation are the IDs of its parts, concatenated. */
  lemma ClinicianIdsAppend(a: seq<Clinician>, b: seq<Clinician>)
    ensures ClinicianIds(a + b) == ClinicianIds(a) + ClinicianIds(b)
  {
    assert forall k :: 0 <= k < |a + b| ==> ClinicianIds(a + b)[k] == (ClinicianIds(a) + ClinicianIds(b))[k];
  }

  /** Deleting from the clinician list and deleting from its ID list agree: the IDs of the survivors
      are the surviving IDs, so the `Store` lemmas about the ID list speak about the clinicians. */
  lemma {:induction false} ClinicianIdsOfSurvivors(s: seq<Clinician>, id: string)
    ensures ClinicianIds(Store.Survivors(s, ClinicianIds(s), id)) == Store.Survivors(ClinicianIds(s), ClinicianIds(s), id)
  {
    if s != [] {
      var n := |s| - 1;
      var ids := ClinicianIds(s);
      var p := s[..n];
      assert ClinicianIds(p) == ids[..n] by {
        assert forall k :: 0 <= k < n ==> ClinicianIds(p)[k] == ids[k];
      }
      ClinicianIdsOfSurvivors(p, id);
      var r := Store.Survivors(p, ids[..n], id);
      var last := if ids[n] == id then [] else [s[n]];
      ClinicianIdsAppend(r, last);
      assert ClinicianIds(last) == if ids[n] == id then [] else [ids[n]];
    }
  }

  /** The ID of each facility in `s`, index by index. */
  function FacilityIds(s: seq<Facility>): (r: seq<string>)
    reads s
    ensures |r| == |s| && forall k :: 0 <= k < |s| ==> r[k] == s[k].facilityID
  {
    if s == [] then [] else FacilityIds(s[..|s| - 1]) + [s[|s| - 1].facilityID]
  }

  /** The IDs of a concatenation are the IDs of its parts, concatenated. */
  lemma FacilityIdsAppend(a: seq<Facility>, b: seq<Facility>)
    ensures FacilityIds(a + b) == FacilityIds(a) + FacilityIds(b)
  {
    assert forall k :: 0 <= k < |a + b| ==> FacilityIds(a + b)[k] == (FacilityIds(a) + FacilityIds(b))[k];
  }

  /** Deleting from the facility list and deleting from its ID list agree: the IDs of the survivors
      are the surviving IDs, so the `Store` lemmas about the ID list speak about the facilitys. */
  lemma {:induction false} FacilityIdsOfSurvivors(s: seq<Facility>, id: string)
    ensures FacilityIds(Store.Survivors(s, FacilityIds(s), id)) == Store.Survivors(FacilityIds(s), FacilityIds(s), id)
  {
    if s != [] {
      var n := |s| - 1;
      var ids := FacilityIds(s);
      var p := s[..n];
      assert FacilityIds(p) == ids[..n] by {
        assert forall k :: 0 <= k < n ==> FacilityIds(p)[k] == ids[k];
      }
      FacilityIdsOfSurvivors(p, id);
      var r := Store.Survivors(p, ids[..n], id);
      var last := if ids[n] == id then [] else [s[n]];
      FacilityIdsAppend(r, last);
      assert FacilityIds(last) == if ids[n] == id then [] else [ids[n]];
    }
  }

  /** The ID of each appointment in `s`, index by index. */
  function AppointmentIds(s: seq<Appointment>): (r: seq<string>)
    reads s
    ensures |r| == |s| && forall k :: 0 <= k < |s| ==> r[k] == s[k].appointmentID
  {
    if s == [] then [] else AppointmentIds(s[..|s| - 1]) + [s[|s| - 1].appointmentID]
  }

  /** The IDs of a concatenation are the IDs of its parts, concatenated. */
  lemma AppointmentIdsAppend(a: seq<Appointment>, b: seq<Appointment>)
    ensures AppointmentIds(a + b) == AppointmentIds(a) + AppointmentIds(b)
  {
    assert forall k :: 0 <= k < |a + b| ==> AppointmentIds(a + b)[k] == (AppointmentIds(a) + AppointmentIds(b))[k];
  }

  /** Deleting from the appointment list and deleting from its ID list agree: the IDs of the survivors
      are the surviving IDs, so the `Store` lemmas about the ID list speak about the appointments. */
  lemma {:induction false} AppointmentIdsOfSurvivors(s: seq<Appointment>, id: string)
    ensures AppointmentIds(Store.Survivors(s, AppointmentIds(s), id)) == Store.Survivors(AppointmentIds(s), AppointmentIds(s), id)
  {
    if s != [] {
      var n := |s| - 1;
      var ids := AppointmentIds(s);
      var p := s[..n];
      assert AppointmentIds(p) == ids[..n] by {
        assert forall k :: 0 <= k < n ==> AppointmentIds(p)[k] == ids[k];
      }
      AppointmentIdsOfSurvivors(p, id);
      var r := Store.Survivors(p, ids[..n], id);
      var last := if ids[n] == id then [] else [s[n]];
      AppointmentIdsAppend(r, last);
      assert AppointmentIds(last) == if ids[n] == id then [] else [ids[n]];
    }
  }

  /** The ID of each prescription in `s`, index by index. */
  function PrescriptionIds(s: seq<Prescription>): (r: seq<string>)
    reads s
    ensures |r| == |s| && forall k :: 0 <= k < |s| ==> r[k] == s[k].prescriptionID
  {
    if s == [] then [] else PrescriptionIds(s[..|s| - 1]) + [s[|s| - 1].prescriptionID]
  }

  /** The IDs of a concatenation are the IDs of its parts, concatenated. */
  lemma PrescriptionIdsAppend(a: seq<Prescription>, b: seq<Prescription>)
    ensures PrescriptionIds(a + b) == PrescriptionIds(a) + PrescriptionIds(b)
  {
    assert forall k :: 0 <= k < |a + b| ==> PrescriptionIds(a + b)[k] == (PrescriptionIds(a) + PrescriptionIds(b))[k];
  }

  /** Deleting from the prescription list and deleting from its ID list agree: the IDs of the survivors
      are the surviving IDs, so the `Store` lemmas about the ID list speak about the prescriptions. */
  lemma {:induction false} PrescriptionIdsOfSurvivors(s: seq<Prescription>, id: string)
    ensures PrescriptionIds(Store.Survivors(s, PrescriptionIds(s), id)) == Store.Survivors(PrescriptionIds(s), PrescriptionIds(s), id)
  {
    if s != [] {
      var n := |s| - 1;
      var ids := PrescriptionIds(s);
      var p := s[..n];
      assert PrescriptionIds(p) == ids[..n] by {
        assert forall k :: 0 <= k < n ==> PrescriptionIds(p)[k] == ids[k];
      }
      PrescriptionIdsOfSurvivors(p, id);
      var r := Store.Survivors(p, ids[..n], id);
      var last := if ids[n] == id then [] else [s[n]];
      PrescriptionIdsAppend(r, last);
      assert PrescriptionIds(last) == if ids[n] == id then [] else [ids[n]];
    }
  }

  /** The ID of each referral in `s`, index by index. */
  function ReferralIds(s: seq<Referral>): (r: seq<string>)
    reads s
    ensures |r| == |s| && forall k :: 0 <= k < |s| ==> r[k] == s[k].referralID
  {
    if s == [] then [] else ReferralIds(s[..|s| - 1]) + [s[|s| - 1].referralID]
  }

  /** The IDs of a concatenation are the IDs of its parts, concatenated. */
  lemma ReferralIdsAppend(a: seq<Referral>, b: seq<Referral>)
    ensures ReferralIds(a + b) == ReferralIds(a) + ReferralIds(b)
  {
    assert forall k :: 0 <= k < |a + b| ==> ReferralIds(a + b)[k] == (ReferralIds(a) + ReferralIds(b))[k];
  }

  /** Deleting from the referral list and deleting from its ID list agree: the IDs of the survivors
      are the surviving IDs, so the `Store` lemmas about the ID list speak about the referrals. */
  lemma {:induction false} ReferralIdsOfSurvivors(s: seq<Referral>, id: string)
    ensures ReferralIds(Store.Survivors(s, ReferralIds(s), id)) == Store.Survivors(ReferralIds(s), ReferralIds(s), id)
  {
    if s != [] {
      var n := |s| - 1;
      var ids := ReferralIds(s);
      var p := s[..n];
      assert ReferralIds(p) == ids[..n] by {
        assert forall k :: 0 <= k < n ==> ReferralIds(p)[k] == ids[k];
      }
      ReferralIdsOfSurvivors(p, id);
      var r := Store.Survivors(p, ids[..n], id);
      var last := if ids[n] == id then [] else [s[n]];
      ReferralIdsAppend(r, last);
      assert ReferralIds(last) == if ids[n] == id then [] else [ids[n]];
    }
  }

  /** The ID of each staff in `s`, index by index. */
  function StaffIds(s: seq<Staff>): (r: seq<string>)
    reads s
    ensures |r| == |s| && forall k :: 0 <= k < |s| ==> r[k] == s[k].staffID
  {
    if s == [] then [] else StaffIds(s[..|s| - 1]) + [s[|s| - 1].staffID]
  }

  /** The IDs of a concatenation are the IDs of its parts, concatenated. */
  lemma StaffIdsAppend(a: seq<Staff>, b: seq<Staff>)
    ensures StaffIds(a + b) == StaffIds(a) + StaffIds(b)
  {
    assert forall k :: 0 <= k < |a + b| ==> StaffIds(a + b)[k] == (StaffIds(a) + StaffIds(b))[k];
  }

  /** Deleting from the staff list and deleting from its ID list agree: the IDs of the survivors
      are the surviving IDs, so the `Store` lemmas about the ID list speak about the staffs. */
  lemma {:induction false} StaffIdsOfSurvivors(s: seq<Staff>, id: string)
    ensures StaffIds(Store.Survivors(s, StaffIds(s), id)) == Store.Survivors(StaffIds(s), StaffIds(s), id)
  {
    if s != [] {
      var n := |s| - 1;
      var ids := StaffIds(s);
      var p := s[..n];
      assert StaffIds(p) == ids[..n] by {
        assert forall k :: 0 <= k < n ==> StaffIds(p)[k] == ids[k];
      }
      StaffIdsOfSurvivors(p, id);
      var r := Store.Survivors(p, ids[..n], id);
      var last := if ids[n] == id then [] else [s[n]];
      StaffIdsAppend(r, last);
      assert StaffIds(last) == if ids[n] == id then [] else [ids[n]];
    }
  }

  /** `e` holds the record `f`: its attributes, in constructor order, are the first 10 fields of `f`. */
  predicate PatientFrom(e: Patient, f: seq<string>)
    reads e
  {
    |f| >= PatientArity && e.Fields() == f[..PatientArity]
  }

  /** The loader's constructor calls: one new patient per record, in record order. */
  method NewPatients(rows: seq<seq<string>>) returns (added: seq<Patient>)
    requires forall k :: 0 <= k < |rows| ==> |rows[k]| >= PatientArity
    ensures |added| == |rows|
    ensures forall k :: 0 <= k < |rows| ==> fresh(added[k]) && PatientFrom(added[k], rows[k])
  {
    added := [];
    for j := 0 to |rows|
      invariant |added| == j
      invariant forall k :: 0 <= k < j ==> fresh(added[k]) && PatientFrom(added[k], rows[k])
    {
      var f := rows[j];
      var e := new Patient(f[0], f[1], f[2], f[3], f[4], f[5], f[6], f[7], f[8], f[9]);
      assert PatientFrom(e, f) by {
        assert e.Fields() == f[..PatientArity];
      }
      added := added + [e];
    }
  }

  /** `e` holds the record `f`: its attributes, in constructor order, are the first 8 fields of `f`. */
  predicate ClinicianFrom(e: Clinician, f: seq<string>)
    reads e
  {
    |f| >= ClinicianArity && e.Fields() == f[..ClinicianArity]
  }

  /** The loader's constructor calls: one new clinician per record, in record order. */
  method NewClinicians(rows: seq<seq<string>>) returns (added: seq<Clinician>)
    requires forall k :: 0 <= k < |rows| ==> |rows[k]| >= ClinicianArity
    ensures |added| == |rows|
    ensures forall k :: 0 <= k < |rows| ==> fresh(added[k]) && ClinicianFrom(added[k], rows[k])
  {
    added := [];
    for j := 0 to |rows|
      invariant |added| == j
      invariant forall k :: 0 <= k < j ==> fresh(added[k]) && ClinicianFrom(added[k], rows[k])
    {
      var f := rows[j];
      var e := new Clinician(f[0], f[1], f[2], f[3], f[4], f[5], f[6], f[7]);
      assert ClinicianFrom(e, f) by {
        assert e.Fields() == f[..ClinicianArity];
      }
      added := added + [e];
    }
  }

  /** `e` holds the record `f`: its attributes, in constructor order, are the first 8 fields of `f`. */
  predicate FacilityFrom(e: Facility, f: seq<string>)
    reads e
  {
    |f| >= FacilityArity && e.Fields() == f[..FacilityArity]
  }

  /** The loader's constructor calls: one new facility per record, in record order. */
  method NewFacilities(rows: seq<seq<string>>) returns (added: seq<Facility>)
    requires forall k :: 0 <= k < |rows| ==> |rows[k]| >= FacilityArity
    ensures |added| == |rows|
    ensures forall k :: 0 <= k < |rows| ==> fresh(added[k]) && FacilityFrom(added[k], rows[k])
  {
    added := [];
    for j := 0 to |rows|
      invariant |added| == j
      invariant forall k :: 0 <= k < j ==> fresh(added[k]) && FacilityFrom(added[k], rows[k])
    {
      var f := rows[j];
      var e := new Facility(f[0], f[1], f[2], f[3], f[4], f[5], f[6], f[7]);
      assert FacilityFrom(e, f) by {
        assert e.Fields() == f[..FacilityArity];
      }
      added := added + [e];
    }
  }

  /** `e` holds the record `f`: its attributes, in constructor order, are the first 9 fields of `f`. */
  predicate AppointmentFrom(e: Appointment, f: seq<string>)
    reads e
  {
    |f| >= AppointmentArity && e.Fields() == f[..AppointmentArity]
  }

  /** The loader's constructor calls: one new appointment per record, in record order. */
  method NewAppointments(rows: seq<seq<string>>) returns (added: seq<Appointment>)
    requires forall k :: 0 <= k < |rows| ==> |rows[k]| >= AppointmentArity
    ensures |added| == |rows|
    ensures forall k :: 0 <= k < |rows| ==> fresh(added[k]) && AppointmentFrom(added[k], rows[k])
  {
    added := [];
    for j := 0 to |rows|
      invariant |added| == j
      invariant forall k :: 0 <= k < j ==> fresh(added[k]) && AppointmentFrom(added[k], rows[k])
    {
      var f := rows[j];
      var e := new Appointment(f[0], f[1], f[2], f[3], f[4], f[5], f[6], f[7], f[8]);
      assert AppointmentFrom(e, f) by {
        assert e.Fields() == f[..AppointmentArity];
      }
      added := added + [e];
    }
  }

  /** `e` holds the record `f`: its attributes, in constructor order, are the first 10 fields of `f`. */
  predicate PrescriptionFrom(e: Prescription, f: seq<string>)
    reads e
  {
    |f| >= PrescriptionArity && e.Fields() == f[..PrescriptionArity]
  }

  /** The loader's constructor calls: one new prescription per record, in record order. */
  method NewPrescriptions(rows: seq<seq<string>>) returns (added: seq<Prescription>)
    requires forall k :: 0 <= k < |rows| ==> |rows[k]| >= PrescriptionArity
    ensures |added| == |rows|
    ensures forall k :: 0 <= k < |rows| ==> fresh(added[k]) && PrescriptionFrom(added[k], rows[k])
  {
    added := [];
    for j := 0 to |rows|
      invariant |added| == j
      invariant forall k :: 0 <= k < j ==> fresh(added[k]) && PrescriptionFrom(added[k], rows[k])
    {
      var f := rows[j];
      var e := new Prescription(f[0], f[1], f[2], f[3], f[4], f[5], f[6], f[7], f[8], f[9]);
      assert PrescriptionFrom(e, f) by {
        assert e.Fields() == f[..PrescriptionArity];
      }
      added := added + [e];
    }
  }

  /** `e` holds the record `f`: its attributes, in constructor order, are the first 10 fields of `f`. */
  predicate ReferralFrom(e: Referral, f: seq<string>)
    reads e
  {
    |f| >= ReferralArity && e.Fields() == f[..ReferralArity]
  }

  /** The loader's constructor calls: one new referral per record, in record order. */
  method NewReferrals(rows: seq<seq<string>>) returns (added: seq<Referral>)
    requires forall k :: 0 <= k < |rows| ==> |rows[k]| >= ReferralArity
    ensures |added| == |rows|
    ensures forall k :: 0 <= k < |rows| ==> fresh(added[k]) && ReferralFrom(added[k], rows[k])
  {
    added := [];
    for j := 0 to |rows|
      invariant |added| == j
      invariant forall k :: 0 <= k < j ==> fresh(added[k]) && ReferralFrom(added[k], rows[k])
    {
      var f := rows[j];
      var e := new Referral(f[0], f[1], f[2], f[3], f[4], f[5], f[6], f[7], f[8], f[9]);
      assert ReferralFrom(e, f) by {
        assert e.Fields() == f[..ReferralArity];
      }
      added := added + [e];
    }
  }

  /** `e` holds the record `f`: its attributes, in constructor order, are the first 7 fields of `f`. */
  predicate StaffFrom(e: Staff, f: seq<string>)
    reads e
  {
    |f| >= StaffArity && e.Fields() == f[..StaffArity]
  }

  /** The loader's constructor calls: one new staff per record, in record order. */
  method NewStaff(rows: seq<seq<string>>) returns (added: seq<Staff>)
    requires forall k :: 0 <= k < |rows| ==> |rows[k]| >= StaffArity
    ensures |added| == |rows|
    ensures forall k :: 0 <= k < |rows| ==> fresh(added[k]) && StaffFrom(added[k], rows[k])
  {
    added := [];
    for j := 0 to |rows|
      invariant |added| == j
      invariant forall k :: 0 <= k < j ==> fresh(added[k]) && StaffFrom(added[k], rows[k])
    {
      var f := rows[j];
      var e := new Staff(f[0], f[1], f[2], f[3], f[4], f[5], f[6]);
      assert StaffFrom(e, f) by {
        assert e.Fields() == f[..StaffArity];
      }
      added := added + [e];
    }
  }

  class DataManager {
    var patients: seq<Patient>
    var clinicians: seq<Clinician>
    var facilities: seq<Facility>
    var appointments: seq<Appointment>
    var prescriptions: seq<Prescription>
    var referrals: seq<Referral>
    var staff: seq<Staff>

    /** Every list starts empty. */
    constructor ()
      ensures patients == [] && clinicians == [] && facilities == [] && appointments == [] && prescriptions == [] && referrals == [] && staff == []
    {
      patients := [];
      clinicians := [];
      facilities := [];
      appointments := [];
      prescriptions := [];
      referrals := [];
      staff := [];
    }

    /** `loadPatients` on the lines of a file: each record read becomes a new patient, appended in line order. */
    method LoadPatients(lines: seq<string>)
      modifies this`patients
      ensures |patients| == old(|patients|) + |Ingest.Records(lines, PatientArity)|
      ensures patients[..old(|patients|)] == old(patients)
      ensures forall k :: old(|patients|) <= k < |patients| ==>
        fresh(patients[k]) && PatientFrom(patients[k], Ingest.Records(lines, PatientArity)[k - old(|patients|)])
    {
      var rows := Ingest.ReadRows(lines, PatientArity);
      var added := NewPatients(rows);
      patients := patients + added;
    }

    /** `addPatient`: append at the end. */
    method AddPatient(e: Patient)
      modifies this`patients
      ensures patients == old(patients) + [e]
    {
      patients := patients + [e];
    }

    /** `deletePatient`: remove every patient with the given ID, keeping the others in order;
        report whether anything was removed. */
    method DeletePatient(id: string) returns (removed: bool)
      modifies this`patients
      ensures patients == Store.Survivors(old(patients), old(PatientIds(patients)), id)
      ensures removed <==> |patients| < old(|patients|)
      ensures removed <==> old(exists k :: 0 <= k < |patients| && patients[k].patientID == id)
      ensures forall e :: e in patients ==> e.patientID != id
    {
      var ids := PatientIds(patients);
      ghost var before := patients;
      removed := id in ids;
      patients := Store.Survivors(patients, ids, id);
      assert removed <==> |patients| < |before| by {
        Store.Removed(before, ids, id);
      }
      assert forall e :: e in patients ==> e.patientID != id by {
        Store.SurvivorOrigin(before, ids, id);
      }
    }

    /** `findPatient`: the first patient in list order with the given ID, or null when none has it. */
    function FindPatient(id: string): (r: Patient?)
      reads this, patients
      ensures r == null <==> forall e :: e in patients ==> e.patientID != id
      ensures r != null ==> exists k :: 0 <= k < |patients| && patients[k] == r && r.patientID == id &&
                                  forall j :: 0 <= j < k ==> patients[j].patientID != id
    {
      var k := Store.FirstIndex(PatientIds(patients), id);
      if k < |patients| then patients[k] else null
    }

    /** `loadClinicians` on the lines of a file: each record read becomes a new clinician, appended in line order. */
    method LoadClinicians(lines: seq<string>)
      modifies this`clinicians
      ensures |clinicians| == old(|clinicians|) + |Ingest.Records(lines, ClinicianArity)|
      ensures clinicians[..old(|clinicians|)] == old(clinicians)
      ensures forall k :: old(|clinicians|) <= k < |clinicians| ==>
        fresh(clinicians[k]) && ClinicianFrom(clinicians[k], Ingest.Records(lines, ClinicianArity)[k - old(|clinicians|)])
    {
      var rows := Ingest.ReadRows(lines, ClinicianArity);
      var added := NewClinicians(rows);
      clinicians := clinicians + added;
    }

    /** `addClinician`: append at the end. */
    method AddClinician(e: Clinician)
      modifies this`clinicians
      ensures clinicians == old(clinicians) + [e]
    {
      clinicians := clinicians + [e];
    }

    /** `deleteClinician`: remove every clinician with the given ID, keeping the others in order;
        report whether anything was removed. */
    method DeleteClinician(id: string) returns (removed: bool)
      modifies this`clinicians
      ensures clinicians == Store.Survivors(old(clinicians), old(ClinicianIds(clinicians)), id)
      ensures removed <==> |clinicians| < old(|clinicians|)
      ensures removed <==> old(exists k :: 0 <= k < |clinicians| && clinicians[k].clinicianID == id)
      ensures forall e :: e in clinicians ==> e.clinicianID != id
    {
      var ids := ClinicianIds(clinicians);
      ghost var before := clinicians;
      removed := id in ids;
      clinicians := Store.Survivors(clinicians, ids, id);
      assert removed <==> |clinicians| < |before| by {
        Store.Removed(before, ids, id);
      }
      assert forall e :: e in clinicians ==> e.clinicianID != id by {
        Store.SurvivorOrigin(before, ids, id);
      }
    }

    /** `findClinician`: the first clinician in list order with the given ID, or null when none has it. */
    function FindClinician(id: string): (r: Clinician?)
      reads this, clinicians
      ensures r == null <==> forall e :: e in clinicians ==> e.clinicianID != id
      ensures r != null ==> exists k :: 0 <= k < |clinicians| && clinicians[k] == r && r.clinicianID == id &&
                                  forall j :: 0 <= j < k ==> clinicians[j].clinicianID != id
    {
      var k := Store.FirstIndex(ClinicianIds(clinicians), id);
      if k < |clinicians| then clinicians[k] else null
    }

    /** `loadFacilities` on the lines of a file: each record read becomes a new facility, appended in line order. */
    method LoadFacilities(lines: seq<string>)
      modifies this`facilities
      ensures |facilities| == old(|facilities|) + |Ingest.Records(lines, FacilityArity)|
      ensures facilities[..old(|facilities|)] == old(facilities)
      ensures forall k :: old(|facilities|) <= k < |facilities| ==>
        fresh(facilities[k]) && FacilityFrom(facilities[k], Ingest.Records(lines, FacilityArity)[k - old(|facilities|)])
    {
      var rows := Ingest.ReadRows(lines, FacilityArity);
      var added := NewFacilities(rows);
      facilities := facilities + added;
    }

    /** `addFacility`: append at the end. */
    method AddFacility(e: Facility)
      modifies this`facilities
      ensures facilities == old(facilities) + [e]
    {
      facilities := facilities + [e];
    }

    /** `deleteFacility`: remove every facility with the given ID, keeping the others in order;
        report whether anything was removed. */
    method DeleteFacility(id: string) returns (removed: bool)
      modifies this`facilities
      ensures facilities == Store.Survivors(old(facilities), old(FacilityIds(facilities)), id)
      ensures removed <==> |facilities| < old(|facilities|)
      ensures removed <==> old(exists k :: 0 <= k < |facilities| && facilities[k].facilityID == id)
      ensures forall e :: e in facilities ==> e.facilityID != id
    {
      var ids := FacilityIds(facilities);
      ghost var before := facilities;
      removed := id in ids;
      facilities := Store.Survivors(facilities, ids, id);
      assert removed <==> |facilities| < |before| by {
        Store.Removed(before, ids, id);
      }
      assert forall e :: e in facilities ==> e.facilityID != id by {
        Store.SurvivorOrigin(before, ids, id);
      }
    }

    /** `findFacility`: the first facility in list order with the given ID, or null when none has it. */
    function FindFacility(id: string): (r: Facility?)
      reads this, facilities
      ensures r == null <==> forall e :: e in facilities ==> e.facilityID != id
      ensures r != null ==> exists k :: 0 <= k < |facilities| && facilities[k] == r && r.facilityID == id &&
                                  forall j :: 0 <= j < k ==> facilities[j].facilityID != id
    {
      var k := Store.FirstIndex(FacilityIds(facilities), id);
      if k < |facilities| then facilities[k] else null
    }

    /** `loadAppointments` on the lines of a file: each record read becomes a new appointment, appended in line order. */
    method LoadAppointments(lines: seq<string>)
      modifies this`appointments
      ensures |appointments| == old(|appointments|) + |Ingest.Records(lines, AppointmentArity)|
      ensures appointments[..old(|appointments|)] == old(appointments)
      ensures forall k :: old(|appointments|) <= k < |appointments| ==>
        fresh(appointments[k]) && AppointmentFrom(appointments[k], Ingest.Records(lines, AppointmentArity)[k - old(|appointments|)])
    {
      var rows := Ingest.ReadRows(lines, AppointmentArity);
      var added := NewAppointments(rows);
      appointments := appointments + added;
    }

    /** `addAppointment`: append at the end. */
    method AddAppointment(e: Appointment)
      modifies this`appointments
      ensures appointments == old(appointments) + [e]
    {
      appointments := appointments + [e];
    }

    /** `deleteAppointment`: remove every appointment with the given ID, keeping the others in order;
        report whether anything was removed. */
    method DeleteAppointment(id: string) returns (removed: bool)
      modifies this`appointments
      ensures appointments == Store.Survivors(old(appointments), old(AppointmentIds(appointments)), id)
      ensures removed <==> |appointments| < old(|appointments|)
      ensures removed <==> old(exists k :: 0 <= k < |appointments| && appointments[k].appointmentID == id)
      ensures forall e :: e in appointments ==> e.appointmentID != id
    {
      var ids := AppointmentIds(appointments);
      ghost var before := appointments;
      removed := id in ids;
      appointments := Store.Survivors(appointments, ids, id);
      assert removed <==> |appointments| < |before| by {
        Store.Removed(before, ids, id);
      }
      assert forall e :: e in appointments ==> e.appointmentID != id by {
        Store.SurvivorOrigin(before, ids, id);
      }
    }

    /** `loadPrescriptions` on the lines of a file: each record read becomes a new prescription, appended in line order. */
    method LoadPrescriptions(lines: seq<string>)
      modifies this`prescriptions
      ensures |prescriptions| == old(|prescriptions|) + |Ingest.Records(lines, PrescriptionArity)|
      ensures prescriptions[..old(|prescriptions|)] == old(prescriptions)
      ensures forall k :: old(|prescriptions|) <= k < |prescriptions| ==>
        fresh(prescriptions[k]) && PrescriptionFrom(prescriptions[k], Ingest.Records(lines, PrescriptionArity)[k - old(|prescriptions|)])
    {
      var rows := Ingest.ReadRows(lines, PrescriptionArity);
      var added := NewPrescriptions(rows);
      prescriptions := prescriptions + added;
    }

    /** `addPrescription`: append at the end. */
    method AddPrescription(e: Prescription)
      modifies this`prescriptions
      ensures prescriptions == old(prescriptions) + [e]
    {
      prescriptions := prescriptions + [e];
    }

    /** `deletePrescription`: remove every prescription with the given ID, keeping the others in order;
        report whether anything was removed. */
    method DeletePrescription(id: string) returns (removed: bool)
      modifies this`prescriptions
      ensures prescriptions == Store.Survivors(old(prescriptions), old(PrescriptionIds(prescriptions)), id)
      ensures removed <==> |prescriptions| < old(|prescriptions|)
      ensures removed <==> old(exists k :: 0 <= k < |prescriptions| && prescriptions[k].prescriptionID == id)
      ensures forall e :: e in prescriptions ==> e.prescriptionID != id
    {
      var ids := PrescriptionIds(prescriptions);
      ghost var before := prescriptions;
      removed := id in ids;
      prescriptions := Store.Survivors(prescriptions, ids, id);
      assert removed <==> |prescriptions| < |before| by {
        Store.Removed(before, ids, id);
      }
      assert forall e :: e in prescriptions ==> e.prescriptionID != id by {
        Store.SurvivorOrigin(before, ids, id);
      }
    }

    /** `loadReferrals` on the lines of a file: each record read becomes a new referral, appended in line order. */
    method LoadReferrals(lines: seq<string>)
      modifies this`referrals
      ensures |referrals| == old(|referrals|) + |Ingest.Records(lines, ReferralArity)|
      ensures referrals[..old(|referrals|)] == old(referrals)
      ensures forall k :: old(|referrals|) <= k < |referrals| ==>
        fresh(referrals[k]) && ReferralFrom(referrals[k], Ingest.Records(lines, ReferralArity)[k - old(|referrals|)])
    {
      var rows := Ingest.ReadRows(lines, ReferralArity);
      var added := NewReferrals(rows);
      referrals := referrals + added;
    }

    /** `addReferral`: append at the end. */
    method AddReferral(e: Referral)
      modifies this`referrals
      ensures referrals == old(referrals) + [e]
    {
      referrals := referrals + [e];
    }

    /** `deleteReferral`: remove every referral with the given ID, keeping the others in order;
        report whether anything was removed. */
    method DeleteReferral(id: string) returns (removed: bool)
      modifies this`referrals
      ensures referrals == Store.Survivors(old(referrals), old(ReferralIds(referrals)), id)
      ensures removed <==> |referrals| < old(|referrals|)
      ensures removed <==> old(exists k :: 0 <= k < |referrals| && referrals[k].referralID == id)
      ensures forall e :: e in referrals ==> e.referralID != id
    {
      var ids := ReferralIds(referrals);
      ghost var before := referrals;
      removed := id in ids;
      referrals := Store.Survivors(referrals, ids, id);
      assert removed <==> |referrals| < |before| by {
        Store.Removed(before, ids, id);
      }
      assert forall e :: e in referrals ==> e.referralID != id by {
        Store.SurvivorOrigin(before, ids, id);
      }
    }

    /** `loadStaff` on the lines of a file: each record read becomes a new staff, appended in line order. */
    method LoadStaff(lines: seq<string>)
      modifies this`staff
      ensures |staff| == old(|staff|) + |Ingest.Records(lines, StaffArity)|
      ensures staff[..old(|staff|)] == old(staff)
      ensures forall k :: old(|staff|) <= k < |staff| ==>
        fresh(staff[k]) && StaffFrom(staff[k], Ingest.Records(lines, StaffArity)[k - old(|staff|)])
    {
      var rows := Ingest.ReadRows(lines, StaffArity);
      var added := NewStaff(rows);
      staff := staff + added;
    }

    /** `addStaff`: append at the end. */
    method AddStaff(e: Staff)
      modifies this`staff
      ensures staff == old(staff) + [e]
    {
      staff := staff + [e];
    }

    /** `deleteStaff`: remove every staff with the given ID, keeping the others in order;
        report whether anything was removed. */
    method DeleteStaff(id: string) returns (removed: bool)
      modifies this`staff
      ensures staff == Store.Survivors(old(staff), old(StaffIds(staff)), id)
      ensures removed <==> |staff| < old(|staff|)
      ensures removed <==> old(exists k :: 0 <= k < |staff| && staff[k].staffID == id)
      ensures forall e :: e in staff ==> e.staffID != id
    {
      var ids := StaffIds(staff);
      ghost var before := staff;
      removed := id in ids;
      staff := Store.Survivors(staff, ids, id);
      assert removed <==> |staff| < |before| by {
        Store.Removed(before, ids, id);
      }
      assert forall e :: e in staff ==> e.staffID != id by {
        Store.SurvivorOrigin(before, ids, id);
      }
    }
  }
}
