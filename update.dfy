/** The panels' "update" action: delete every entity carrying the selected ID, then add the
    entity built from the form. There is no update operation in the data manager itself. */
module Panels {
  import opened Model
  import opened Data
  import Store

  /** Update of a patient: the survivors of the delete, in their order, followed by `e`. */
  method UpdatePatient(dm: DataManager, id: string, e: Patient)
    modifies dm`patients
    ensures dm.patients == Store.Survivors(old(dm.patients), old(PatientIds(dm.patients)), id) + [e]
    ensures forall x :: x in dm.patients && x != e ==> x.patientID != id
    ensures e.patientID == id ==> dm.FindPatient(id) == e
  {
    var _ := dm.DeletePatient(id);
    dm.AddPatient(e);
  }

  /** Update of a clinician: the survivors of the delete, in their order, followed by `e`. */
  method UpdateClinician(dm: DataManager, id: string, e: Clinician)
    modifies dm`clinicians
    ensures dm.clinicians == Store.Survivors(old(dm.clinicians), old(ClinicianIds(dm.clinicians)), id) + [e]
    ensures forall x :: x in dm.clinicians && x != e ==> x.clinicianID != id
    ensures e.clinicianID == id ==> dm.FindClinician(id) == e
  {
    var _ := dm.DeleteClinician(id);
    dm.AddClinician(e);
  }

  /** Update of a facility: the survivors of the delete, in their order, followed by `e`. */
  method UpdateFacility(dm: DataManager, id: string, e: Facility)
    modifies dm`facilities
    ensures dm.facilities == Store.Survivors(old(dm.facilities), old(FacilityIds(dm.facilities)), id) + [e]
    ensures forall x :: x in dm.facilities && x != e ==> x.facilityID != id
    ensures e.facilityID == id ==> dm.FindFacility(id) == e
  {
    var _ := dm.DeleteFacility(id);
    dm.AddFacility(e);
  }

  /** Update of an appointment: the survivors of the delete, in their order, followed by `e`. */
  method UpdateAppointment(dm: DataManager, id: string, e: Appointment)
    modifies dm`appointments
    ensures dm.appointments == Store.Survivors(old(dm.appointments), old(AppointmentIds(dm.appointments)), id) + [e]
    ensures forall x :: x in dm.appointments && x != e ==> x.appointmentID != id
  {
    var _ := dm.DeleteAppointment(id);
    dm.AddAppointment(e);
  }

  /** Update of a prescription: the survivors of the delete, in their order, followed by `e`. */
  method UpdatePrescription(dm: DataManager, id: string, e: Prescription)
    modifies dm`prescriptions
    ensures dm.prescriptions == Store.Survivors(old(dm.prescriptions), old(PrescriptionIds(dm.prescriptions)), id) + [e]
    ensures forall x :: x in dm.prescriptions && x != e ==> x.prescriptionID != id
  {
    var _ := dm.DeletePrescription(id);
    dm.AddPrescription(e);
  }

  /** Update of a referral: the survivors of the delete, in their order, followed by `e`. */
  method UpdateReferral(dm: DataManager, id: string, e: Referral)
    modifies dm`referrals
    ensures dm.referrals == Store.Survivors(old(dm.referrals), old(ReferralIds(dm.referrals)), id) + [e]
    ensures forall x :: x in dm.referrals && x != e ==> x.referralID != id
  {
    var _ := dm.DeleteReferral(id);
    dm.AddReferral(e);
  }

  /** Update of a staff member: the survivors of the delete, in their order, followed by `e`. */
  method UpdateStaff(dm: DataManager, id: string, e: Staff)
    modifies dm`staff
    ensures dm.staff == Store.Survivors(old(dm.staff), old(StaffIds(dm.staff)), id) + [e]
    ensures forall x :: x in dm.staff && x != e ==> x.staffID != id
  {
    var _ := dm.DeleteStaff(id);
    dm.AddStaff(e);
  }
}
