/** The entity records: mutable objects with a positional constructor, one setter per field
    and a display label. A field is read directly, which is what each getter does. */
module Model {

  /** A patient. Its source file is not part of this model; the fields are the ones the loader passes, in that order. */
  class Patient {
    var patientID: string
    var firstName: string
    var lastName: string
    var dateOfBirth: string
    var gender: string
    var nhsNumber: string
    var email: string
    var phone: string
    var address: string
    var gpSurgery: string

    /** The 10 attributes in constructor (and file column) order. */
    function Fields(): seq<string>
      reads this
    {
      [patientID, firstName, lastName, dateOfBirth, gender, nhsNumber, email, phone, address, gpSurgery]
    }

    /** Stores argument i in the i-th field. */
    constructor (patientID: string, firstName: string, lastName: string, dateOfBirth: string, gender: string, nhsNumber: string, email: string, phone: string, address: string, gpSurgery: string)
      ensures Fields() == [patientID, firstName, lastName, dateOfBirth, gender, nhsNumber, email, phone, address, gpSurgery]
    {
      this.patientID := patientID;
      this.firstName := firstName;
      this.lastName := lastName;
      this.dateOfBirth := dateOfBirth;
      this.gender := gender;
      this.nhsNumber := nhsNumber;
      this.email := email;
      this.phone := phone;
      this.address := address;
      this.gpSurgery := gpSurgery;
    }
  }

  /** A clinician record. */
  class Clinician {
    var clinicianID: string
    var firstName: string
    var lastName: string
    var qualification: string
    var specialty: string
    var workplace: string
    var email: string
    var phone: string

    /** The 8 attributes in constructor (and file column) order. */
    function Fields(): seq<string>
      reads this
    {
      [clinicianID, firstName, lastName, qualification, specialty, workplace, email, phone]
    }

    /** Stores argument i in the i-th field. */
    constructor (clinicianID: string, firstName: string, lastName: string, qualification: string, specialty: string, workplace: string, email: string, phone: string)
      ensures Fields() == [clinicianID, firstName, lastName, qualification, specialty, workplace, email, phone]
    {
      this.clinicianID := clinicianID;
      this.firstName := firstName;
      this.lastName := lastName;
      this.qualification := qualification;
      this.specialty := specialty;
      this.workplace := workplace;
      this.email := email;
      this.phone := phone;
    }

    method SetClinicianID(clinicianID: string)
      modifies this`clinicianID
      ensures Fields() == old(Fields())[0 := clinicianID]
    {
      this.clinicianID := clinicianID;
    }

    method SetFirstName(firstName: string)
      modifies this`firstName
      ensures Fields() == old(Fields())[1 := firstName]
    {
      this.firstName := firstName;
    }

    method SetLastName(lastName: string)
      modifies this`lastName
      ensures Fields() == old(Fields())[2 := lastName]
    {
      this.lastName := lastName;
    }

    method SetQualification(qualification: string)
      modifies this`qualification
      ensures Fields() == old(Fields())[3 := qualification]
    {
      this.qualification := qualification;
    }

    method SetSpecialty(specialty: string)
      modifies this`specialty
      ensures Fields() == old(Fields())[4 := specialty]
    {
      this.specialty := specialty;
    }

    method SetWorkplace(workplace: string)
      modifies this`workplace
      ensures Fields() == old(Fields())[5 := workplace]
    {
      this.workplace := workplace;
    }

    method SetEmail(email: string)
      modifies this`email
      ensures Fields() == old(Fields())[6 := email]
    {
      this.email := email;
    }

    method SetPhone(phone: string)
      modifies this`phone
      ensures Fields() == old(Fields())[7 := phone]
    {
      this.phone := phone;
    }

    /** `toString`: the label shown in lists; the contract places each attribute and separator at its offset. */
    function ToString(): (r: string)
      reads this
      ensures var a := |firstName|; var b := a + 1; var c := b + |lastName|; var d := c + 3; var e := d + |specialty|; var f := e + 2; var g := f + |clinicianID|; var h := g + 1;
        |r| == h &&
        r[..a] == firstName &&
        r[a..b] == " " &&
        r[b..c] == lastName &&
        r[c..d] == " - " &&
        r[d..e] == specialty &&
        r[e..f] == " (" &&
        r[f..g] == clinicianID &&
        r[g..h] == ")"
    {
      firstName + " " + lastName + " - " + specialty + " (" + clinicianID + ")"
    }
  }

  /** A facility record. */
  class Facility {
    var facilityID: string
    var name: string
    var facilityType: string
    var address: string
    var phone: string
    var email: string
    var services: string
    var capacity: string

    /** The 8 attributes in constructor (and file column) order. */
    function Fields(): seq<string>
      reads this
    {
      [facilityID, name, facilityType, address, phone, email, services, capacity]
    }

    /** Stores argument i in the i-th field. */
    constructor (facilityID: string, name: string, facilityType: string, address: string, phone: string, email: string, services: string, capacity: string)
      ensures Fields() == [facilityID, name, facilityType, address, phone, email, services, capacity]
    {
      this.facilityID := facilityID;
      this.name := name;
      this.facilityType := facilityType;
      this.address := address;
      this.phone := phone;
      this.email := email;
      this.services := services;
      this.capacity := capacity;
    }

    method SetFacilityID(facilityID: string)
      modifies this`facilityID
      ensures Fields() == old(Fields())[0 := facilityID]
    {
      this.facilityID := facilityID;
    }

    method SetName(name: string)
      modifies this`name
      ensures Fields() == old(Fields())[1 := name]
    {
      this.name := name;
    }

    method SetType(facilityType: string)
      modifies this`facilityType
      ensures Fields() == old(Fields())[2 := facilityType]
    {
      this.facilityType := facilityType;
    }

    method SetAddress(address: string)
      modifies this`address
      ensures Fields() == old(Fields())[3 := address]
    {
      this.address := address;
    }

    method SetPhone(phone: string)
      modifies this`phone
      ensures Fields() == old(Fields())[4 := phone]
    {
      this.phone := phone;
    }

    method SetEmail(email: string)
      modifies this`email
      ensures Fields() == old(Fields())[5 := email]
    {
      this.email := email;
    }

    method SetServices(services: string)
      modifies this`services
      ensures Fields() == old(Fields())[6 := services]
    {
      this.services := services;
    }

    method SetCapacity(capacity: string)
      modifies this`capacity
      ensures Fields() == old(Fields())[7 := capacity]
    {
      this.capacity := capacity;
    }

    /** `toString`: the label shown in lists; the contract places each attribute and separator at its offset. */
    function ToString(): (r: string)
      reads this
      ensures var a := |name|; var b := a + 2; var c := b + |facilityID|; var d := c + 1;
        |r| == d &&
        r[..a] == name &&
        r[a..b] == " (" &&
        r[b..c] == facilityID &&
        r[c..d] == ")"
    {
      name + " (" + facilityID + ")"
    }
  }

  /** An appointment record. */
  class Appointment {
    var appointmentID: string
    var patientID: string
    var clinicianID: string
    var facilityID: string
    var date: string
    var time: string
    var status: string
    var reason: string
    var notes: string

    /** The 9 attributes in constructor (and file column) order. */
    function Fields(): seq<string>
      reads this
    {
      [appointmentID, patientID, clinicianID, facilityID, date, time, status, reason, notes]
    }

    /** Stores argument i in the i-th field. */
    constructor (appointmentID: string, patientID: string, clinicianID: string, facilityID: string, date: string, time: string, status: string, reason: string, notes: string)
      ensures Fields() == [appointmentID, patientID, clinicianID, facilityID, date, time, status, reason, notes]
    {
      this.appointmentID := appointmentID;
      this.patientID := patientID;
      this.clinicianID := clinicianID;
      this.facilityID := facilityID;
      this.date := date;
      this.time := time;
      this.status := status;
      this.reason := reason;
      this.notes := notes;
    }

    method SetAppointmentID(appointmentID: string)
      modifies this`appointmentID
      ensures Fields() == old(Fields())[0 := appointmentID]
    {
      this.appointmentID := appointmentID;
    }

    method SetPatientID(patientID: string)
      modifies this`patientID
      ensures Fields() == old(Fields())[1 := patientID]
    {
      this.patientID := patientID;
    }

    method SetClinicianID(clinicianID: string)
      modifies this`clinicianID
      ensures Fields() == old(Fields())[2 := clinicianID]
    {
      this.clinicianID := clinicianID;
    }

    method SetFacilityID(facilityID: string)
      modifies this`facilityID
      ensures Fields() == old(Fields())[3 := facilityID]
    {
      this.facilityID := facilityID;
    }

    method SetDate(date: string)
      modifies this`date
      ensures Fields() == old(Fields())[4 := date]
    {
      this.date := date;
    }

    method SetTime(time: string)
      modifies this`time
      ensures Fields() == old(Fields())[5 := time]
    {
      this.time := time;
    }

    method SetStatus(status: string)
      modifies this`status
      ensures Fields() == old(Fields())[6 := status]
    {
      this.status := status;
    }

    method SetReason(reason: string)
      modifies this`reason
      ensures Fields() == old(Fields())[7 := reason]
    {
      this.reason := reason;
    }

    method SetNotes(notes: string)
      modifies this`notes
      ensures Fields() == old(Fields())[8 := notes]
    {
      this.notes := notes;
    }

    /** `toString`: the label shown in lists; the contract places each attribute and separator at its offset. */
    function ToString(): (r: string)
      reads this
      ensures var a := |appointmentID|; var b := a + 3; var c := b + |date|; var d := c + 1; var e := d + |time|; var f := e + 2; var g := f + |status|; var h := g + 1;
        |r| == h &&
        r[..a] == appointmentID &&
        r[a..b] == " - " &&
        r[b..c] == date &&
        r[c..d] == " " &&
        r[d..e] == time &&
        r[e..f] == " (" &&
        r[f..g] == status &&
        r[g..h] == ")"
    {
      appointmentID + " - " + date + " " + time + " (" + status + ")"
    }
  }

  /** A prescription record. */
  class Prescription {
    var prescriptionID: string
    var patientID: string
    var clinicianID: string
    var medication: string
    var dosage: string
    var quantity: string
    var pharmacy: string
    var datePrescribed: string
    var collectionStatus: string
    var notes: string

    /** The 10 attributes in constructor (and file column) order. */
    function Fields(): seq<string>
      reads this
    {
      [prescriptionID, patientID, clinicianID, medication, dosage, quantity, pharmacy, datePrescribed, collectionStatus, notes]
    }

    /** Stores argument i in the i-th field. */
    constructor (prescriptionID: string, patientID: string, clinicianID: string, medication: string, dosage: string, quantity: string, pharmacy: string, datePrescribed: string, collectionStatus: string, notes: string)
      ensures Fields() == [prescriptionID, patientID, clinicianID, medication, dosage, quantity, pharmacy, datePrescribed, collectionStatus, notes]
    {
      this.prescriptionID := prescriptionID;
      this.patientID := patientID;
      this.clinicianID := clinicianID;
      this.medication := medication;
      this.dosage := dosage;
      this.quantity := quantity;
      this.pharmacy := pharmacy;
      this.datePrescribed := datePrescribed;
      this.collectionStatus := collectionStatus;
      this.notes := notes;
    }

    method SetPrescriptionID(prescriptionID: string)
      modifies this`prescriptionID
      ensures Fields() == old(Fields())[0 := prescriptionID]
    {
      this.prescriptionID := prescriptionID;
    }

    method SetPatientID(patientID: string)
      modifies this`patientID
      ensures Fields() == old(Fields())[1 := patientID]
    {
      this.patientID := patientID;
    }

    method SetClinicianID(clinicianID: string)
      modifies this`clinicianID
      ensures Fields() == old(Fields())[2 := clinicianID]
    {
      this.clinicianID := clinicianID;
    }

    method SetMedication(medication: string)
      modifies this`medication
      ensures Fields() == old(Fields())[3 := medication]
    {
      this.medication := medication;
    }

    method SetDosage(dosage: string)
      modifies this`dosage
      ensures Fields() == old(Fields())[4 := dosage]
    {
      this.dosage := dosage;
    }

    method SetQuantity(quantity: string)
      modifies this`quantity
      ensures Fields() == old(Fields())[5 := quantity]
    {
      this.quantity := quantity;
    }

    method SetPharmacy(pharmacy: string)
      modifies this`pharmacy
      ensures Fields() == old(Fields())[6 := pharmacy]
    {
      this.pharmacy := pharmacy;
    }

    method SetDatePrescribed(datePrescribed: string)
      modifies this`datePrescribed
      ensures Fields() == old(Fields())[7 := datePrescribed]
    {
      this.datePrescribed := datePrescribed;
    }

    method SetCollectionStatus(collectionStatus: string)
      modifies this`collectionStatus
      ensures Fields() == old(Fields())[8 := collectionStatus]
    {
      this.collectionStatus := collectionStatus;
    }

    method SetNotes(notes: string)
      modifies this`notes
      ensures Fields() == old(Fields())[9 := notes]
    {
      this.notes := notes;
    }

    /** `toString`: the label shown in lists; the contract places each attribute and separator at its offset. */
    function ToString(): (r: string)
      reads this
      ensures var a := |prescriptionID|; var b := a + 3; var c := b + |medication|; var d := c + 2; var e := d + |datePrescribed|; var f := e + 1;
        |r| == f &&
        r[..a] == prescriptionID &&
        r[a..b] == " - " &&
        r[b..c] == medication &&
        r[c..d] == " (" &&
        r[d..e] == datePrescribed &&
        r[e..f] == ")"
    {
      prescriptionID + " - " + medication + " (" + datePrescribed + ")"
    }
  }

  /** A referral record. */
  class Referral {
    var referralID: string
    var patientID: string
    var referringClinicianID: string
    var receivingClinicianID: string
    var referringFacility: string
    var receivingFacility: string
    var date: string
    var urgency: string
    var clinicalSummary: string
    var status: string

    /** The 10 attributes in constructor (and file column) order. */
    function Fields(): seq<string>
      reads this
    {
      [referralID, patientID, referringClinicianID, receivingClinicianID, referringFacility, receivingFacility, date, urgency, clinicalSummary, status]
    }

    /** Stores argument i in the i-th field. */
    constructor (referralID: string, patientID: string, referringClinicianID: string, receivingClinicianID: string, referringFacility: string, receivingFacility: string, date: string, urgency: string, clinicalSummary: string, status: string)
      ensures Fields() == [referralID, patientID, referringClinicianID, receivingClinicianID, referringFacility, receivingFacility, date, urgency, clinicalSummary, status]
    {
      this.referralID := referralID;
      this.patientID := patientID;
      this.referringClinicianID := referringClinicianID;
      this.receivingClinicianID := receivingClinicianID;
      this.referringFacility := referringFacility;
      this.receivingFacility := receivingFacility;
      this.date := date;
      this.urgency := urgency;
      this.clinicalSummary := clinicalSummary;
      this.status := status;
    }

    method SetReferralID(referralID: string)
      modifies this`referralID
      ensures Fields() == old(Fields())[0 := referralID]
    {
      this.referralID := referralID;
    }

    method SetPatientID(patientID: string)
      modifies this`patientID
      ensures Fields() == old(Fields())[1 := patientID]
    {
      this.patientID := patientID;
    }

    method SetReferringClinicianID(referringClinicianID: string)
      modifies this`referringClinicianID
      ensures Fields() == old(Fields())[2 := referringClinicianID]
    {
      this.referringClinicianID := referringClinicianID;
    }

    method SetReceivingClinicianID(receivingClinicianID: string)
      modifies this`receivingClinicianID
      ensures Fields() == old(Fields())[3 := receivingClinicianID]
    {
      this.receivingClinicianID := receivingClinicianID;
    }

    method SetReferringFacility(referringFacility: string)
      modifies this`referringFacility
      ensures Fields() == old(Fields())[4 := referringFacility]
    {
      this.referringFacility := referringFacility;
    }

    method SetReceivingFacility(receivingFacility: string)
      modifies this`receivingFacility
      ensures Fields() == old(Fields())[5 := receivingFacility]
    {
      this.receivingFacility := receivingFacility;
    }

    method SetDate(date: string)
      modifies this`date
      ensures Fields() == old(Fields())[6 := date]
    {
      this.date := date;
    }

    method SetUrgency(urgency: string)
      modifies this`urgency
      ensures Fields() == old(Fields())[7 := urgency]
    {
      this.urgency := urgency;
    }

    method SetClinicalSummary(clinicalSummary: string)
      modifies this`clinicalSummary
      ensures Fields() == old(Fields())[8 := clinicalSummary]
    {
      this.clinicalSummary := clinicalSummary;
    }

    method SetStatus(status: string)
      modifies this`status
      ensures Fields() == old(Fields())[9 := status]
    {
      this.status := status;
    }

    /** `toString`: the label shown in lists; the contract places each attribute and separator at its offset. */
    function ToString(): (r: string)
      reads this
      ensures var a := |referralID|; var b := a + 3; var c := b + |date|; var d := c + 2; var e := d + |urgency|; var f := e + 1;
        |r| == f &&
        r[..a] == referralID &&
        r[a..b] == " - " &&
        r[b..c] == date &&
        r[c..d] == " (" &&
        r[d..e] == urgency &&
        r[e..f] == ")"
    {
      referralID + " - " + date + " (" + urgency + ")"
    }
  }

  /** A non-clinical staff record. */
  class Staff {
    var staffID: string
    var firstName: string
    var lastName: string
    var role: string
    var facilityID: string
    var email: string
    var phone: string

    /** The 7 attributes in constructor (and file column) order. */
    function Fields(): seq<string>
      reads this
    {
      [staffID, firstName, lastName, role, facilityID, email, phone]
    }

    /** Stores argument i in the i-th field. */
    constructor (staffID: string, firstName: string, lastName: string, role: string, facilityID: string, email: string, phone: string)
      ensures Fields() == [staffID, firstName, lastName, role, facilityID, email, phone]
    {
      this.staffID := staffID;
      this.firstName := firstName;
      this.lastName := lastName;
      this.role := role;
      this.facilityID := facilityID;
      this.email := email;
      this.phone := phone;
    }

    method SetStaffID(staffID: string)
      modifies this`staffID
      ensures Fields() == old(Fields())[0 := staffID]
    {
      this.staffID := staffID;
    }

    method SetFirstName(firstName: string)
      modifies this`firstName
      ensures Fields() == old(Fields())[1 := firstName]
    {
      this.firstName := firstName;
    }

    method SetLastName(lastName: string)
      modifies this`lastName
      ensures Fields() == old(Fields())[2 := lastName]
    {
      this.lastName := lastName;
    }

    method SetRole(role: string)
      modifies this`role
      ensures Fields() == old(Fields())[3 := role]
    {
      this.role := role;
    }

    method SetFacilityID(facilityID: string)
      modifies this`facilityID
      ensures Fields() == old(Fields())[4 := facilityID]
    {
      this.facilityID := facilityID;
    }

    method SetEmail(email: string)
      modifies this`email
      ensures Fields() == old(Fields())[5 := email]
    {
      this.email := email;
    }

    method SetPhone(phone: string)
      modifies this`phone
      ensures Fields() == old(Fields())[6 := phone]
    {
      this.phone := phone;
    }

    /** `toString`: the label shown in lists; the contract places each attribute and separator at its offset. */
    function ToString(): (r: string)
      reads this
      ensures var a := |firstName|; var b := a + 1; var c := b + |lastName|; var d := c + 3; var e := d + |role|; var f := e + 2; var g := f + |staffID|; var h := g + 1;
        |r| == h &&
        r[..a] == firstName &&
        r[a..b] == " " &&
        r[b..c] == lastName &&
        r[c..d] == " - " &&
        r[d..e] == role &&
        r[e..f] == " (" &&
        r[f..g] == staffID &&
        r[g..h] == ")"
    {
      firstName + " " + lastName + " - " + role + " (" + staffID + ")"
    }
  }
}
