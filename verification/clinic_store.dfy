/**
 * The coordinator's in-memory database of backend/main.py and the handlers
 * that read and update it. MEDICINES, USERS, APPOINTMENTS, MEDICINE_SALES and
 * DOCTOR_RATINGS are fields of one `Store`; `_id_counter`, shared by users and
 * appointments, is `nextId`, the value its next `next()` yields. Each handler is
 * one sequential step (the lock is not modelled), and its answer is an
 * `Outcome`: SUCCESS with its payload, FAILED with a message, or the HTTP error
 * the handler raises.
 */
module ClinicStore {

  import opened Wrappers
  import opened Seqs
  import opened Text
  import opened Records
  import opened StoreSpec
  import opened SalesSpec
  import opened ConsultRules

  datatype Outcome<T> =
    | Success(value: T)            // {"status": "SUCCESS", ...}
    | Failed(message: string)      // {"status": "FAILED", "message": ...}
    | NotFound(detail: string)     // HTTPException(404, detail)
    | Unauthorized(detail: string) // HTTPException(401, detail)

  /** The answer for a refused purchase: 404 for an unknown id, FAILED for a short stock. */
  function Refused<T>(f: Refusal): (r: Outcome<T>)
    ensures f.UnknownMedicine? ==> r == NotFound("Medicine id " + IntToString(f.id) + " not found")
    ensures f.OutOfStock? ==> r == Failed("Not enough stock of " + f.name)
  {
    match f
    case UnknownMedicine(id) => NotFound("Medicine id " + IntToString(id) + " not found")
    case OutOfStock(name) => Failed("Not enough stock of " + name)
  }

  const InitialMedicines: seq<Medicine> := [
    Medicine(0, "Paracetamol", 10, 20),
    Medicine(1, "Ibuprofen", 5, 30),
    Medicine(2, "Amoxicillin", 7, 50),
    Medicine(3, "Cough Syrup", 8, 40),
    Medicine(4, "Antacid", 15, 25),
    Medicine(5, "Cetirizine", 12, 18),
    Medicine(6, "Metformin", 9, 60),
    Medicine(7, "Aspirin", 20, 22),
    Medicine(8, "Azithromycin", 6, 85),
    Medicine(9, "Vitamin D3", 14, 45),
    Medicine(10, "Multivitamin", 17, 35),
    Medicine(11, "Insulin", 5, 120),
    Medicine(12, "Ciprofloxacin", 7, 70),
    Medicine(13, "Loratadine", 10, 28),
    Medicine(14, "Pantoprazole", 11, 55),
    Medicine(15, "Hydroxychloroquine", 4, 150),
    Medicine(16, "Doxycycline", 8, 90),
    Medicine(17, "Losartan", 10, 65),
    Medicine(18, "Amlodipine", 9, 75),
    Medicine(19, "Omeprazole", 16, 30)
  ]

  const InitialDoctors: seq<Doctor> := [
    Doctor(0, "Dr. Mehta", "General", ["10:00", "11:00", "15:00"]),
    Doctor(1, "Dr. Rao", "Pediatrics", ["09:30", "13:00", "16:00"]),
    Doctor(2, "Dr. Sharma", "Cardiology", ["10:30", "12:00", "14:30"]),
    Doctor(3, "Dr. Kapoor", "Neurology", ["09:00", "11:30", "15:30"]),
    Doctor(4, "Dr. Iyer", "Orthopedics", ["10:15", "13:45", "17:00"]),
    Doctor(5, "Dr. Gupta", "Dermatology", ["09:45", "12:30", "16:15"]),
    Doctor(6, "Dr. Nair", "ENT", ["10:00", "14:00", "15:30"]),
    Doctor(7, "Dr. Singh", "Ophthalmology", ["09:15", "11:45", "14:45"]),
    Doctor(8, "Dr. Bose", "Psychiatry", ["10:40", "13:20", "16:10"]),
    Doctor(9, "Dr. Desai", "Gynecology", ["09:00", "12:15", "15:45"]),
    Doctor(10, "Dr. Kulkarni", "Oncology", ["10:20", "13:10", "16:40"]),
    Doctor(11, "Dr. Banerjee", "Endocrinology", ["09:50", "12:40", "15:20"]),
    Doctor(12, "Dr. Verma", "Gastroenterology", ["10:00", "13:30", "16:00"]),
    Doctor(13, "Dr. Reddy", "Urology", ["09:25", "12:00", "15:50"]),
    Doctor(14, "Dr. Pillai", "Nephrology", ["10:10", "13:50", "17:10"])
  ]

  /** The user row matches the credentials typed at login. */
  predicate Credentials(u: User, username: string, password: string) {
    u.username == username && u.password == password
  }

  /** The appointment's doctor exists and offers the appointment's slot. */
  ghost predicate HeldSlotOffered(doctors: seq<Doctor>, a: Appointment) {
    var d := DoctorIndex(doctors, a.doctorId);
    d.Some? && a.timeSlot in doctors[d.value].availableSlots
  }

  function NameHas(query: string): Medicine -> bool {
    (m: Medicine) => Contains(Lower(m.name), query)
  }

  /** Every medicine's id is its position in the table, which is how the handlers look it up. */
  ghost predicate TableIds(meds: seq<Medicine>) {
    forall i :: 0 <= i < |meds| ==> meds[i].id == i
  }

  /** Every user id was handed out by the counter, which has moved past it. */
  ghost predicate IdsBelow(users: seq<User>, nextId: int) {
    nextId >= 1 && forall u :: u in users ==> 1 <= u.id < nextId
  }

  /**
   * The appointment list as the handlers keep it: ids handed out by the
   * counter in increasing order, each slot offered by its doctor, and no slot
   * of a doctor held twice.
   */
  ghost predicate Schedule(doctors: seq<Doctor>, appts: seq<Appointment>, nextId: int) {
    (forall i, j :: 0 <= i < j < |appts| ==> appts[i].id < appts[j].id) &&
    (forall i :: 0 <= i < |appts| ==> 1 <= appts[i].id < nextId && HeldSlotOffered(doctors, appts[i])) &&
    NoDoubleBooking(appts)
  }

  /** Booking a free, offered slot under the next id keeps the schedule. */
  lemma BookKeepsSchedule(doctors: seq<Doctor>, appts: seq<Appointment>, nextId: int, a: Appointment)
    requires Schedule(doctors, appts, nextId) && nextId >= 1 && a.id == nextId
    requires HeldSlotOffered(doctors, a) && a.timeSlot !in BookedSlots(appts, a.doctorId)
    ensures Schedule(doctors, appts + [a], nextId + 1)
  {
    var b := appts + [a];
    assert forall i :: 0 <= i < |appts| ==> b[i] == appts[i];
    forall i, j | 0 <= i < j < |b| && b[i].doctorId == b[j].doctorId
      ensures b[i].timeSlot != b[j].timeSlot
    {
      if j == |appts| {
        assert b[i] in appts;
      }
    }
  }

  /** Removing appointment `k` keeps the schedule. */
  lemma RemoveKeepsSchedule(doctors: seq<Doctor>, appts: seq<Appointment>, nextId: int, k: nat)
    requires Schedule(doctors, appts, nextId) && k < |appts|
    ensures Schedule(doctors, appts[..k] + appts[k + 1..], nextId)
  {
    var b := appts[..k] + appts[k + 1..];
    assert forall j :: 0 <= j < |b| ==> b[j] == appts[if j < k then j else j + 1];
  }

  /** Removing appointment `k` removes exactly the appointments carrying its id, since ids are distinct. */
  lemma RemoveDropsOnlyThatId(doctors: seq<Doctor>, appts: seq<Appointment>, nextId: int, k: nat)
    requires Schedule(doctors, appts, nextId) && k < |appts|
    ensures forall a :: a in appts[..k] + appts[k + 1..] <==> a in appts && a.id != appts[k].id
  {
    var b := appts[..k] + appts[k + 1..];
    assert forall j :: 0 <= j < |b| ==> b[j] == appts[if j < k then j else j + 1];
    forall a | a in appts && a.id != appts[k].id ensures a in b {
      var j :| 0 <= j < |appts| && appts[j] == a;
      if j < k { assert b[j] == a; } else { assert b[j - 1] == a; }
    }
    forall a | a in b ensures a in appts && a.id != appts[k].id {
      var j :| 0 <= j < |b| && b[j] == a;
    }
  }

  /** Moving appointment `k` to an offered slot its doctor does not hold keeps the schedule. */
  lemma MoveKeepsSchedule(doctors: seq<Doctor>, appts: seq<Appointment>, nextId: int, k: nat, slot: string)
    requires Schedule(doctors, appts, nextId) && k < |appts|
    requires HeldSlotOffered(doctors, appts[k].(timeSlot := slot))
    requires slot !in BookedSlots(appts, appts[k].doctorId)
    ensures Schedule(doctors, appts[k := appts[k].(timeSlot := slot)], nextId)
  {
    var b := appts[k := appts[k].(timeSlot := slot)];
    forall i, j | 0 <= i < j < |b| && b[i].doctorId == b[j].doctorId
      ensures b[i].timeSlot != b[j].timeSlot
    {
      if i == k { assert appts[j] in appts; }
      if j == k { assert appts[i] in appts; }
    }
  }

  /** Writing symptoms and a prescription into appointment `k` keeps the schedule. */
  lemma ConsultKeepsSchedule(doctors: seq<Doctor>, appts: seq<Appointment>, nextId: int, k: nat,
                             symptoms: seq<string>, prescription: seq<Item>)
    requires Schedule(doctors, appts, nextId) && k < |appts|
    ensures Schedule(doctors, appts[k := appts[k].(symptoms := symptoms, prescription := prescription)], nextId)
  {
  }

  /** One more line of the decrement loop: one stock lowered, one sale appended, its price added to the cost. */
  lemma ChargeStep(meds: seq<Medicine>, sales: seq<Sale>, items: seq<Item>, i: nat,
                   cur: seq<Medicine>, sold: seq<Sale>, total: int)
    requires AllInTable(meds, items) && i < |items| && AllInTable(meds, items[..i])
    requires cur == Debit(meds, items[..i]) && sold == sales + SalesFor(meds, items[..i])
    requires total == Cost(meds, items[..i])
    ensures AllInTable(meds, items[..i + 1])
    ensures var id, q := items[i].medicineId, items[i].quantity;
            0 <= id < |cur| &&
            cur[id := cur[id].(stock := cur[id].stock - q)] == Debit(meds, items[..i + 1]) &&
            sold + [Sale(id, q, cur[id].price)] == sales + SalesFor(meds, items[..i + 1]) &&
            total + cur[id].price * q == Cost(meds, items[..i + 1])
  {
    assert items[..i + 1][..i] == items[..i];
  }

  /** The decrement loop keeps ids at their positions and every sale inside the table. */
  lemma ChargeKeepsTables(meds: seq<Medicine>, sales: seq<Sale>, items: seq<Item>)
    requires TableIds(meds) && SalesInTable(meds, sales) && AllInTable(meds, items)
    ensures TableIds(Debit(meds, items))
    ensures SalesInTable(Debit(meds, items), sales + SalesFor(meds, items))
  {
    var s := sales + SalesFor(meds, items);
    assert forall i :: |sales| <= i < |s| ==> s[i] == SalesFor(meds, items)[i - |sales|];
  }

  /** The map stage of `sales_report`: one (name, revenue) pair per sale, in sale order. */
  method MapStage(meds: seq<Medicine>, sales: seq<Sale>) returns (mapped: seq<(string, int)>)
    requires SalesInTable(meds, sales)
    ensures mapped == Mapped(meds, sales)
  {
    mapped := [];
    var i := 0;
    while i < |sales|
      invariant 0 <= i <= |sales|
      invariant mapped == Mapped(meds, sales)[..i]
    {
      var x := sales[i];
      mapped := mapped + [(meds[x.medicineId].name, x.soldQty * x.price)];
      i := i + 1;
    }
  }

  /**
   * The group stage: a `defaultdict(list)` filled pair by pair, given as its
   * keys in insertion order and its map from key to list.
   */
  method GroupStage(mapped: seq<(string, int)>) returns (keys: seq<string>, grouped: map<string, seq<int>>)
    ensures keys == Keys(mapped)
    ensures forall k :: k in grouped <==> k in keys
    ensures forall k :: k in grouped ==> grouped[k] == ValuesOf(mapped, k)
  {
    keys, grouped := [], map[];
    var i := 0;
    while i < |mapped|
      invariant 0 <= i <= |mapped|
      invariant keys == Keys(mapped[..i])
      invariant forall k :: k in grouped <==> k in keys
      invariant forall k :: k in grouped ==> grouped[k] == ValuesOf(mapped[..i], k)
    {
      var (key, value) := mapped[i];
      ghost var prefix := mapped[..i + 1];
      assert prefix[..i] == mapped[..i];
      KeysSnoc(prefix);
      if key in grouped {
        grouped := grouped[key := grouped[key] + [value]];
      } else {
        ValuesOfAbsent(mapped[..i], key);
        keys := keys + [key];
        grouped := grouped[key := [value]];
      }
      i := i + 1;
    }
    assert mapped[..i] == mapped;
  }

  /** The reduce stage: each key, in insertion order, with the sum of its list. */
  method ReduceStage(mapped: seq<(string, int)>, keys: seq<string>, grouped: map<string, seq<int>>)
    returns (reduced: seq<(string, int)>)
    requires keys == Keys(mapped)
    requires forall k :: k in keys ==> k in grouped && grouped[k] == ValuesOf(mapped, k)
    ensures reduced == Reduce(mapped)
  {
    reduced := [];
    var j := 0;
    while j < |keys|
      invariant 0 <= j <= |keys|
      invariant reduced == Reduce(mapped)[..j]
    {
      reduced := reduced + [(keys[j], Sum(grouped[keys[j]]))];
      j := j + 1;
    }
  }

  class Store {
    var medicines: seq<Medicine>
    var users: seq<User>
    var appointments: seq<Appointment>
    var sales: seq<Sale>
    var ratings: map<int, seq<int>>
    var nextId: int
    const doctors: seq<Doctor>

    /** The invariant every handler keeps. */
    ghost predicate Valid()
      reads this
    {
      TableIds(medicines) && IdsBelow(users, nextId) &&
      Schedule(doctors, appointments, nextId) && SalesInTable(medicines, sales)
    }

    /** The tables as the server starts: the fixed catalogue and doctors, nothing else. */
    constructor ()
      ensures Valid()
      ensures medicines == InitialMedicines && doctors == InitialDoctors
      ensures users == [] && appointments == [] && sales == [] && ratings == map[] && nextId == 1
    {
      medicines := InitialMedicines;
      doctors := InitialDoctors;
      users := [];
      appointments := [];
      sales := [];
      ratings := map[];
      nextId := 1;
    }

    /** `signup`: a new user row under the next id; usernames are not checked for uniqueness. */
    method Signup(username: string, password: string) returns (r: Outcome<int>)
      requires Valid()
      modifies this
      ensures Valid()
      ensures r == Success(old(nextId)) && nextId == old(nextId) + 1
      ensures users == old(users) + [User(old(nextId), username, password)]
      ensures medicines == old(medicines) && appointments == old(appointments)
      ensures sales == old(sales) && ratings == old(ratings)
    {
      r := Success(nextId);
      users := users + [User(nextId, username, password)];
      nextId := nextId + 1;
    }

    /** `login`: the id of the first user whose username and password both match, else 401. */
    method Login(username: string, password: string) returns (r: Outcome<int>)
      ensures r.Success? || r == Unauthorized("Invalid credentials")
      ensures r.Success? ==> exists i :: 0 <= i < |users| && Credentials(users[i], username, password) &&
                               r.value == users[i].id &&
                               forall j :: 0 <= j < i ==> !Credentials(users[j], username, password)
      ensures r.Unauthorized? ==> forall i :: 0 <= i < |users| ==> !Credentials(users[i], username, password)
    {
      var i := 0;
      while i < |users|
        invariant 0 <= i <= |users|
        invariant forall j :: 0 <= j < i ==> !Credentials(users[j], username, password)
      {
        if users[i].username == username && users[i].password == password {
          return Success(users[i].id);
        }
        i := i + 1;
      }
      return Unauthorized("Invalid credentials");
    }

    /**
     * `get_doctor_available`: the doctor's offered slots, in the doctor's
     * order, without those held by any appointment with that doctor.
     */
    function Available(doctorId: int): (r: Outcome<seq<string>>)
      reads this
      ensures r.Success? || r.NotFound?
      ensures r.NotFound? <==> DoctorIndex(doctors, doctorId).None?
      ensures r.NotFound? ==> r.detail == "Doctor not found"
      ensures r.Success? ==>
        var offered := doctors[DoctorIndex(doctors, doctorId).value].availableSlots;
        Subseq(r.value, offered) &&
        forall t :: t in r.value <==>
          t in offered && !exists a :: a in appointments && a.doctorId == doctorId && a.timeSlot == t
    {
      match DoctorIndex(doctors, doctorId)
      case None => NotFound("Doctor not found")
      case Some(d) => Success(FreeSlots(doctors[d].availableSlots, BookedSlots(appointments, doctorId)))
    }

    /**
     * `book_appointment`: 404 for an unknown user or doctor; FAILED, with
     * nothing changed, when the slot is held or not offered; otherwise one new
     * appointment under the next id, with empty symptoms and prescription.
     */
    method Book(userId: int, doctorId: int, slot: string) returns (r: Outcome<int>)
      requires Valid()
      modifies this
      ensures Valid()
      ensures !r.Success? ==> unchanged(this)
      ensures !(exists u :: u in old(users) && u.id == userId) ==> r == NotFound("User not found")
      ensures (exists u :: u in old(users) && u.id == userId) && DoctorIndex(doctors, doctorId).None? ==>
                r == NotFound("Doctor not found")
      ensures (exists u :: u in old(users) && u.id == userId) && DoctorIndex(doctors, doctorId).Some? ==>
                var offered := doctors[DoctorIndex(doctors, doctorId).value].availableSlots;
                (r.Success? <==> slot !in BookedSlots(old(appointments), doctorId) && slot in offered) &&
                (!r.Success? ==> r == Failed("Time slot not available"))
      ensures r.Success? ==>
                r.value == old(nextId) && nextId == old(nextId) + 1 &&
                (forall a :: a in old(appointments) ==> a.id < r.value) &&
                appointments == old(appointments) + [Appointment(r.value, userId, doctorId, slot, [], [])] &&
                users == old(users) && medicines == old(medicines) && sales == old(sales) && ratings == old(ratings)
    {
      if !(exists u :: u in users && u.id == userId) {
        return NotFound("User not found");
      }
      var d := DoctorIndex(doctors, doctorId);
      if d.None? {
        return NotFound("Doctor not found");
      }
      var booked := BookedSlots(appointments, doctorId);
      if slot in booked || slot !in doctors[d.value].availableSlots {
        return Failed("Time slot not available");
      }
      var aid := nextId;
      BookKeepsSchedule(doctors, appointments, nextId, Appointment(aid, userId, doctorId, slot, [], []));
      nextId := nextId + 1;
      appointments := appointments + [Appointment(aid, userId, doctorId, slot, [], [])];
      r := Success(aid);
    }

    /** `cancel_appointment`: removes the appointment with that id, or 404 with nothing changed. */
    method Cancel(appointmentId: int) returns (r: Outcome<string>)
      requires Valid()
      modifies this
      ensures Valid()
      ensures AppointmentIndex(old(appointments), appointmentId).None? ==>
                r == NotFound("Appointment not found") && unchanged(this)
      ensures AppointmentIndex(old(appointments), appointmentId).Some? ==>
                var i := AppointmentIndex(old(appointments), appointmentId).value;
                r == Success("Appointment canceled") &&
                appointments == old(appointments)[..i] + old(appointments)[i + 1..] &&
                users == old(users) && medicines == old(medicines) && sales == old(sales) &&
                ratings == old(ratings) && nextId == old(nextId)
      ensures forall a :: a in appointments <==> a in old(appointments) && a.id != appointmentId
    {
      var idx := AppointmentIndex(appointments, appointmentId);
      if idx.None? {
        return NotFound("Appointment not found");
      }
      var i := idx.value;
      RemoveKeepsSchedule(doctors, appointments, nextId, i);
      RemoveDropsOnlyThatId(doctors, appointments, nextId, i);
      appointments := appointments[..i] + appointments[i + 1..];
      r := Success("Appointment canceled");
    }

    /**
     * `reschedule_appointment`: 404 for an unknown appointment; FAILED unless the
     * new slot is offered by its doctor and held by no appointment of that
     * doctor, itself included; otherwise only that appointment's slot changes.
     */
    method Reschedule(appointmentId: int, newSlot: string) returns (r: Outcome<string>)
      requires Valid()
      modifies this
      ensures Valid()
      ensures !r.Success? ==> unchanged(this)
      ensures AppointmentIndex(old(appointments), appointmentId).None? ==> r == NotFound("Appointment not found")
      ensures AppointmentIndex(old(appointments), appointmentId).Some? ==>
                var i := AppointmentIndex(old(appointments), appointmentId).value;
                var a := old(appointments)[i];
                var offered := doctors[DoctorIndex(doctors, a.doctorId).value].availableSlots;
                (r.Success? <==> newSlot in offered && newSlot !in BookedSlots(old(appointments), a.doctorId)) &&
                (!r.Success? ==> r == Failed("Time slot not available")) &&
                (r.Success? ==> r == Success(newSlot) &&
                                appointments == old(appointments)[i := a.(timeSlot := newSlot)] &&
                                users == old(users) && medicines == old(medicines) && sales == old(sales) &&
                                ratings == old(ratings) && nextId == old(nextId))
      ensures AppointmentIndex(old(appointments), appointmentId).Some? &&
              newSlot == old(appointments)[AppointmentIndex(old(appointments), appointmentId).value].timeSlot ==>
                r.Failed?
    {
      var idx := AppointmentIndex(appointments, appointmentId);
      if idx.None? {
        return NotFound("Appointment not found");
      }
      var i := idx.value;
      var a := appointments[i];
      assert a in appointments;
      var d := DoctorIndex(doctors, a.doctorId).value;
      if newSlot !in doctors[d].availableSlots || newSlot in BookedSlots(appointments, doctors[d].id) {
        return Failed("Time slot not available");
      }
      MoveKeepsSchedule(doctors, appointments, nextId, i, newSlot);
      appointments := appointments[i := a.(timeSlot := newSlot)];
      r := Success(newSlot);
    }

    /**
     * `consult`: the diagnosis of the symptoms, written into the named
     * appointment as its symptoms and prescription, or 404 with nothing changed.
     */
    method Consult(appointmentId: int, symptoms: seq<string>) returns (r: Outcome<Diagnosis>)
      requires Valid()
      modifies this
      ensures Valid()
      ensures AppointmentIndex(old(appointments), appointmentId).None? ==>
                r == NotFound("Appointment not found") && unchanged(this)
      ensures AppointmentIndex(old(appointments), appointmentId).Some? ==>
                var i := AppointmentIndex(old(appointments), appointmentId).value;
                var d := Diagnose(SymptomText(symptoms), |old(medicines)|);
                r == Success(d) &&
                appointments == old(appointments)[i := old(appointments)[i].(symptoms := symptoms, prescription := d.prescription)] &&
                users == old(users) && medicines == old(medicines) && sales == old(sales) &&
                ratings == old(ratings) && nextId == old(nextId)
    {
      var diagnosis := Diagnose(SymptomText(symptoms), |medicines|);
      var idx := AppointmentIndex(appointments, appointmentId);
      if idx.None? {
        return NotFound("Appointment not found");
      }
      var i := idx.value;
      ConsultKeepsSchedule(doctors, appointments, nextId, i, symptoms, diagnosis.prescription);
      appointments := appointments[i := appointments[i].(symptoms := symptoms, prescription := diagnosis.prescription)];
      r := Success(diagnosis);
    }

    /**
     * `get_medicines?appointment_id=...`: 404 for an unknown appointment,
     * otherwise the prescription resolved against MEDICINES.
     */
    method ScopedMedicines(appointmentId: int) returns (r: Outcome<seq<PrescribedMedicine>>)
      ensures AppointmentIndex(appointments, appointmentId).None? ==> r == NotFound("Appointment not found")
      ensures AppointmentIndex(appointments, appointmentId).Some? ==>
                r == Success(Resolve(medicines, appointments[AppointmentIndex(appointments, appointmentId).value].prescription))
    {
      var idx := AppointmentIndex(appointments, appointmentId);
      if idx.None? {
        return NotFound("Appointment not found");
      }
      var prescription := appointments[idx.value].prescription;
      if prescription == [] {
        return Success([]);
      }
      var meds: seq<PrescribedMedicine> := [];
      var i := 0;
      while i < |prescription|
        invariant 0 <= i <= |prescription|
        invariant meds == Resolve(medicines, prescription[..i])
      {
        var item := prescription[i];
        assert prescription[..i + 1][..i] == prescription[..i];
        if 0 <= item.medicineId < |medicines| {
          meds := meds + [PrescribedMedicine(medicines[item.medicineId], item.quantity)];
        }
        i := i + 1;
      }
      assert prescription[..i] == prescription;
      r := Success(meds);
    }

    /** `search_medicines`: the rows whose lower-cased name contains the lower-cased query, in table order. */
    function Search(name: string): (r: seq<Medicine>)
      reads this
      ensures Subseq(r, medicines)
      ensures forall m :: m in r <==> m in medicines && Contains(Lower(m.name), Lower(name))
    {
      FilterIsSubseq(NameHas(Lower(name)), medicines);
      Filter(NameHas(Lower(name)), medicines)
    }

    /** `restock_medicine`: adds the quantity, of either sign, to the stock; 404 outside the table. */
    method Restock(medicineId: int, quantity: int) returns (r: Outcome<int>)
      requires Valid()
      modifies this
      ensures Valid()
      ensures !(0 <= medicineId < |old(medicines)|) ==> r == NotFound("Medicine not found") && unchanged(this)
      ensures 0 <= medicineId < |old(medicines)| ==>
                var m := old(medicines)[medicineId];
                r == Success(m.stock + quantity) &&
                medicines == old(medicines)[medicineId := m.(stock := m.stock + quantity)] &&
                users == old(users) && appointments == old(appointments) && sales == old(sales) &&
                ratings == old(ratings) && nextId == old(nextId)
    {
      if medicineId < 0 || medicineId >= |medicines| {
        return NotFound("Medicine not found");
      }
      var m := medicines[medicineId];
      medicines := medicines[medicineId := m.(stock := m.stock + quantity)];
      r := Success(medicines[medicineId].stock);
    }

    /** `buy_medicine`: one line, checked against the stock, recorded as one sale. */
    method Buy(buyer: string, medicineId: int, quantity: int) returns (r: Outcome<string>)
      requires Valid()
      modifies this
      ensures Valid()
      ensures !r.Success? ==> unchanged(this)
      ensures !(0 <= medicineId < |old(medicines)|) ==> r == NotFound("Medicine not found")
      ensures 0 <= medicineId < |old(medicines)| ==>
                var m := old(medicines)[medicineId];
                (m.stock < quantity ==> r == Failed("Not enough stock of " + m.name)) &&
                (m.stock >= quantity ==>
                   r == Success(buyer + " bought " + IntToString(quantity) + " " + m.name) &&
                   medicines == old(medicines)[medicineId := m.(stock := m.stock - quantity)] &&
                   sales == old(sales) + [Sale(medicineId, quantity, m.price)] &&
                   users == old(users) && appointments == old(appointments) &&
                   ratings == old(ratings) && nextId == old(nextId))
    {
      if medicineId < 0 || medicineId >= |medicines| {
        return NotFound("Medicine not found");
      }
      var m := medicines[medicineId];
      if m.stock < quantity {
        return Failed("Not enough stock of " + m.name);
      }
      medicines := medicines[medicineId := m.(stock := m.stock - quantity)];
      sales := sales + [Sale(medicineId, quantity, m.price)];
      r := Success(buyer + " bought " + IntToString(quantity) + " " + m.name);
    }

    /** The checking loop of `buy_bulk` and `buy_prescription`; it changes nothing. */
    method CheckStock(items: seq<Item>) returns (refusal: Option<Refusal>)
      ensures refusal == StockCheck(medicines, items)
    {
      var i := 0;
      while i < |items|
        invariant 0 <= i <= |items|
        invariant StockCheck(medicines, items) == StockCheck(medicines, items[i..])
      {
        assert items[i..][1..] == items[i + 1..];
        var it := items[i];
        if it.medicineId < 0 || it.medicineId >= |medicines| {
          return Some(UnknownMedicine(it.medicineId));
        }
        if medicines[it.medicineId].stock < it.quantity {
          return Some(OutOfStock(medicines[it.medicineId].name));
        }
        i := i + 1;
      }
      return None;
    }

    /** The decrement loop: lowers each line's stock, records one sale per line and sums the cost. */
    method Charge(items: seq<Item>) returns (total: int)
      requires Valid() && AllInTable(medicines, items)
      modifies this
      ensures Valid()
      ensures medicines == Debit(old(medicines), items)
      ensures sales == old(sales) + SalesFor(old(medicines), items)
      ensures total == Cost(old(medicines), items)
      ensures users == old(users) && appointments == old(appointments) &&
              ratings == old(ratings) && nextId == old(nextId)
    {
      var meds, sold := medicines, sales;
      total := 0;
      var i := 0;
      while i < |items|
        modifies {}
        invariant 0 <= i <= |items| && AllInTable(medicines, items[..i])
        invariant meds == Debit(medicines, items[..i])
        invariant sold == sales + SalesFor(medicines, items[..i])
        invariant total == Cost(medicines, items[..i])
      {
        var it := items[i];
        ChargeStep(medicines, sales, items, i, meds, sold, total);
        var m := meds[it.medicineId];
        meds := meds[it.medicineId := m.(stock := m.stock - it.quantity)];
        sold := sold + [Sale(it.medicineId, it.quantity, m.price)];
        total := total + m.price * it.quantity;
        i := i + 1;
      }
      assert items[..i] == items;
      ChargeKeepsTables(medicines, sales, items);
      medicines, sales := meds, sold;
    }

    /**
     * `buy_bulk`: all or nothing. Every line is checked first; on a refusal
     * nothing changes, otherwise every line is charged and the cost returned.
     */
    method BuyBulk(userId: int, items: seq<Item>) returns (r: Outcome<int>)
      requires Valid()
      modifies this
      ensures Valid()
      ensures StockCheck(old(medicines), items).Some? ==>
                r == Refused(StockCheck(old(medicines), items).value) && unchanged(this)
      ensures StockCheck(old(medicines), items).None? ==>
                AllInTable(old(medicines), items) &&
                r == Success(Cost(old(medicines), items)) &&
                medicines == Debit(old(medicines), items) &&
                sales == old(sales) + SalesFor(old(medicines), items) &&
                users == old(users) && appointments == old(appointments) &&
                ratings == old(ratings) && nextId == old(nextId)
    {
      var refusal := CheckStock(items);
      if refusal.Some? {
        return Refused(refusal.value);
      }
      var total := Charge(items);
      r := Success(total);
    }

    /**
     * `buy_prescription`: 404 for an unknown appointment, FAILED for an empty
     * prescription, and otherwise `buy_bulk` over the stored prescription,
     * which is echoed back with the cost.
     */
    method BuyPrescription(appointmentId: int) returns (r: Outcome<(int, seq<Item>)>)
      requires Valid()
      modifies this
      ensures Valid()
      ensures !r.Success? ==> unchanged(this)
      ensures AppointmentIndex(old(appointments), appointmentId).None? ==> r == NotFound("Appointment not found")
      ensures AppointmentIndex(old(appointments), appointmentId).Some? ==>
                var p := old(appointments)[AppointmentIndex(old(appointments), appointmentId).value].prescription;
                (p == [] ==> r == Failed("No prescription found for this appointment")) &&
                (p != [] && StockCheck(old(medicines), p).Some? ==> r == Refused(StockCheck(old(medicines), p).value)) &&
                (p != [] && StockCheck(old(medicines), p).None? ==>
                   AllInTable(old(medicines), p) &&
                   r == Success((Cost(old(medicines), p), p)) &&
                   medicines == Debit(old(medicines), p) &&
                   sales == old(sales) + SalesFor(old(medicines), p) &&
                   users == old(users) && appointments == old(appointments) &&
                   ratings == old(ratings) && nextId == old(nextId))
    {
      var idx := AppointmentIndex(appointments, appointmentId);
      if idx.None? {
        return NotFound("Appointment not found");
      }
      var prescription := appointments[idx.value].prescription;
      if prescription == [] {
        return Failed("No prescription found for this appointment");
      }
      var refusal := CheckStock(prescription);
      if refusal.Some? {
        return Refused(refusal.value);
      }
      var total := Charge(prescription);
      r := Success((total, prescription));
    }

    /** `sales_report`: the map, group and reduce stages over MEDICINE_SALES, then the total; it changes nothing. */
    method SalesReport() returns (report: Records.SalesReport)
      requires Valid()
      ensures report == Report(medicines, sales)
    {
      var mapped := MapStage(medicines, sales);
      var keys, grouped := GroupStage(mapped);
      var reduced := ReduceStage(mapped, keys, grouped);
      report := Records.SalesReport(reduced, Sum(Amounts(reduced)));
    }

    /** The ratings stored for a doctor (`DOCTOR_RATINGS.get(doctor_id, [])`). */
    function RatingsOf(doctorId: int): seq<int>
      reads this
    {
      if doctorId in ratings then ratings[doctorId] else []
    }

    /** `get_doctor_rating`, as the count and the sum of the ratings (the average is their quotient). */
    function GetRating(doctorId: int): RatingSummary
      reads this
    {
      RatingSummary(|RatingsOf(doctorId)|, Sum(RatingsOf(doctorId)))
    }

    /** `rate_doctor`: appends the rating to the doctor's list, for any doctor id and any value. */
    method RateDoctor(doctorId: int, rating: int) returns (r: Outcome<()>)
      requires Valid()
      modifies this
      ensures Valid()
      ensures r == Success(())
      ensures ratings == old(ratings)[doctorId := old(RatingsOf(doctorId)) + [rating]]
      ensures GetRating(doctorId) ==
                RatingSummary(old(GetRating(doctorId)).numRatings + 1, old(GetRating(doctorId)).ratingSum + rating)
      ensures forall d :: d != doctorId ==> GetRating(d) == old(GetRating(d))
      ensures medicines == old(medicines) && users == old(users) && appointments == old(appointments) &&
              sales == old(sales) && nextId == old(nextId)
    {
      var list := RatingsOf(doctorId);
      ratings := ratings[doctorId := list + [rating]];
      SumSnoc(list, rating);
      r := Success(());
    }
  }
}
