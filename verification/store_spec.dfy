/**
 * The pure side of the clinic store of backend/main.py: the lookups its
 * handlers write as generator expressions and comprehensions, and the
 * specifications of its purchase loops (the all-or-nothing stock check, the
 * stock debit, the sale records and the cost of an order).
 */
module StoreSpec {

  import opened Wrappers
  import opened Seqs
  import opened Records

  /** A row of USERS. */
  datatype User = User(id: int, username: string, password: string)

  /** A row of MEDICINE_SALES: the medicine, the quantity sold and the unit price at the time of sale. */
  datatype Sale = Sale(medicineId: int, soldQty: int, price: int)

  /** Why an all-or-nothing purchase is refused: an id outside MEDICINES, or a line the stock cannot cover. */
  datatype Refusal = UnknownMedicine(id: int) | OutOfStock(name: string)

  function HasDoctorId(id: int): Doctor -> bool { (d: Doctor) => d.id == id }

  function HasAppointmentId(id: int): Appointment -> bool { (a: Appointment) => a.id == id }

  /** `next((d for d in DOCTORS if d["id"] == id), None)`, as a position. */
  function DoctorIndex(doctors: seq<Doctor>, id: int): (r: Option<nat>)
    ensures r.Some? ==> r.value < |doctors| && doctors[r.value].id == id &&
                        forall j :: 0 <= j < r.value ==> doctors[j].id != id
    ensures r.None? ==> forall j :: 0 <= j < |doctors| ==> doctors[j].id != id
  {
    FirstWhere(doctors, HasDoctorId(id))
  }

  /** `next((a for a in APPOINTMENTS if a["id"] == id), None)`, as a position. */
  function AppointmentIndex(appts: seq<Appointment>, id: int): (r: Option<nat>)
    ensures r.Some? ==> r.value < |appts| && appts[r.value].id == id &&
                        forall j :: 0 <= j < r.value ==> appts[j].id != id
    ensures r.None? ==> forall j :: 0 <= j < |appts| ==> appts[j].id != id
  {
    FirstWhere(appts, HasAppointmentId(id))
  }

  /** `[a["time_slot"] for a in APPOINTMENTS if a["doctor_id"] == doctor_id]`. */
  function BookedSlots(appts: seq<Appointment>, doctorId: int): (r: seq<string>)
    ensures forall t :: t in r <==> exists a :: a in appts && a.doctorId == doctorId && a.timeSlot == t
  {
    if appts == [] then []
    else
      var init, a := appts[..|appts| - 1], appts[|appts| - 1];
      assert forall x :: x in appts <==> x in init || x == a by {
        assert appts == init + [a];
      }
      BookedSlots(init, doctorId) + (if a.doctorId == doctorId then [a.timeSlot] else [])
  }

  function NotIn(booked: seq<string>): string -> bool { t => t !in booked }

  /** `[t for t in d["available_slots"] if t not in booked]`. */
  function FreeSlots(offered: seq<string>, booked: seq<string>): (r: seq<string>)
    ensures Subseq(r, offered)
    ensures forall t :: t in r <==> t in offered && t !in booked
    ensures forall t :: t !in booked ==> multiset(r)[t] == multiset(offered)[t]
  {
    FilterCounts(NotIn(booked), offered);
    FilterIsSubseq(NotIn(booked), offered);
    Filter(NotIn(booked), offered)
  }

  /** No two appointments with the same doctor hold the same slot. */
  ghost predicate NoDoubleBooking(appts: seq<Appointment>) {
    forall i, j :: 0 <= i < j < |appts| && appts[i].doctorId == appts[j].doctorId ==>
      appts[i].timeSlot != appts[j].timeSlot
  }

  /**
   * The scoped medicine list of `get_medicines`: for each prescription line
   * whose id is a position of `meds`, that row with the line's quantity added.
   */
  function Resolve(meds: seq<Medicine>, items: seq<Item>): (r: seq<PrescribedMedicine>)
    ensures |r| <= |items|
    ensures forall x :: x in r ==> exists it :: it in items && 0 <= it.medicineId < |meds| &&
                                                x == PrescribedMedicine(meds[it.medicineId], it.quantity)
  {
    if items == [] then []
    else
      var init, it := items[..|items| - 1], items[|items| - 1];
      assert forall x :: x in init ==> x in items;
      Resolve(meds, init) +
        (if 0 <= it.medicineId < |meds| then [PrescribedMedicine(meds[it.medicineId], it.quantity)] else [])
  }

  function InTable(count: int): Item -> bool { (it: Item) => 0 <= it.medicineId < count }

  /** With every id inside the table, the scoped list has one record per line, in prescription order. */
  lemma {:induction false} ResolveAllInRange(meds: seq<Medicine>, items: seq<Item>)
    requires forall i :: 0 <= i < |items| ==> 0 <= items[i].medicineId < |meds|
    ensures var r := Resolve(meds, items);
      |r| == |items| &&
      forall i :: 0 <= i < |items| ==> r[i] == PrescribedMedicine(meds[items[i].medicineId], items[i].quantity)
  {
    if items != [] {
      var init, it := items[..|items| - 1], items[|items| - 1];
      ResolveAllInRange(meds, init);
      assert Resolve(meds, items) == Resolve(meds, init) + [PrescribedMedicine(meds[it.medicineId], it.quantity)];
      assert forall i :: 0 <= i < |init| ==> init[i] == items[i];
    }
  }

  /** Lines whose id is outside the table are skipped, and only they. */
  lemma {:induction false} ResolveSkipsOutOfRange(meds: seq<Medicine>, items: seq<Item>)
    ensures Resolve(meds, items) == Resolve(meds, Filter(InTable(|meds|), items))
  {
    if items != [] {
      var init, it := items[..|items| - 1], items[|items| - 1];
      ResolveSkipsOutOfRange(meds, init);
      var f := Filter(InTable(|meds|), init);
      if InTable(|meds|)(it) {
        assert (f + [it])[..|f|] == f;
      }
    }
  }

  /** The line can be served: its id is a position of the table and the stock covers its quantity. */
  predicate Covers(meds: seq<Medicine>, it: Item) {
    0 <= it.medicineId < |meds| && meds[it.medicineId].stock >= it.quantity
  }

  function Refuse(meds: seq<Medicine>, it: Item): Refusal
    requires !Covers(meds, it)
  {
    if 0 <= it.medicineId < |meds| then OutOfStock(meds[it.medicineId].name) else UnknownMedicine(it.medicineId)
  }

  /**
   * The checking loop of `buy_bulk` and `buy_prescription`: the refusal of the
   * first line that cannot be served, each line compared alone with the stock
   * as it is before the purchase.
   */
  function StockCheck(meds: seq<Medicine>, items: seq<Item>): (r: Option<Refusal>)
    ensures r.None? <==> forall i :: 0 <= i < |items| ==> Covers(meds, items[i])
  {
    if items == [] then None
    else if !Covers(meds, items[0]) then Some(Refuse(meds, items[0]))
    else
      var r := StockCheck(meds, items[1..]);
      assert forall i :: 1 <= i < |items| ==> items[i] == items[1..][i - 1];
      r
  }

  /** The check reports the first line that cannot be served. */
  lemma {:induction false} FirstRefusalReported(meds: seq<Medicine>, items: seq<Item>, i: nat)
    requires i < |items| && !Covers(meds, items[i])
    requires forall j :: 0 <= j < i ==> Covers(meds, items[j])
    ensures StockCheck(meds, items) == Some(Refuse(meds, items[i]))
  {
    if i > 0 {
      FirstRefusalReported(meds, items[1..], i - 1);
    }
  }

  ghost predicate AllInTable(meds: seq<Medicine>, items: seq<Item>) {
    forall i :: 0 <= i < |items| ==> 0 <= items[i].medicineId < |meds|
  }

  /** The quantity the lines ask of the medicine at position `j`. */
  function QtyFor(items: seq<Item>, j: int): int {
    if items == [] then 0
    else
      var it := items[|items| - 1];
      QtyFor(items[..|items| - 1], j) + (if it.medicineId == j then it.quantity else 0)
  }

  /** The table after the decrement loop: each line lowers the stock of its medicine by its quantity. */
  function Debit(meds: seq<Medicine>, items: seq<Item>): (r: seq<Medicine>)
    requires AllInTable(meds, items)
    ensures |r| == |meds|
    ensures forall j :: 0 <= j < |meds| ==> r[j] == meds[j].(stock := meds[j].stock - QtyFor(items, j))
  {
    if items == [] then meds
    else
      var it := items[|items| - 1];
      var m := Debit(meds, items[..|items| - 1]);
      m[it.medicineId := m[it.medicineId].(stock := m[it.medicineId].stock - it.quantity)]
  }

  /** The sale records the decrement loop appends, one per line, priced at the medicine's price. */
  function SalesFor(meds: seq<Medicine>, items: seq<Item>): (r: seq<Sale>)
    requires AllInTable(meds, items)
    ensures |r| == |items|
    ensures forall i :: 0 <= i < |items| ==>
      r[i] == Sale(items[i].medicineId, items[i].quantity, meds[items[i].medicineId].price)
  {
    if items == [] then []
    else
      var it := items[|items| - 1];
      SalesFor(meds, items[..|items| - 1]) + [Sale(it.medicineId, it.quantity, meds[it.medicineId].price)]
  }

  /** `total_cost`: the sum of price times quantity over the lines. */
  function Cost(meds: seq<Medicine>, items: seq<Item>): int
    requires AllInTable(meds, items)
  {
    if items == [] then 0
    else
      var it := items[|items| - 1];
      Cost(meds, items[..|items| - 1]) + meds[it.medicineId].price * it.quantity
  }

  /** The revenue of a list of sale records: sold quantity times price, summed. */
  function Revenue(sales: seq<Sale>): int {
    if sales == [] then 0
    else Revenue(sales[..|sales| - 1]) + sales[|sales| - 1].soldQty * sales[|sales| - 1].price
  }

  lemma {:induction false} RevenueAppend(a: seq<Sale>, b: seq<Sale>)
    ensures Revenue(a + b) == Revenue(a) + Revenue(b)
    decreases |b|
  {
    if b == [] {
      assert a + b == a;
    } else {
      assert (a + b)[..|a + b| - 1] == a + b[..|b| - 1];
      RevenueAppend(a, b[..|b| - 1]);
    }
  }

  /** The sales a purchase records bring in exactly the `total_cost` it reports. */
  lemma {:induction false} RevenueOfPurchase(meds: seq<Medicine>, items: seq<Item>)
    requires AllInTable(meds, items)
    ensures Revenue(SalesFor(meds, items)) == Cost(meds, items)
  {
    if items != [] {
      var init := items[..|items| - 1];
      RevenueOfPurchase(meds, init);
      var s := SalesFor(meds, items);
      assert s[..|s| - 1] == SalesFor(meds, init);
    }
  }

  /**
   * Each line is checked alone against the stock before the purchase, so two
   * lines for one medicine can together take more than its stock.
   */
  lemma RepeatedLinesOverdraw()
    ensures var meds := [Medicine(0, "Paracetamol", 5, 20)];
            var items := [Item(0, 3), Item(0, 3)];
            StockCheck(meds, items).None? && Debit(meds, items)[0].stock == -1
  {
    var meds := [Medicine(0, "Paracetamol", 5, 20)];
    var items := [Item(0, 3), Item(0, 3)];
    assert items[..1] == [Item(0, 3)];
    assert QtyFor(items, 0) == 6;
  }

  /** With one line per medicine, each quantity is what the order asks of that medicine. */
  lemma {:induction false} QtyForDistinct(items: seq<Item>, j: int)
    requires forall a, b :: 0 <= a < b < |items| ==> items[a].medicineId != items[b].medicineId
    ensures (forall i :: 0 <= i < |items| ==> items[i].medicineId != j) ==> QtyFor(items, j) == 0
    ensures forall i :: 0 <= i < |items| && items[i].medicineId == j ==> QtyFor(items, j) == items[i].quantity
  {
    if items != [] {
      QtyForDistinct(items[..|items| - 1], j);
    }
  }

  /** With one line per medicine, a purchase that passes the check leaves no stock below zero. */
  lemma NoOverdrawWithDistinctLines(meds: seq<Medicine>, items: seq<Item>)
    requires StockCheck(meds, items).None?
    requires forall a, b :: 0 <= a < b < |items| ==> items[a].medicineId != items[b].medicineId
    requires forall j :: 0 <= j < |meds| ==> meds[j].stock >= 0
    ensures AllInTable(meds, items)
    ensures forall j :: 0 <= j < |meds| ==> Debit(meds, items)[j].stock >= 0
  {
    forall j | 0 <= j < |meds| ensures meds[j].stock - QtyFor(items, j) >= 0 {
      QtyForDistinct(items, j);
    }
  }
}
