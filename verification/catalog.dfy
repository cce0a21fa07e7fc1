/**
 * Display joins the patient pages share: the doctor label map built from
 * `/doctors` (`map[doc.id] = "name (specialty)"` in a `forEach`), the label
 * lookup with its fallback, and the prescription lines shown for an
 * appointment.
 */
module Catalog {

  import opened Wrappers
  import opened Text
  import opened Records

  /** `${doc.name} (${doc.specialty})`. */
  function Label(d: Doctor): (r: string)
    ensures |r| > |d.name| && r[..|d.name|] == d.name
  {
    d.name + " (" + d.specialty + ")"
  }

  /** The record the `forEach` leaves: each listed id sent to the label of its last listing. */
  function LabelMap(doctors: seq<Doctor>): (m: map<int, string>)
    ensures forall id :: id in m <==> exists i :: 0 <= i < |doctors| && doctors[i].id == id
  {
    if doctors == [] then map[]
    else
      var init, d := doctors[..|doctors| - 1], doctors[|doctors| - 1];
      var m := LabelMap(init);
      assert forall i :: 0 <= i < |init| ==> init[i] == doctors[i];
      m[d.id := Label(d)]
  }

  /** A doctor listed after every other doctor with the same id gives that id its label. */
  lemma {:induction false} LastListingWins(doctors: seq<Doctor>, i: int)
    requires 0 <= i < |doctors|
    requires forall j :: i < j < |doctors| ==> doctors[j].id != doctors[i].id
    ensures doctors[i].id in LabelMap(doctors) && LabelMap(doctors)[doctors[i].id] == Label(doctors[i])
  {
    if i < |doctors| - 1 {
      var init := doctors[..|doctors| - 1];
      assert init[i] == doctors[i];
      LastListingWins(init, i);
    }
  }

  /** The `forEach` loop that fills the label record. */
  method BuildLabelMap(doctors: seq<Doctor>) returns (m: map<int, string>)
    ensures m == LabelMap(doctors)
  {
    m := map[];
    var i := 0;
    while i < |doctors|
      invariant 0 <= i <= |doctors|
      invariant m == LabelMap(doctors[..i])
    {
      assert doctors[..i + 1][..i] == doctors[..i];
      m := m[doctors[i].id := Label(doctors[i])];
      i := i + 1;
    }
    assert doctors[..i] == doctors;
  }

  /** `map[id] || `${prefix}${id}``: the label, or the prefix and the id when there is none. */
  function LabelOr(m: map<int, string>, id: int, prefix: string): (r: string)
    ensures id in m && m[id] != "" ==> r == m[id]
    ensures !(id in m && m[id] != "") ==> r == prefix + IntToString(id)
  {
    if id in m && m[id] != "" then m[id] else prefix + IntToString(id)
  }

  /**
   * A fetched doctor is shown by its label and an id no fetched doctor has by
   * the fallback: the label is never empty, so the fallback is taken exactly
   * for unknown ids.
   */
  lemma LabelOrFallsBackExactlyForUnknown(doctors: seq<Doctor>, id: int, prefix: string)
    ensures (exists i :: 0 <= i < |doctors| && doctors[i].id == id) ==>
            LabelOr(LabelMap(doctors), id, prefix) == LabelMap(doctors)[id]
    ensures (forall i :: 0 <= i < |doctors| ==> doctors[i].id != id) ==>
            LabelOr(LabelMap(doctors), id, prefix) == prefix + IntToString(id)
  {
    if exists i :: 0 <= i < |doctors| && doctors[i].id == id {
      LabelsNonEmpty(doctors);
    }
  }

  /** Every label in the map is non-empty. */
  lemma {:induction false} LabelsNonEmpty(doctors: seq<Doctor>)
    ensures forall id :: id in LabelMap(doctors) ==> LabelMap(doctors)[id] != ""
  {
    if doctors != [] {
      LabelsNonEmpty(doctors[..|doctors| - 1]);
    }
  }

  /** A displayed prescription line: its text and its quantity. */
  datatype Line = Line(text: string, quantity: int)

  /**
   * A scoped medicine record: its `name`, or `Medicine ID ${p.medicine_id}`
   * when the name is empty; the record the server sends has no `medicine_id`
   * field, so that fallback reads `Medicine ID undefined`.
   */
  function DetailedLine(p: PrescribedMedicine): (l: Line)
    ensures l.quantity == p.quantity
    ensures p.medicine.name != "" ==> l.text == p.medicine.name
    ensures p.medicine.name == "" ==> l.text == "Medicine ID undefined"
  {
    Line(if p.medicine.name != "" then p.medicine.name else "Medicine ID undefined", p.quantity)
  }

  /** A raw prescription line: it has no name, so it is shown by its medicine id. */
  function RawLine(it: Item): Line {
    Line("Medicine ID " + IntToString(it.medicineId), it.quantity)
  }

  /**
   * The prescription display: the scoped medicine records when that list is
   * non-empty, otherwise the raw prescription, one line per record in order.
   */
  function DisplayLines(detailed: seq<PrescribedMedicine>, raw: seq<Item>): (r: seq<Line>)
    ensures |detailed| > 0 ==> |r| == |detailed|
    ensures |detailed| > 0 ==> forall i :: 0 <= i < |r| ==>
              r[i].quantity == detailed[i].quantity &&
              (detailed[i].medicine.name != "" ==> r[i].text == detailed[i].medicine.name) &&
              (detailed[i].medicine.name == "" ==> r[i].text == "Medicine ID undefined")
    ensures |detailed| == 0 ==> |r| == |raw|
    ensures |detailed| == 0 ==> forall i :: 0 <= i < |r| ==>
              r[i] == Line("Medicine ID " + IntToString(raw[i].medicineId), raw[i].quantity)
  {
    if |detailed| > 0 then seq(|detailed|, i requires 0 <= i < |detailed| => DetailedLine(detailed[i]))
    else seq(|raw|, i requires 0 <= i < |raw| => RawLine(raw[i]))
  }
}
