/**
 * The prescription list of frontend/src/pages/patient/UserPrescriptions.tsx:
 * loading the user's prescriptions, fetching the medicine records of each
 * prescribed appointment to show names, the displayed lines, and buying a
 * prescription.
 */
module UserPrescriptions {

  import opened Wrappers
  import opened Text
  import opened Records
  import opened Wire
  import opened Catalog

  /** One entry of `/users/{id}/prescriptions`: an appointment and its prescription. */
  datatype PrescriptionEntry = PrescriptionEntry(appointmentId: int, prescription: seq<Item>)

  /** `prescriptions.map(p => p.appointment_id)`. */
  function AppointmentIds(ps: seq<PrescriptionEntry>): (ids: seq<int>)
    ensures |ids| == |ps| && forall i :: 0 <= i < |ps| ==> ids[i] == ps[i].appointmentId
  {
    seq(|ps|, i requires 0 <= i < |ps| => ps[i].appointmentId)
  }

  /** The GET of one appointment's medicine records. */
  function DetailCall(id: int): Call {
    Get("/medicines?appointment_id=" + IntToString(id))
  }

  /** The calls `Promise.all` starts, one per id, in order. */
  function DetailCalls(ids: seq<int>): (calls: seq<Call>)
    ensures |calls| == |ids| && forall i :: 0 <= i < |ids| ==> calls[i] == DetailCall(ids[i])
  {
    seq(|ids|, i requires 0 <= i < |ids| => DetailCall(ids[i]))
  }

  /**
   * The record the `forEach` fills: each id sent to the records its call
   * answered (`?.medicines || []`), a later id overwriting an earlier equal one.
   */
  function DetailMap(ids: seq<int>, results: seq<Option<seq<PrescribedMedicine>>>): (m: map<int, seq<PrescribedMedicine>>)
    requires |ids| == |results|
    ensures forall id :: id in m <==> id in ids
  {
    if ids == [] then map[]
    else
      var n := |ids| - 1;
      var m := DetailMap(ids[..n], results[..n]);
      assert ids == ids[..n] + [ids[n]];
      m[ids[n] := results[n].GetOr([])]
  }

  /** An appointment listed once is sent to the records of its own call. */
  lemma {:induction false} DetailMapAt(ids: seq<int>, results: seq<Option<seq<PrescribedMedicine>>>, i: int)
    requires |ids| == |results| && 0 <= i < |ids|
    requires forall j :: i < j < |ids| ==> ids[j] != ids[i]
    ensures DetailMap(ids, results)[ids[i]] == results[i].GetOr([])
  {
    var n := |ids| - 1;
    if i < n {
      assert ids[..n][i] == ids[i] && results[..n][i] == results[i];
      DetailMapAt(ids[..n], results[..n], i);
    }
  }

  /** Whether every call `Promise.all` waits for resolved. */
  predicate AllAnswered(ids: seq<int>, reply: int -> Reply<Option<seq<PrescribedMedicine>>>) {
    forall i :: 0 <= i < |ids| ==> reply(ids[i]).Answer?
  }

  /** The lines shown for one prescription: the fetched records when there are any, else the raw items. */
  function ShownLines(detailedMeds: map<int, seq<PrescribedMedicine>>, p: PrescriptionEntry): (r: seq<Line>)
    ensures p.appointmentId in detailedMeds && detailedMeds[p.appointmentId] != [] ==>
              r == DisplayLines(detailedMeds[p.appointmentId], p.prescription) &&
              |r| == |detailedMeds[p.appointmentId]|
    ensures !(p.appointmentId in detailedMeds && detailedMeds[p.appointmentId] != []) ==>
              |r| == |p.prescription| &&
              forall i :: 0 <= i < |r| ==> r[i] == Line("Medicine ID " + IntToString(p.prescription[i].medicineId), p.prescription[i].quantity)
  {
    DisplayLines(if p.appointmentId in detailedMeds then detailedMeds[p.appointmentId] else [], p.prescription)
  }

  /**
   * After the details have loaded, a prescription whose appointment is listed
   * once shows the records its own fetch returned, or its raw items when that
   * fetch returned none.
   */
  lemma ShownAfterDetails(ps: seq<PrescriptionEntry>, results: seq<Option<seq<PrescribedMedicine>>>, i: int)
    requires |results| == |ps| && 0 <= i < |ps|
    requires forall j :: i < j < |ps| ==> ps[j].appointmentId != ps[i].appointmentId
    ensures ShownLines(DetailMap(AppointmentIds(ps), results), ps[i]) ==
            DisplayLines(results[i].GetOr([]), ps[i].prescription)
  {
    DetailMapAt(AppointmentIds(ps), results, i);
  }

  /**
   * The text before the cost in the purchase alert. The page file holds the
   * rupee sign in a doubly encoded form, so the alert shows the three
   * characters U+00E2 U+201A U+00B9 where the sign was meant.
   */
  const PurchasedPrefix: string := "Prescription purchased successfully! Total cost: \U{E2}\U{201A}\U{B9}"

  class UserPrescriptionsPage {
    var prescriptions: seq<PrescriptionEntry>
    var loading: bool
    var detailedMeds: map<int, seq<PrescribedMedicine>>
    var lastAlert: Option<string>
    var sent: seq<Call>

    constructor ()
      ensures prescriptions == [] && loading && detailedMeds == map[] && lastAlert == None && sent == []
    {
      prescriptions, loading, detailedMeds, lastAlert, sent := [], true, map[], None, [];
    }

    /**
     * The `[user]` effect: with a user the list is replaced by the answer (a
     * failed fetch is swallowed) and loading ends; without one nothing happens.
     */
    method Load(user: Option<Session>, reply: Reply<Option<seq<PrescriptionEntry>>>)
      modifies this
      ensures user.None? ==> prescriptions == old(prescriptions) && loading == old(loading) && sent == old(sent)
      ensures user.Some? ==> !loading && sent == old(sent) + [Get("/users/" + IntToString(user.value.id) + "/prescriptions")]
      ensures user.Some? && reply.Answer? ==> prescriptions == reply.body.GetOr([])
      ensures user.Some? && reply.Thrown? ==> prescriptions == old(prescriptions)
      ensures detailedMeds == old(detailedMeds) && lastAlert == old(lastAlert)
    {
      if user.None? {
        return;
      }
      sent := sent + [Get("/users/" + IntToString(user.value.id) + "/prescriptions")];
      if reply.Answer? {
        prescriptions := reply.body.GetOr([]);
      }
      loading := false;
    }

    /**
     * The `[prescriptions]` effect: for a non-empty list, one call per
     * appointment; when all of them resolve the record is replaced by the one
     * the answers fill, and when any of them throws it is left as it was.
     */
    method LoadDetails(reply: int -> Reply<Option<seq<PrescribedMedicine>>>)
      modifies this
      ensures prescriptions == old(prescriptions) && loading == old(loading) && lastAlert == old(lastAlert)
      ensures prescriptions == [] ==> sent == old(sent) && detailedMeds == old(detailedMeds)
      ensures prescriptions != [] ==> sent == old(sent) + DetailCalls(AppointmentIds(prescriptions))
      ensures prescriptions != [] && !AllAnswered(AppointmentIds(prescriptions), reply) ==> detailedMeds == old(detailedMeds)
      ensures prescriptions != [] && AllAnswered(AppointmentIds(prescriptions), reply) ==>
                var ids := AppointmentIds(prescriptions);
                detailedMeds == DetailMap(ids, seq(|ids|, i requires 0 <= i < |ids| => reply(ids[i]).body))
    {
      if |prescriptions| == 0 {
        return;
      }
      var ids := AppointmentIds(prescriptions);
      sent := sent + DetailCalls(ids);
      if !AllAnswered(ids, reply) {
        return;
      }
      var results := seq(|ids|, i requires 0 <= i < |ids| => reply(ids[i]).body);
      var m := map[];
      var k := 0;
      while k < |ids|
        invariant 0 <= k <= |ids|
        invariant m == DetailMap(ids[..k], results[..k])
      {
        assert ids[..k + 1][..k] == ids[..k] && results[..k + 1][..k] == results[..k];
        m := m[ids[k] := results[k].GetOr([])];
        k := k + 1;
      }
      assert ids[..k] == ids && results[..k] == results;
      detailedMeds := m;
    }

    /**
     * `buyPrescription`: POST the appointment id; the answer or the thrown
     * message is reported and nothing else changes.
     */
    method BuyPrescription(appointmentId: int, reply: Reply<StatusReply>)
      modifies this
      ensures sent == old(sent) + [Call("POST", "/buy_prescription", PrescriptionOrderBody(appointmentId))]
      ensures Succeeded(reply) ==>
                lastAlert == Some(PurchasedPrefix + FieldText(reply.body.totalCost))
      ensures reply.Answer? && !Succeeded(reply) ==>
                lastAlert == Some(StringOr(reply.body.message, "Failed to purchase prescription"))
      ensures reply.Thrown? ==> lastAlert == Some("Error: " + reply.message)
      ensures prescriptions == old(prescriptions) && loading == old(loading) && detailedMeds == old(detailedMeds)
    {
      sent := sent + [Call("POST", "/buy_prescription", PrescriptionOrderBody(appointmentId))];
      match reply
      case Thrown(msg) => lastAlert := Some("Error: " + msg);
      case Answer(res) =>
        if res.status == "SUCCESS" {
          lastAlert := Some(PurchasedPrefix + FieldText(res.totalCost));
        } else {
          lastAlert := Some(StringOr(res.message, "Failed to purchase prescription"));
        }
    }
  }
}
