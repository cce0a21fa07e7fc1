/**
 * The booking page of frontend/src/pages/patient/BookAppointment.tsx: the
 * doctor list and its label map, the doctor choice (from the `doctor` URL
 * parameter or the select) with the slot fetch it triggers, and the submit
 * handler with its guards.
 */
module BookAppointment {

  import opened Wrappers
  import opened Text
  import opened Records
  import opened Wire
  import opened Catalog

  /** `v === "" ? null : Number(v)`: the doctor choice a select value or URL parameter gives. */
  function Choice(v: string): (r: Option<Num>)
    ensures v == "" <==> r.None?
    ensures v != "" ==> r.value == ParseNumber(v)
  {
    if v == "" then None else Some(ParseNumber(v))
  }

  /** Every doctor option's value, an id printed as text, chooses exactly that id. */
  lemma ChoiceOfText(n: int)
    ensures Choice(IntToString(n)) == Some(Int(n))
  {
    ParseNumberOfText(n);
  }

  /** `!doctorId || !selectedSlot`: the submit guard, which rejects doctor 0 and NaN as well as no doctor. */
  predicate MissingChoice(doctorId: Option<Num>, slot: string) {
    doctorId.None? || !Truthy(doctorId.value) || slot == ""
  }

  /** The guard turns away the first doctor of the table, whose id is 0. */
  lemma DoctorZeroRejected(slot: string)
    ensures MissingChoice(Choice("0"), slot)
  {
    ParseNumberOfText(0);
  }

  /** Any doctor chosen by a positive id, with a slot, passes the guard. */
  lemma PositiveDoctorAccepted(id: int, slot: string)
    requires id > 0 && slot != ""
    ensures !MissingChoice(Choice(IntToString(id)), slot)
  {
    ParseNumberOfText(id);
  }

  class BookAppointmentPage {
    var doctors: seq<Doctor>
    var doctorMap: map<int, string>
    var doctorId: Option<Num>
    var slots: seq<string>
    var selectedSlot: string
    var message: string
    var lastAlert: Option<string>
    var navigatedTo: Option<string>
    var sent: seq<Call>

    constructor ()
      ensures doctors == [] && doctorMap == map[] && doctorId == None && slots == [] && selectedSlot == ""
      ensures message == "" && lastAlert == None && navigatedTo == None && sent == []
    {
      doctors, doctorMap, doctorId, slots, selectedSlot := [], map[], None, [], "";
      message, lastAlert, navigatedTo, sent := "", None, None, [];
    }

    /** The `/doctors` effect: the list and its label map; a failed fetch changes nothing. */
    method LoadDoctors(reply: Reply<Option<seq<Doctor>>>)
      modifies this
      ensures sent == old(sent) + [Get("/doctors")]
      ensures reply.Answer? ==> doctors == reply.body.GetOr([]) && doctorMap == LabelMap(doctors)
      ensures reply.Thrown? ==> doctors == old(doctors) && doctorMap == old(doctorMap)
      ensures doctorId == old(doctorId) && slots == old(slots) && selectedSlot == old(selectedSlot)
      ensures message == old(message) && lastAlert == old(lastAlert) && navigatedTo == old(navigatedTo)
    {
      sent := sent + [Get("/doctors")];
      if reply.Answer? {
        var list := reply.body.GetOr([]);
        doctors := list;
        doctorMap := BuildLabelMap(list);
      }
    }

    /**
     * `setDoctorId` followed by the `[doctorId]` effect: when the choice
     * changes to a doctor, that doctor's free slots are fetched and replace
     * `slots`; a failed fetch keeps the previous slots.
     */
    method ChooseDoctor(choice: Option<Num>, reply: Reply<Option<seq<string>>>)
      modifies this
      ensures doctorId == choice
      ensures choice != old(doctorId) && choice.Some? ==>
                sent == old(sent) + [Get("/doctors/" + NumText(choice.value) + "/available")] &&
                (reply.Answer? ==> slots == reply.body.GetOr([])) &&
                (reply.Thrown? ==> slots == old(slots))
      ensures !(choice != old(doctorId) && choice.Some?) ==> sent == old(sent) && slots == old(slots)
      ensures doctors == old(doctors) && doctorMap == old(doctorMap) && selectedSlot == old(selectedSlot)
      ensures message == old(message) && lastAlert == old(lastAlert) && navigatedTo == old(navigatedTo)
    {
      var changed := choice != doctorId;
      doctorId := choice;
      if changed && choice.Some? {
        sent := sent + [Get("/doctors/" + NumText(choice.value) + "/available")];
        if reply.Answer? {
          slots := reply.body.GetOr([]);
        }
      }
    }

    /** The URL effect: a non-empty `doctor` parameter pre-selects `Number(param)`. */
    method Preselect(doctorParam: Option<string>, reply: Reply<Option<seq<string>>>)
      modifies this
      ensures doctorParam.Some? && doctorParam.value != "" ==>
                var choice := Some(ParseNumber(doctorParam.value));
                doctorId == choice &&
                (choice != old(doctorId) ==>
                   sent == old(sent) + [Get("/doctors/" + NumText(choice.value) + "/available")] &&
                   (reply.Answer? ==> slots == reply.body.GetOr([])) &&
                   (reply.Thrown? ==> slots == old(slots))) &&
                (choice == old(doctorId) ==> sent == old(sent) && slots == old(slots))
      ensures !(doctorParam.Some? && doctorParam.value != "") ==> doctorId == old(doctorId) && sent == old(sent) && slots == old(slots)
      ensures doctors == old(doctors) && doctorMap == old(doctorMap) && selectedSlot == old(selectedSlot)
      ensures message == old(message) && lastAlert == old(lastAlert) && navigatedTo == old(navigatedTo)
    {
      if doctorParam.Some? && doctorParam.value != "" {
        ChooseDoctor(Some(ParseNumber(doctorParam.value)), reply);
      }
    }

    /** The doctor select's `onChange`. */
    method SelectDoctor(v: string, reply: Reply<Option<seq<string>>>)
      modifies this
      ensures doctorId == Choice(v)
      ensures Choice(v) != old(doctorId) && v != "" ==>
                sent == old(sent) + [Get("/doctors/" + NumText(ParseNumber(v)) + "/available")] &&
                (reply.Answer? ==> slots == reply.body.GetOr([])) &&
                (reply.Thrown? ==> slots == old(slots))
      ensures Choice(v) == old(doctorId) || v == "" ==> sent == old(sent) && slots == old(slots)
      ensures doctors == old(doctors) && doctorMap == old(doctorMap) && selectedSlot == old(selectedSlot)
      ensures message == old(message) && lastAlert == old(lastAlert) && navigatedTo == old(navigatedTo)
    {
      ChooseDoctor(Choice(v), reply);
    }

    method SelectSlot(v: string)
      modifies this
      ensures selectedSlot == v
      ensures doctors == old(doctors) && doctorMap == old(doctorMap) && doctorId == old(doctorId) && slots == old(slots)
      ensures message == old(message) && lastAlert == old(lastAlert) && navigatedTo == old(navigatedTo) && sent == old(sent)
    {
      selectedSlot := v;
    }

    /**
     * `handleSubmit`: no user, or a missing doctor or slot, sets the message
     * without a call; otherwise one `/book` call, and on SUCCESS a confirmation
     * naming the doctor's label and navigation to `/patient`.
     */
    method Submit(user: Option<Session>, reply: Reply<StatusReply>)
      modifies this
      ensures doctors == old(doctors) && doctorMap == old(doctorMap) && doctorId == old(doctorId)
      ensures slots == old(slots) && selectedSlot == old(selectedSlot)
      ensures user.None? ==> sent == old(sent) && message == "Please login first" &&
                             lastAlert == old(lastAlert) && navigatedTo == old(navigatedTo)
      ensures user.Some? && MissingChoice(doctorId, selectedSlot) ==>
                sent == old(sent) && message == "Please select doctor and time slot" &&
                lastAlert == old(lastAlert) && navigatedTo == old(navigatedTo)
      ensures user.Some? && !MissingChoice(doctorId, selectedSlot) ==>
                var id := doctorId.value.value;
                sent == old(sent) + [Call("POST", "/book", BookingBody(user.value.id, id, selectedSlot))] &&
                (reply.Thrown? ==> message == reply.message && lastAlert == old(lastAlert) && navigatedTo == old(navigatedTo)) &&
                (Succeeded(reply) ==>
                   lastAlert == Some("Appointment booked with " + (if id in doctorMap then doctorMap[id] else "undefined")) &&
                   navigatedTo == Some("/patient") && message == old(message)) &&
                (reply.Answer? && !Succeeded(reply) ==>
                   message == StringOr(reply.body.message, "Failed to book appointment") &&
                   lastAlert == old(lastAlert) && navigatedTo == old(navigatedTo))
    {
      if user.None? {
        message := "Please login first";
        return;
      }
      if MissingChoice(doctorId, selectedSlot) {
        message := "Please select doctor and time slot";
        return;
      }
      var id := doctorId.value.value;
      sent := sent + [Call("POST", "/book", BookingBody(user.value.id, id, selectedSlot))];
      if reply.Thrown? {
        message := reply.message;
      } else if reply.body.status == "SUCCESS" {
        var docName := if id in doctorMap then doctorMap[id] else "undefined";
        lastAlert := Some("Appointment booked with " + docName);
        navigatedTo := Some("/patient");
      } else {
        message := StringOr(reply.body.message, "Failed to book appointment");
      }
    }
  }
}
