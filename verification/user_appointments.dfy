/**
 * The appointment list of frontend/src/pages/patient/UserAppointments.tsx:
 * loading the signed-in user's appointments, the doctor labels, cancelling
 * one appointment, and the text each listed appointment shows.
 */
module UserAppointments {

  import opened Wrappers
  import opened Seqs
  import opened Text
  import opened Records
  import opened Wire
  import opened Catalog

  /** The `apt.id !== appointmentId` filter test. */
  function OtherThan(id: int): Appointment -> bool {
    (a: Appointment) => a.id != id
  }

  /** The list after the cancelled appointment is dropped. */
  function WithoutAppointment(apps: seq<Appointment>, id: int): (r: seq<Appointment>)
    ensures Subseq(r, apps)
    ensures forall a :: a in r <==> a in apps && a.id != id
  {
    FilterIsSubseq(OtherThan(id), apps);
    Filter(OtherThan(id), apps)
  }

  /** Dropping an id no listed appointment has leaves the list as it was. */
  lemma WithoutUnlistedIsNoop(apps: seq<Appointment>, id: int)
    requires forall i :: 0 <= i < |apps| ==> apps[i].id != id
    ensures WithoutAppointment(apps, id) == apps
  {
    FilterKeepsAll(OtherThan(id), apps);
  }

  /** Dropping the same id twice is dropping it once. */
  lemma WithoutTwiceIsOnce(apps: seq<Appointment>, id: int)
    ensures WithoutAppointment(WithoutAppointment(apps, id), id) == WithoutAppointment(apps, id)
  {
    var r := WithoutAppointment(apps, id);
    forall i | 0 <= i < |r| ensures r[i].id != id {
      assert r[i] in r;
    }
    WithoutUnlistedIsNoop(r, id);
  }

  /** The doctor line: the label, or `ID ${doctor_id}` when the doctor is unknown. */
  function DoctorLine(doctorNameById: map<int, string>, a: Appointment): (r: string)
    ensures a.doctorId in doctorNameById && doctorNameById[a.doctorId] != "" ==> r == doctorNameById[a.doctorId]
    ensures !(a.doctorId in doctorNameById && doctorNameById[a.doctorId] != "") ==> r == "ID " + IntToString(a.doctorId)
  {
    LabelOr(doctorNameById, a.doctorId, "ID ")
  }

  /**
   * Once the doctors have loaded, an appointment with a fetched doctor shows
   * that doctor's label (its last listing), which begins with the doctor's name.
   */
  lemma DoctorLineNamesDoctor(doctors: seq<Doctor>, a: Appointment, i: int)
    requires 0 <= i < |doctors| && doctors[i].id == a.doctorId
    requires forall j :: i < j < |doctors| ==> doctors[j].id != doctors[i].id
    ensures DoctorLine(LabelMap(doctors), a) == Label(doctors[i])
    ensures DoctorLine(LabelMap(doctors), a)[..|doctors[i].name|] == doctors[i].name
  {
    LastListingWins(doctors, i);
    LabelsNonEmpty(doctors);
  }

  /** An appointment whose doctor was not fetched shows `ID ${doctor_id}`. */
  lemma DoctorLineOfUnknown(doctors: seq<Doctor>, a: Appointment)
    requires forall i :: 0 <= i < |doctors| ==> doctors[i].id != a.doctorId
    ensures DoctorLine(LabelMap(doctors), a) == "ID " + IntToString(a.doctorId)
  {
  }

  /** The symptoms line, shown only when symptoms were recorded: them, joined by `, `. */
  function SymptomsLine(a: Appointment): (r: Option<string>)
    ensures r.None? <==> a.symptoms == []
    ensures |a.symptoms| == 1 ==> r == Some(a.symptoms[0])
    ensures r.Some? ==> forall i :: 0 <= i < |a.symptoms| ==> Contains(r.value, a.symptoms[i])
  {
    if |a.symptoms| > 0 then
      JoinContainsAll(a.symptoms, ", ");
      Some(Join(a.symptoms, ", "))
    else None
  }

  class UserAppointmentsPage {
    var appointments: seq<Appointment>
    var loading: bool
    var doctors: seq<Doctor>
    var doctorNameById: map<int, string>
    var lastAlert: Option<string>
    var sent: seq<Call>

    constructor ()
      ensures appointments == [] && loading && doctors == [] && doctorNameById == map[]
      ensures lastAlert == None && sent == []
    {
      appointments, loading, doctors, doctorNameById := [], true, [], map[];
      lastAlert, sent := None, [];
    }

    /**
     * The `[user]` effect: without a user nothing is fetched and the page
     * keeps loading; with one, the list is replaced by the answer (a failed
     * fetch is swallowed) and loading ends either way.
     */
    method Load(user: Option<Session>, reply: Reply<Option<seq<Appointment>>>)
      modifies this
      ensures user.None? ==> appointments == old(appointments) && loading == old(loading) && sent == old(sent)
      ensures user.Some? ==> !loading && sent == old(sent) + [Get("/users/" + IntToString(user.value.id) + "/appointments")]
      ensures user.Some? && reply.Answer? ==> appointments == reply.body.GetOr([])
      ensures user.Some? && reply.Thrown? ==> appointments == old(appointments)
      ensures doctors == old(doctors) && doctorNameById == old(doctorNameById) && lastAlert == old(lastAlert)
    {
      if user.None? {
        return;
      }
      sent := sent + [Get("/users/" + IntToString(user.value.id) + "/appointments")];
      if reply.Answer? {
        appointments := reply.body.GetOr([]);
      }
      loading := false;
    }

    /** The `/doctors` effect and the label map memoised from it; a rejected fetch changes nothing. */
    method LoadDoctors(reply: Reply<Option<seq<Doctor>>>)
      modifies this
      ensures sent == old(sent) + [Get("/doctors")]
      ensures reply.Answer? ==> doctors == reply.body.GetOr([]) && doctorNameById == LabelMap(doctors)
      ensures reply.Thrown? ==> doctors == old(doctors) && doctorNameById == old(doctorNameById)
      ensures appointments == old(appointments) && loading == old(loading) && lastAlert == old(lastAlert)
    {
      sent := sent + [Get("/doctors")];
      if reply.Answer? {
        var list := reply.body.GetOr([]);
        doctors := list;
        doctorNameById := BuildLabelMap(list);
      }
    }

    /**
     * `cancelAppointment`: DELETE the appointment; on SUCCESS it leaves the
     * list and the user is told; any other answer changes nothing; a thrown
     * call is reported.
     */
    method Cancel(id: int, reply: Reply<StatusReply>)
      modifies this
      ensures sent == old(sent) + [Call("DELETE", "/appointments/" + IntToString(id), NoBody)]
      ensures Succeeded(reply) ==>
                appointments == WithoutAppointment(old(appointments), id) &&
                lastAlert == Some("Appointment cancelled successfully!")
      ensures reply.Answer? && !Succeeded(reply) ==> appointments == old(appointments) && lastAlert == old(lastAlert)
      ensures reply.Thrown? ==> appointments == old(appointments) && lastAlert == Some("Error: " + reply.message)
      ensures loading == old(loading) && doctors == old(doctors) && doctorNameById == old(doctorNameById)
    {
      sent := sent + [Call("DELETE", "/appointments/" + IntToString(id), NoBody)];
      if reply.Thrown? {
        lastAlert := Some("Error: " + reply.message);
      } else if reply.body.status == "SUCCESS" {
        appointments := WithoutAppointment(appointments, id);
        lastAlert := Some("Appointment cancelled successfully!");
      }
    }
  }
}
