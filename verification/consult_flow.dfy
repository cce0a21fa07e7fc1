/**
 * The consultation page of frontend/src/pages/patient/ConsultFlow.tsx: the
 * doctor label map, the user's appointments with the default pick, symptom
 * normalisation, the submit pipeline (`/consult`, then the scoped medicine
 * fetch) and the prescription display.
 */
module ConsultFlow {

  import opened Wrappers
  import opened Seqs
  import opened Text
  import opened Records
  import opened Wire
  import opened Catalog

  function TrimAll(pieces: seq<string>): (r: seq<string>)
    ensures |r| == |pieces| && forall i :: 0 <= i < |r| ==> r[i] == Trim(pieces[i])
  {
    seq(|pieces|, i requires 0 <= i < |pieces| => Trim(pieces[i]))
  }

  function NonEmpty(): string -> bool {
    (s: string) => s != ""
  }

  /**
   * `symptoms.split(",").map(s => s.trim()).filter(Boolean)`: the trimmed
   * comma-separated pieces, in input order, without the empty ones.
   */
  function NormalizeSymptoms(text: string): seq<string> {
    Filter(NonEmpty(), TrimAll(Split(text, ',')))
  }

  /**
   * The tokens are exactly the non-empty trimmed pieces, in input order:
   * none is empty, none has whitespace at either end and none holds a comma.
   */
  lemma NormalizedTokens(text: string)
    ensures Subseq(NormalizeSymptoms(text), TrimAll(Split(text, ',')))
    ensures forall t :: t in NormalizeSymptoms(text) <==> t in TrimAll(Split(text, ',')) && t != ""
    ensures forall t :: t in NormalizeSymptoms(text) ==> t != "" && !IsSpace(t[0]) && !IsSpace(t[|t| - 1]) && ',' !in t
  {
    var trimmed := TrimAll(Split(text, ','));
    var r := NormalizeSymptoms(text);
    TrimAllKeepsOut(Split(text, ','), ',');
    FilterIsSubseq(NonEmpty(), trimmed);
    assert forall t :: t in r <==> t in trimmed && NonEmpty()(t);
    forall t | t in r ensures t != "" && !IsSpace(t[0]) && !IsSpace(t[|t| - 1]) && ',' !in t {
      var i :| 0 <= i < |trimmed| && trimmed[i] == t;
      assert t == Trim(Split(text, ',')[i]);
    }
  }

  /** Trimming pieces that lack a character gives pieces that lack it too. */
  lemma TrimAllKeepsOut(pieces: seq<string>, c: char)
    requires forall p :: p in pieces ==> c !in p
    ensures forall t :: t in TrimAll(pieces) ==> c !in t
  {
    var trimmed := TrimAll(pieces);
    forall t | t in trimmed ensures c !in t {
      var i :| 0 <= i < |trimmed| && trimmed[i] == t;
      assert pieces[i] in pieces;
      TrimKeepsChars(pieces[i]);
    }
  }

  /** Every character of a trimmed string is a character of the string. */
  lemma TrimKeepsChars(s: string)
    ensures forall c :: c in Trim(s) ==> c in s
  {
    var r := Trim(s);
    var i :| TrimmedAt(r, s, i);
    forall c | c in r ensures c in s {
      var j :| 0 <= j < |r| && r[j] == c;
      assert s[i..i + |r|][j] == s[i + j];
    }
  }

  /** Text made only of commas and whitespace gives no symptoms. */
  lemma {:induction false} BlankPiecesGiveNothing(text: string)
    requires forall c :: c in text ==> c == ',' || IsSpace(c)
    ensures NormalizeSymptoms(text) == []
  {
    var pieces := Split(text, ',');
    var trimmed := TrimAll(pieces);
    forall i | 0 <= i < |trimmed| ensures trimmed[i] == "" {
      assert pieces[i] in pieces;
      forall k | 0 <= k < |pieces[i]| ensures IsSpace(pieces[i][k]) {
        var c := pieces[i][k];
        JoinChars(pieces, [','], c);
        assert c in pieces[i];
      }
    }
    FilterDropsAll(NonEmpty(), trimmed);
  }

  /** `apps[apps.length - 1].id`: the default appointment is the last listed, whatever the ids. */
  function DefaultAppointment(apps: seq<Appointment>): (r: Option<int>)
    ensures apps == [] <==> r.None?
    ensures r.Some? ==> r.value == apps[|apps| - 1].id
  {
    if apps == [] then None else Some(apps[|apps| - 1].id)
  }

  /** The pick is by position: a later, smaller id wins over an earlier, larger one. */
  lemma DefaultIsLastNotLargest()
    ensures var apps := [Appointment(5, 1, 0, "10:00", [], []), Appointment(3, 1, 2, "10:30", [], [])];
            DefaultAppointment(apps) == Some(3)
  {
  }

  /** `#${a.id} • ${a.time_slot} • ${doctorMap[a.doctor_id] || `Doctor ${a.doctor_id}`}`. */
  function AppointmentOption(doctorMap: map<int, string>, a: Appointment): string {
    "#" + IntToString(a.id) + " • " + a.timeSlot + " • " + LabelOr(doctorMap, a.doctorId, "Doctor ")
  }

  /** What `result` holds: an error, or the diagnosis `/consult` answered. */
  datatype ConsultResult = ErrorResult(error: string) | DiagnosisResult(diagnosis: Diagnosis)

  class ConsultFlowPage {
    var doctors: seq<Doctor>
    var doctorMap: map<int, string>
    var symptoms: string
    var result: Option<ConsultResult>
    var appointments: seq<Appointment>
    var appointmentId: Option<Num>
    var appointmentMeds: seq<PrescribedMedicine>
    var sent: seq<Call>

    constructor ()
      ensures doctors == [] && doctorMap == map[] && symptoms == "" && result == None
      ensures appointments == [] && appointmentId == None && appointmentMeds == [] && sent == []
    {
      doctors, doctorMap, symptoms, result := [], map[], "", None;
      appointments, appointmentId, appointmentMeds, sent := [], None, [], [];
    }

    /** The `/doctors` effect: the list and its label map; a failed fetch changes nothing. */
    method LoadDoctors(reply: Reply<Option<seq<Doctor>>>)
      modifies this
      ensures sent == old(sent) + [Get("/doctors")]
      ensures reply.Answer? ==> doctors == reply.body.GetOr([]) && doctorMap == LabelMap(doctors)
      ensures reply.Thrown? ==> doctors == old(doctors) && doctorMap == old(doctorMap)
      ensures symptoms == old(symptoms) && result == old(result) && appointments == old(appointments)
      ensures appointmentId == old(appointmentId) && appointmentMeds == old(appointmentMeds)
    {
      sent := sent + [Get("/doctors")];
      if reply.Answer? {
        var list := reply.body.GetOr([]);
        doctors := list;
        doctorMap := BuildLabelMap(list);
      }
    }

    /**
     * The `[user]` effect: with a user, the appointment list is fetched and its
     * last element becomes the selected appointment; an empty list selects nothing new.
     */
    method LoadAppointments(user: Option<Session>, reply: Reply<Option<seq<Appointment>>>)
      modifies this
      ensures user.None? ==> sent == old(sent) && appointments == old(appointments) && appointmentId == old(appointmentId)
      ensures user.Some? ==> sent == old(sent) + [Get("/users/" + IntToString(user.value.id) + "/appointments")]
      ensures user.Some? && reply.Answer? ==>
                appointments == reply.body.GetOr([]) &&
                (appointments != [] ==> appointmentId == Some(Int(appointments[|appointments| - 1].id))) &&
                (appointments == [] ==> appointmentId == old(appointmentId))
      ensures user.Some? && reply.Thrown? ==> appointments == old(appointments) && appointmentId == old(appointmentId)
      ensures doctors == old(doctors) && doctorMap == old(doctorMap) && symptoms == old(symptoms)
      ensures result == old(result) && appointmentMeds == old(appointmentMeds)
    {
      if user.None? {
        return;
      }
      sent := sent + [Get("/users/" + IntToString(user.value.id) + "/appointments")];
      if reply.Answer? {
        var apps := reply.body.GetOr([]);
        appointments := apps;
        match DefaultAppointment(apps)
        case Some(id) => appointmentId := Some(Int(id));
        case None =>
      }
    }

    method SelectAppointment(v: string)
      modifies this
      ensures appointmentId == (if v == "" then None else Some(ParseNumber(v)))
      ensures doctors == old(doctors) && doctorMap == old(doctorMap) && symptoms == old(symptoms) && result == old(result)
      ensures appointments == old(appointments) && appointmentMeds == old(appointmentMeds) && sent == old(sent)
    {
      appointmentId := if v == "" then None else Some(ParseNumber(v));
    }

    method EnterSymptoms(text: string)
      modifies this
      ensures symptoms == text
      ensures doctors == old(doctors) && doctorMap == old(doctorMap) && result == old(result)
      ensures appointments == old(appointments) && appointmentId == old(appointmentId)
      ensures appointmentMeds == old(appointmentMeds) && sent == old(sent)
    {
      symptoms := text;
    }

    /**
     * `handleSubmit`: three guards, in order, each storing its error without a
     * call; past them, the consultation is sent for the selected appointment.
     */
    method Submit(user: Option<Session>, consult: Reply<Diagnosis>, meds: Reply<Option<seq<PrescribedMedicine>>>)
      modifies this
      ensures doctors == old(doctors) && doctorMap == old(doctorMap) && symptoms == old(symptoms)
      ensures appointments == old(appointments) && appointmentId == old(appointmentId)
      ensures user.None? ==>
                result == Some(ErrorResult("Please login first")) && sent == old(sent) &&
                appointmentMeds == old(appointmentMeds)
      ensures user.Some? && NormalizeSymptoms(symptoms) == [] ==>
                result == Some(ErrorResult("Please enter your symptoms")) && sent == old(sent) &&
                appointmentMeds == old(appointmentMeds)
      ensures user.Some? && NormalizeSymptoms(symptoms) != [] && !(appointmentId.Some? && Truthy(appointmentId.value)) ==>
                result == Some(ErrorResult("Please book or select an appointment first")) && sent == old(sent) &&
                appointmentMeds == old(appointmentMeds)
      ensures user.Some? && NormalizeSymptoms(symptoms) != [] && appointmentId.Some? && Truthy(appointmentId.value) ==>
                Consulted(old(sent), old(appointmentMeds), appointmentId.value.value, NormalizeSymptoms(symptoms), consult, meds)
    {
      if user.None? {
        result := Some(ErrorResult("Please login first"));
        return;
      }
      var symptomList := NormalizeSymptoms(symptoms);
      if |symptomList| == 0 {
        result := Some(ErrorResult("Please enter your symptoms"));
        return;
      }
      if appointmentId.None? || !Truthy(appointmentId.value) {
        result := Some(ErrorResult("Please book or select an appointment first"));
        return;
      }
      SendConsult(appointmentId.value.value, symptomList, consult, meds);
    }

    /**
     * The state after the consultation of appointment `id` was sent: the
     * `/consult` answer is stored, then the scoped medicine fetch follows, and
     * a failure of either overwrites the result with its message.
     */
    ghost predicate Consulted(sent0: seq<Call>, meds0: seq<PrescribedMedicine>, id: int, symptomList: seq<string>,
                              consult: Reply<Diagnosis>, meds: Reply<Option<seq<PrescribedMedicine>>>)
      reads this
    {
      var consultCall := Call("POST", "/consult", ConsultBody(id, symptomList));
      var medsCall := Get("/medicines?appointment_id=" + IntToString(id));
      (consult.Thrown? ==>
         sent == sent0 + [consultCall] && result == Some(ErrorResult(consult.message)) && appointmentMeds == meds0) &&
      (consult.Answer? ==> sent == sent0 + [consultCall, medsCall]) &&
      (consult.Answer? && meds.Thrown? ==>
         result == Some(ErrorResult(meds.message)) && appointmentMeds == meds0) &&
      (consult.Answer? && meds.Answer? ==>
         result == Some(DiagnosisResult(consult.body)) && appointmentMeds == meds.body.GetOr([]))
    }

    method SendConsult(id: int, symptomList: seq<string>, consult: Reply<Diagnosis>, meds: Reply<Option<seq<PrescribedMedicine>>>)
      modifies this
      ensures doctors == old(doctors) && doctorMap == old(doctorMap) && symptoms == old(symptoms)
      ensures appointments == old(appointments) && appointmentId == old(appointmentId)
      ensures Consulted(old(sent), old(appointmentMeds), id, symptomList, consult, meds)
    {
      sent := sent + [Call("POST", "/consult", ConsultBody(id, symptomList))];
      if consult.Thrown? {
        result := Some(ErrorResult(consult.message));
        return;
      }
      result := Some(DiagnosisResult(consult.body));
      sent := sent + [Get("/medicines?appointment_id=" + IntToString(id))];
      if meds.Thrown? {
        result := Some(ErrorResult(meds.message));
        return;
      }
      appointmentMeds := meds.body.GetOr([]);
    }

    /** The prescription list shown under a diagnosis: scoped records if any, else the raw prescription. */
    function ShownPrescription(): (lines: Option<seq<Line>>)
      reads this
      ensures lines.Some? <==> result.Some? && result.value.DiagnosisResult?
      ensures lines.Some? && appointmentMeds == [] ==> |lines.value| == |result.value.diagnosis.prescription|
      ensures lines.Some? && appointmentMeds != [] ==> |lines.value| == |appointmentMeds|
      ensures lines.Some? && appointmentMeds != [] ==> forall i :: 0 <= i < |lines.value| ==>
                lines.value[i].quantity == appointmentMeds[i].quantity &&
                lines.value[i].text == (if appointmentMeds[i].medicine.name != "" then appointmentMeds[i].medicine.name
                                        else "Medicine ID undefined")
      ensures lines.Some? && appointmentMeds == [] ==> forall i :: 0 <= i < |lines.value| ==>
                var p := result.value.diagnosis.prescription;
                lines.value[i] == Line("Medicine ID " + IntToString(p[i].medicineId), p[i].quantity)
    {
      match result
      case Some(DiagnosisResult(d)) => Some(DisplayLines(appointmentMeds, d.prescription))
      case _ => None
    }
  }
}
