/**
 * The doctors' page of frontend/src/pages/doctor/DoctorHome.tsx: the doctor
 * list, each doctor's rating summary fetched on demand, and the rating form.
 */
module DoctorHome {

  import opened Wrappers
  import opened Text
  import opened Records
  import opened Wire

  /** The three form fields, as the text their controls hold. */
  datatype RatingForm = RatingForm(doctorId: string, rating: string, userId: string)

  const EmptyForm := RatingForm("", "", "")

  /** `!doctorId || !rating || !userId`: some field is the empty string. */
  predicate Incomplete(f: RatingForm) {
    f.doctorId == "" || f.rating == "" || f.userId == ""
  }

  /**
   * The average the summary shows: `sum(ratings)/len(ratings)`, or null for
   * no ratings, as the server computes it; the page shows `N/A` for a falsy
   * average, that is null or 0.
   */
  function AverageShown(r: RatingSummary): (shown: Option<real>)
    ensures shown.None? <==> r.numRatings == 0 || r.ratingSum == 0
    ensures shown.Some? ==> shown.value != 0.0 && shown.value * (r.numRatings as real) == r.ratingSum as real
  {
    if r.numRatings == 0 then None
    else
      var avg := (r.ratingSum as real) / (r.numRatings as real);
      assert avg * (r.numRatings as real) == r.ratingSum as real;
      if avg == 0.0 then None else Some(avg)
  }

  /**
   * The reload after a rating targets the rated doctor: for a doctor chosen
   * in the select, whose value is the printed id, the `parseInt` of that
   * value prints back to it, so the GET reads the ratings the POST wrote.
   */
  lemma ReloadTargetsRatedDoctor(id: int)
    ensures ParseInt(IntToString(id)) == Int(id)
    ensures NumText(ParseInt(IntToString(id))) == IntToString(id)
  {
    ParseIntOfText(id);
  }

  class DoctorHomePage {
    var doctors: seq<Doctor>
    var ratings: map<Num, RatingSummary>
    var form: RatingForm
    var lastAlert: Option<string>
    var sent: seq<Call>

    constructor ()
      ensures doctors == [] && ratings == map[] && form == EmptyForm && lastAlert == None && sent == []
    {
      doctors, ratings, form, lastAlert, sent := [], map[], EmptyForm, None, [];
    }

    /** The `/doctors` effect; a rejected fetch changes nothing. */
    method LoadDoctors(reply: Reply<Option<seq<Doctor>>>)
      modifies this
      ensures sent == old(sent) + [Get("/doctors")]
      ensures reply.Answer? ==> doctors == reply.body.GetOr([])
      ensures reply.Thrown? ==> doctors == old(doctors)
      ensures ratings == old(ratings) && form == old(form) && lastAlert == old(lastAlert)
    {
      sent := sent + [Get("/doctors")];
      if reply.Answer? {
        doctors := reply.body.GetOr([]);
      }
    }

    /** `loadDoctorRating`: the answer is stored under that doctor id, other entries kept; a failure is swallowed. */
    method LoadDoctorRating(doctorId: Num, reply: Reply<RatingSummary>)
      modifies this
      ensures sent == old(sent) + [Get("/ratings/" + NumText(doctorId))]
      ensures reply.Answer? ==> ratings == old(ratings)[doctorId := reply.body]
      ensures reply.Thrown? ==> ratings == old(ratings)
      ensures doctors == old(doctors) && form == old(form) && lastAlert == old(lastAlert)
    {
      sent := sent + [Get("/ratings/" + NumText(doctorId))];
      if reply.Answer? {
        ratings := ratings[doctorId := reply.body];
      }
    }

    /** A control of the form changed. */
    method EditForm(f: RatingForm)
      modifies this
      ensures form == f
      ensures doctors == old(doctors) && ratings == old(ratings) && lastAlert == old(lastAlert) && sent == old(sent)
    {
      form := f;
    }

    /**
     * `submitRating`: an incomplete form is refused without a call; otherwise
     * the rating is sent for the form as it stands.
     */
    method SubmitRating(post: Reply<StatusReply>, reload: Reply<RatingSummary>)
      modifies this
      ensures doctors == old(doctors)
      ensures Incomplete(old(form)) ==>
                lastAlert == Some("Please fill in all fields") && sent == old(sent) &&
                form == old(form) && ratings == old(ratings)
      ensures !Incomplete(old(form)) ==> Rated(old(form), old(sent), old(ratings), old(lastAlert), post, reload)
    {
      if Incomplete(form) {
        lastAlert := Some("Please fill in all fields");
        return;
      }
      SendRating(post, reload);
    }

    /**
     * The state after the form `typed` was sent: the `parseInt` of the user
     * id and rating are POSTed for the doctor id as typed; on SUCCESS the user
     * is told, the form is cleared and that doctor's rating is reloaded; any
     * other answer changes nothing, and a thrown call is reported.
     */
    ghost predicate Rated(typed: RatingForm, sent0: seq<Call>, ratings0: map<Num, RatingSummary>, alert0: Option<string>,
                          post: Reply<StatusReply>, reload: Reply<RatingSummary>)
      reads this
    {
      var postCall := Call("POST", "/ratings/" + typed.doctorId, RatingBody(ParseInt(typed.userId), ParseInt(typed.rating)));
      var key := ParseInt(typed.doctorId);
      (post.Thrown? ==>
         sent == sent0 + [postCall] && lastAlert == Some("Error: " + post.message) &&
         form == typed && ratings == ratings0) &&
      (post.Answer? && !Succeeded(post) ==>
         sent == sent0 + [postCall] && lastAlert == alert0 && form == typed && ratings == ratings0) &&
      (Succeeded(post) ==>
         sent == sent0 + [postCall, Get("/ratings/" + NumText(key))] &&
         lastAlert == Some("Rating submitted successfully!") && form == EmptyForm &&
         ratings == (if reload.Answer? then ratings0[key := reload.body] else ratings0))
    }

    method SendRating(post: Reply<StatusReply>, reload: Reply<RatingSummary>)
      modifies this
      ensures doctors == old(doctors)
      ensures Rated(old(form), old(sent), old(ratings), old(lastAlert), post, reload)
    {
      var typed := form;
      sent := sent + [Call("POST", "/ratings/" + typed.doctorId, RatingBody(ParseInt(typed.userId), ParseInt(typed.rating)))];
      match post
      case Thrown(msg) => lastAlert := Some("Error: " + msg);
      case Answer(res) =>
        if res.status == "SUCCESS" {
          lastAlert := Some("Rating submitted successfully!");
          form := EmptyForm;
          LoadDoctorRating(ParseInt(typed.doctorId), reload);
        }
    }
  }
}
