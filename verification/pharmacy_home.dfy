/**
 * The pharmacy page of frontend/src/pages/pharmacy/PharmacyHome.tsx: the
 * inventory, the restock form and the sales report.
 */
module PharmacyHome {

  import opened Wrappers
  import opened Text
  import opened Records
  import opened Wire

  /** The two form fields, as the text their controls hold. */
  datatype RestockForm = RestockForm(medicineId: string, quantity: string)

  const EmptyForm := RestockForm("", "")

  /** The restock call for a filled form: both fields go into the URL as typed. */
  function RestockCall(f: RestockForm): (c: Call)
    ensures c.verb == "POST" && c.body == NoBody
    ensures c.path == "/medicines/" + f.medicineId + "/restock?quantity=" + f.quantity
  {
    Call("POST", "/medicines/" + f.medicineId + "/restock?quantity=" + f.quantity, NoBody)
  }

  class PharmacyHomePage {
    var medicines: seq<Medicine>
    var salesReport: Option<SalesReport>
    var loading: bool
    var form: RestockForm
    var lastAlert: Option<string>
    var sent: seq<Call>

    constructor ()
      ensures medicines == [] && salesReport == None && loading && form == EmptyForm
      ensures lastAlert == None && sent == []
    {
      medicines, salesReport, loading, form, lastAlert, sent := [], None, true, EmptyForm, None, [];
    }

    /** The mount effect: the inventory (kept on failure), and loading ends either way. */
    method Load(reply: Reply<Option<seq<Medicine>>>)
      modifies this
      ensures sent == old(sent) + [Get("/medicines")] && !loading
      ensures reply.Answer? ==> medicines == reply.body.GetOr([])
      ensures reply.Thrown? ==> medicines == old(medicines)
      ensures salesReport == old(salesReport) && form == old(form) && lastAlert == old(lastAlert)
    {
      sent := sent + [Get("/medicines")];
      if reply.Answer? {
        medicines := reply.body.GetOr([]);
      }
      loading := false;
    }

    /** `loadSalesReport`: the answer replaces the shown report; a failure keeps the old one. */
    method LoadSalesReport(reply: Reply<SalesReport>)
      modifies this
      ensures sent == old(sent) + [Get("/reports/sales")]
      ensures reply.Answer? ==> salesReport == Some(reply.body)
      ensures reply.Thrown? ==> salesReport == old(salesReport)
      ensures medicines == old(medicines) && loading == old(loading) && form == old(form) && lastAlert == old(lastAlert)
    {
      sent := sent + [Get("/reports/sales")];
      if reply.Answer? {
        salesReport := Some(reply.body);
      }
    }

    /** A control of the form changed. */
    method EditForm(f: RestockForm)
      modifies this
      ensures form == f
      ensures medicines == old(medicines) && salesReport == old(salesReport) && loading == old(loading)
      ensures lastAlert == old(lastAlert) && sent == old(sent)
    {
      form := f;
    }

    /**
     * `restockMedicine`: an incomplete form is refused without a call;
     * otherwise the restock is POSTed; on SUCCESS the new stock is reported,
     * the form cleared and the inventory fetched again (a failed refetch is
     * dropped); any other answer changes nothing, a thrown call is reported.
     */
    method Restock(post: Reply<StatusReply>, refetch: Reply<Option<seq<Medicine>>>)
      modifies this
      ensures salesReport == old(salesReport) && loading == old(loading)
      ensures old(form).medicineId == "" || old(form).quantity == "" ==>
                lastAlert == Some("Please fill in all fields") && sent == old(sent) &&
                form == old(form) && medicines == old(medicines)
      ensures old(form).medicineId != "" && old(form).quantity != "" ==>
                (post.Thrown? ==>
                   sent == old(sent) + [RestockCall(old(form))] && lastAlert == Some("Error: " + post.message) &&
                   form == old(form) && medicines == old(medicines)) &&
                (post.Answer? && !Succeeded(post) ==>
                   sent == old(sent) + [RestockCall(old(form))] && lastAlert == old(lastAlert) &&
                   form == old(form) && medicines == old(medicines)) &&
                (Succeeded(post) ==>
                   sent == old(sent) + [RestockCall(old(form)), Get("/medicines")] &&
                   lastAlert == Some("Medicine restocked! New stock: " + FieldText(post.body.newStock)) &&
                   form == EmptyForm &&
                   medicines == (if refetch.Answer? then refetch.body.GetOr([]) else old(medicines)))
    {
      if form.medicineId == "" || form.quantity == "" {
        lastAlert := Some("Please fill in all fields");
        return;
      }
      sent := sent + [RestockCall(form)];
      match post
      case Thrown(msg) => lastAlert := Some("Error: " + msg);
      case Answer(res) =>
        if res.status == "SUCCESS" {
          lastAlert := Some("Medicine restocked! New stock: " + FieldText(res.newStock));
          form := EmptyForm;
          sent := sent + [Get("/medicines")];
          if refetch.Answer? {
            medicines := refetch.body.GetOr([]);
          }
        }
    }
  }
}
