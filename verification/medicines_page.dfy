/**
 * The pharmacy page of frontend/src/pages/patient/Medicines.tsx: the medicine
 * list, and the cart ledger of `{medicine_id, quantity}` lines with its add,
 * remove and checkout handlers.
 */
module MedicinesPage {

  import opened Wrappers
  import opened Seqs
  import opened Text
  import opened Records
  import opened Wire

  /** `prev.find(item => item.medicine_id === id)` finds a line. */
  predicate InCart(cart: seq<Item>, id: int) {
    exists i :: 0 <= i < |cart| && cart[i].medicineId == id
  }

  /** The cart as the handlers keep it: one line per medicine, each with a quantity of at least 1. */
  ghost predicate CartOk(cart: seq<Item>) {
    (forall i, j :: 0 <= i < j < |cart| ==> cart[i].medicineId != cart[j].medicineId) &&
    (forall i :: 0 <= i < |cart| ==> cart[i].quantity >= 1)
  }

  /**
   * `addToCart`: a medicine already in the cart gets one more on its line, in
   * place; a new medicine is appended with quantity 1.
   */
  function AddToCart(cart: seq<Item>, id: int): (r: seq<Item>)
    ensures InCart(cart, id) ==>
              |r| == |cart| &&
              forall i :: 0 <= i < |cart| ==>
                r[i] == (if cart[i].medicineId == id then cart[i].(quantity := cart[i].quantity + 1) else cart[i])
    ensures !InCart(cart, id) ==> r == cart + [Item(id, 1)]
    ensures InCart(r, id)
  {
    if InCart(cart, id) then
      var i :| 0 <= i < |cart| && cart[i].medicineId == id;
      var r := seq(|cart|, k requires 0 <= k < |cart| =>
                 if cart[k].medicineId == id then cart[k].(quantity := cart[k].quantity + 1) else cart[k]);
      assert r[i].medicineId == id;
      r
    else
      var r := cart + [Item(id, 1)];
      assert r[|cart|].medicineId == id;
      r
  }

  function NotMedicine(id: int): Item -> bool {
    (it: Item) => it.medicineId != id
  }

  /** `removeFromCart`: the lines of other medicines, in order. */
  function RemoveFromCart(cart: seq<Item>, id: int): (r: seq<Item>)
    ensures Subseq(r, cart)
    ensures forall it :: it in r <==> it in cart && it.medicineId != id
    ensures !InCart(r, id)
  {
    FilterIsSubseq(NotMedicine(id), cart);
    Filter(NotMedicine(id), cart)
  }

  /** Removing a medicine that has no line changes nothing. */
  lemma RemoveAbsentIsNoop(cart: seq<Item>, id: int)
    requires !InCart(cart, id)
    ensures RemoveFromCart(cart, id) == cart
  {
    FilterKeepsAll(NotMedicine(id), cart);
  }

  /** Adding keeps one line per medicine and every quantity positive. */
  lemma AddKeepsCartOk(cart: seq<Item>, id: int)
    requires CartOk(cart)
    ensures CartOk(AddToCart(cart, id))
  {
  }

  /** Removing keeps one line per medicine and every quantity positive. */
  lemma RemoveKeepsCartOk(cart: seq<Item>, id: int)
    requires CartOk(cart)
    ensures CartOk(RemoveFromCart(cart, id))
  {
    var r := RemoveFromCart(cart, id);
    SubseqKeepsCartOk(r, cart);
  }

  /** Every subsequence of a well-kept cart is well kept. */
  lemma {:induction false} SubseqKeepsCartOk(a: seq<Item>, b: seq<Item>)
    requires Subseq(a, b) && CartOk(b)
    ensures CartOk(a)
    decreases |b|
  {
    if a != [] {
      var a', b' := a[..|a| - 1], b[..|b| - 1];
      assert CartOk(b') by {
        assert forall i :: 0 <= i < |b'| ==> b'[i] == b[i];
      }
      if a[|a| - 1] == b[|b| - 1] && Subseq(a', b') {
        SubseqKeepsCartOk(a', b');
        forall i | 0 <= i < |a'| ensures a'[i].medicineId != a[|a| - 1].medicineId {
          assert a'[i] in b' by { SubseqMembers(a', b'); assert a'[i] in a'; }
          var j :| 0 <= j < |b'| && b'[j] == a'[i];
          assert b[j] == a'[i];
        }
        assert forall i :: 0 <= i < |a'| ==> a[i] == a'[i];
      } else {
        SubseqKeepsCartOk(a, b');
      }
    }
  }

  /** The elements of a subsequence are elements of the whole. */
  lemma {:induction false} SubseqMembers<T>(a: seq<T>, b: seq<T>)
    requires Subseq(a, b)
    ensures forall x :: x in a ==> x in b
    decreases |b|
  {
    if a != [] {
      var a', b' := a[..|a| - 1], b[..|b| - 1];
      if a[|a| - 1] == b[|b| - 1] && Subseq(a', b') {
        SubseqMembers(a', b');
        assert forall x :: x in a ==> x in a' || x == a[|a| - 1];
        assert forall x :: x in b' ==> x in b;
      } else {
        SubseqMembers(a, b');
        assert forall x :: x in b' ==> x in b;
      }
    }
  }

  class MedicinesPage {
    var medicines: seq<Medicine>
    var cart: seq<Item>
    var loading: bool
    var lastAlert: Option<string>
    var sent: seq<Call>

    ghost predicate Valid()
      reads this
    {
      CartOk(cart)
    }

    constructor ()
      ensures Valid() && medicines == [] && cart == [] && loading && lastAlert == None && sent == []
    {
      medicines, cart, loading, lastAlert, sent := [], [], true, None, [];
    }

    /** The mount effect: `/medicines`, kept on success, ignored on failure; loading ends either way. */
    method Load(reply: Reply<Option<seq<Medicine>>>)
      modifies this
      ensures sent == old(sent) + [Get("/medicines")] && !loading
      ensures reply.Answer? ==> medicines == reply.body.GetOr([])
      ensures reply.Thrown? ==> medicines == old(medicines)
      ensures cart == old(cart) && lastAlert == old(lastAlert)
    {
      sent := sent + [Get("/medicines")];
      if reply.Answer? {
        medicines := reply.body.GetOr([]);
      }
      loading := false;
    }

    method Add(medicineId: int)
      requires Valid()
      modifies this
      ensures Valid() && cart == AddToCart(old(cart), medicineId)
      ensures medicines == old(medicines) && sent == old(sent) && lastAlert == old(lastAlert) && loading == old(loading)
    {
      AddKeepsCartOk(cart, medicineId);
      cart := AddToCart(cart, medicineId);
    }

    method Remove(medicineId: int)
      requires Valid()
      modifies this
      ensures Valid() && cart == RemoveFromCart(old(cart), medicineId)
      ensures medicines == old(medicines) && sent == old(sent) && lastAlert == old(lastAlert) && loading == old(loading)
    {
      RemoveKeepsCartOk(cart, medicineId);
      cart := RemoveFromCart(cart, medicineId);
    }

    /**
     * `checkout`: the user check, then the empty-cart check, each without a
     * call; otherwise the whole cart in one `/buy_bulk` call, emptied only
     * when the answer is SUCCESS.
     */
    method Checkout(user: Option<Session>, reply: Reply<StatusReply>)
      requires Valid()
      modifies this
      ensures Valid() && medicines == old(medicines) && loading == old(loading)
      ensures user.None? ==> sent == old(sent) && cart == old(cart) && lastAlert == Some("Please login first")
      ensures user.Some? && old(cart) == [] ==>
                sent == old(sent) && cart == old(cart) && lastAlert == Some("Your cart is empty")
      ensures user.Some? && old(cart) != [] ==>
                sent == old(sent) + [Call("POST", "/buy_bulk", BulkOrderBody(user.value.id, old(cart)))] &&
                (cart == [] <==> Succeeded(reply)) &&
                (!Succeeded(reply) ==> cart == old(cart)) &&
                (reply.Thrown? ==> lastAlert == Some("Error: " + reply.message)) &&
                (Succeeded(reply) ==> lastAlert == Some("Order placed! Total: ₹" + FieldText(reply.body.totalCost))) &&
                (reply.Answer? && !Succeeded(reply) ==>
                   lastAlert == Some(StringOr(reply.body.message, "Failed to place order")))
    {
      if user.None? {
        lastAlert := Some("Please login first");
        return;
      }
      if |cart| == 0 {
        lastAlert := Some("Your cart is empty");
        return;
      }
      sent := sent + [Call("POST", "/buy_bulk", BulkOrderBody(user.value.id, cart))];
      if reply.Thrown? {
        lastAlert := Some("Error: " + reply.message);
      } else if reply.body.status == "SUCCESS" {
        lastAlert := Some("Order placed! Total: ₹" + FieldText(reply.body.totalCost));
        cart := [];
      } else {
        lastAlert := Some(StringOr(reply.body.message, "Failed to place order"));
      }
    }
  }
}
