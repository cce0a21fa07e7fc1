/**
 * The sales report of backend/main.py (`sales_report`), stated as its three
 * stages: map each sale to (medicine name, revenue), group the revenues by
 * name in order of first appearance, and reduce each group to its sum. The
 * lemmas prove that the per-name revenues add up to the total and that the
 * total is the revenue of all sales.
 */
module SalesSpec {

  import opened Seqs
  import opened Records
  import opened StoreSpec

  /** Every sale names a position of the medicine table (the report indexes MEDICINES with it). */
  ghost predicate SalesInTable(meds: seq<Medicine>, sales: seq<Sale>) {
    forall i :: 0 <= i < |sales| ==> 0 <= sales[i].medicineId < |meds|
  }

  /** The map stage: each sale becomes (its medicine's name, sold quantity times price). */
  function Mapped(meds: seq<Medicine>, sales: seq<Sale>): seq<(string, int)>
    requires SalesInTable(meds, sales)
  {
    seq(|sales|, i requires 0 <= i < |sales| => (meds[sales[i].medicineId].name, sales[i].soldQty * sales[i].price))
  }

  function Names(pairs: seq<(string, int)>): seq<string> {
    seq(|pairs|, i requires 0 <= i < |pairs| => pairs[i].0)
  }

  function Amounts(pairs: seq<(string, int)>): seq<int> {
    seq(|pairs|, i requires 0 <= i < |pairs| => pairs[i].1)
  }

  /** `grouped[name]` after the group stage: the amounts paired with `name`, in order. */
  function ValuesOf(pairs: seq<(string, int)>, name: string): seq<int> {
    if pairs == [] then []
    else
      var last := pairs[|pairs| - 1];
      ValuesOf(pairs[..|pairs| - 1], name) + (if last.0 == name then [last.1] else [])
  }

  /** The keys of `grouped`: each name once, in order of first appearance. */
  function Keys(pairs: seq<(string, int)>): seq<string> {
    Dedup(Names(pairs))
  }

  /** The reduce stage: each key with the sum of its group. */
  function Reduce(pairs: seq<(string, int)>): seq<(string, int)> {
    var keys := Keys(pairs);
    seq(|keys|, i requires 0 <= i < |keys| => (keys[i], Sum(ValuesOf(pairs, keys[i]))))
  }

  /** The report `sales_report` returns: the reduced pairs and the sum of their amounts. */
  function Report(meds: seq<Medicine>, sales: seq<Sale>): SalesReport
    requires SalesInTable(meds, sales)
  {
    var reduced := Reduce(Mapped(meds, sales));
    SalesReport(reduced, Sum(Amounts(reduced)))
  }

  /** A name that is never paired with an amount has an empty group. */
  lemma {:induction false} ValuesOfAbsent(pairs: seq<(string, int)>, name: string)
    requires name !in Names(pairs)
    ensures ValuesOf(pairs, name) == []
  {
    if pairs != [] {
      var init := pairs[..|pairs| - 1];
      assert forall i :: 0 <= i < |init| ==> Names(init)[i] == Names(pairs)[i];
      assert Names(pairs)[|pairs| - 1] == pairs[|pairs| - 1].0;
      ValuesOfAbsent(init, name);
    }
  }

  lemma SumSnoc(a: seq<int>, v: int)
    ensures Sum(a + [v]) == Sum(a) + v
  {
    assert (a + [v])[..|a|] == a;
  }

  /** Appending a pair adds its name at the end of the keys unless the name is already a key. */
  lemma KeysSnoc(pairs: seq<(string, int)>)
    requires pairs != []
    ensures var init, k := pairs[..|pairs| - 1], pairs[|pairs| - 1].0;
      Keys(pairs) == if k in Names(init) then Keys(init) else Keys(init) + [k]
  {
    var names := Names(pairs);
    assert names[..|names| - 1] == Names(pairs[..|pairs| - 1]);
  }

  /** Appending a pair under a name that is already a key raises that key's sum by its amount. */
  lemma ReduceSnocKnown(pairs: seq<(string, int)>)
    requires pairs != [] && pairs[|pairs| - 1].0 in Names(pairs[..|pairs| - 1])
    ensures var init, v := pairs[..|pairs| - 1], pairs[|pairs| - 1].1;
      Sum(Amounts(Reduce(pairs))) == Sum(Amounts(Reduce(init))) + v
  {
    var init, k, v := pairs[..|pairs| - 1], pairs[|pairs| - 1].0, pairs[|pairs| - 1].1;
    KeysSnoc(pairs);
    var K := Keys(init);
    var a, b := Amounts(Reduce(init)), Amounts(Reduce(pairs));
    var idx :| 0 <= idx < |K| && K[idx] == k;
    DedupDistinct(Names(init));
    forall i | 0 <= i < |K| && i != idx ensures b[i] == a[i] {
      assert K[i] != k;
      assert ValuesOf(pairs, K[i]) == ValuesOf(init, K[i]);
    }
    assert b[idx] == Sum(ValuesOf(init, k) + [v]);
    SumSnoc(ValuesOf(init, k), v);
    SumBump(a, b, idx, v);
  }

  /** Appending a pair under a new name appends a key whose sum is the pair's amount. */
  lemma ReduceSnocNew(pairs: seq<(string, int)>)
    requires pairs != [] && pairs[|pairs| - 1].0 !in Names(pairs[..|pairs| - 1])
    ensures var init, v := pairs[..|pairs| - 1], pairs[|pairs| - 1].1;
      Sum(Amounts(Reduce(pairs))) == Sum(Amounts(Reduce(init))) + v
  {
    var init, v := pairs[..|pairs| - 1], pairs[|pairs| - 1].1;
    AmountsSnocNew(pairs);
    SumSnoc(Amounts(Reduce(init)), v);
  }

  /** Under a new name, the reduced amounts gain the pair's amount at the end and are otherwise unchanged. */
  lemma AmountsSnocNew(pairs: seq<(string, int)>)
    requires pairs != [] && pairs[|pairs| - 1].0 !in Names(pairs[..|pairs| - 1])
    ensures var init, v := pairs[..|pairs| - 1], pairs[|pairs| - 1].1;
      Amounts(Reduce(pairs)) == Amounts(Reduce(init)) + [v]
  {
    var init, k, v := pairs[..|pairs| - 1], pairs[|pairs| - 1].0, pairs[|pairs| - 1].1;
    KeysSnoc(pairs);
    var K := Keys(init);
    var a, b := Amounts(Reduce(init)), Amounts(Reduce(pairs));
    ValuesOfAbsent(init, k);
    assert ValuesOf(pairs, k) == [v];
    assert Sum([v]) == v by { assert [v][..0] == []; }
    forall i | 0 <= i < |K| ensures b[i] == a[i] {
      assert K[i] in Names(init);
      assert ValuesOf(pairs, K[i]) == ValuesOf(init, K[i]);
    }
  }

  /** Grouping and reducing loses no amount: the per-name sums add up to the sum of all amounts. */
  lemma {:induction false} ReduceKeepsTotal(pairs: seq<(string, int)>)
    ensures Sum(Amounts(Reduce(pairs))) == Sum(Amounts(pairs))
  {
    if pairs != [] {
      var init, v := pairs[..|pairs| - 1], pairs[|pairs| - 1].1;
      ReduceKeepsTotal(init);
      assert Amounts(pairs) == Amounts(init) + [v];
      SumSnoc(Amounts(init), v);
      if pairs[|pairs| - 1].0 in Names(init) {
        ReduceSnocKnown(pairs);
      } else {
        ReduceSnocNew(pairs);
      }
    }
  }

  /** The mapped amounts add up to the revenue of the sales. */
  lemma {:induction false} MappedRevenue(meds: seq<Medicine>, sales: seq<Sale>)
    requires SalesInTable(meds, sales)
    ensures Sum(Amounts(Mapped(meds, sales))) == Revenue(sales)
  {
    if sales != [] {
      var init := sales[..|sales| - 1];
      MappedRevenue(meds, init);
      var am := Amounts(Mapped(meds, sales));
      assert am[..|am| - 1] == Amounts(Mapped(meds, init));
    }
  }

  /** `total_revenue` is the revenue of every sale ever recorded. */
  lemma ReportTotalIsRevenue(meds: seq<Medicine>, sales: seq<Sale>)
    requires SalesInTable(meds, sales)
    ensures Report(meds, sales).totalRevenue == Revenue(sales)
  {
    ReduceKeepsTotal(Mapped(meds, sales));
    MappedRevenue(meds, sales);
  }

  /**
   * `medicine_sales` lists each sold medicine name exactly once, in order of
   * first sale, with the sum of the revenues of the sales under that name.
   */
  lemma ReportLines(meds: seq<Medicine>, sales: seq<Sale>)
    requires SalesInTable(meds, sales)
    ensures var lines := Report(meds, sales).medicineSales;
            var mapped := Mapped(meds, sales);
      Distinct(Names(lines)) &&
      InFirstOccurrenceOrder(Names(lines), Names(mapped)) &&
      (forall name :: name in Names(lines) <==> exists i :: 0 <= i < |sales| && meds[sales[i].medicineId].name == name) &&
      forall i :: 0 <= i < |lines| ==> lines[i].1 == Sum(ValuesOf(mapped, lines[i].0))
  {
    var mapped := Mapped(meds, sales);
    var lines := Report(meds, sales).medicineSales;
    assert Names(lines) == Keys(mapped);
    DedupDistinct(Names(mapped));
    DedupFirstOccurrence(Names(mapped));
    forall name ensures name in Names(mapped) <==> exists i :: 0 <= i < |sales| && meds[sales[i].medicineId].name == name {
      if exists i :: 0 <= i < |sales| && meds[sales[i].medicineId].name == name {
        var i :| 0 <= i < |sales| && meds[sales[i].medicineId].name == name;
        assert Names(mapped)[i] == name;
      }
      if name in Names(mapped) {
        var i :| 0 <= i < |mapped| && Names(mapped)[i] == name;
        assert meds[sales[i].medicineId].name == name;
      }
    }
  }
}
