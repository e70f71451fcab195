/**
 * The product catalogue screen: each product has a unit cost and a sale
 * price, and stores the profit and margin derived from them. Saves go
 * through a modal form that either edits an existing product or creates one.
 */
module Produtos {
  import opened Wrappers
  import opened IdLists

  datatype Product = Product(
    id: string, name: string, unitCost: real, salePrice: real,
    profit: real, margin: real, createdOn: string)

  /** The modal's form fields. */
  datatype Form = Form(name: string, unitCost: real, salePrice: real)

  /** Profit in money and margin as a percentage of the sale price. */
  datatype Earnings = Earnings(profit: real, margin: real)

  /** Why a save is refused: a missing or non-positive field, or a sale at or below cost. */
  datatype SaveError = InvalidFields | SaleNotAboveCost

  const EmptyForm := Form("", 0.0, 0.0)

  function ProductId(p: Product): (id: string) { p.id }

  /** `calcularLucro`: profit is sale less cost; margin is profit per hundred of sale, 0 without a sale price. */
  function CalculateProfit(cost: real, sale: real): (e: Earnings)
    ensures e.profit + cost == sale
    ensures sale > 0.0 ==> e.margin * sale == e.profit * 100.0
    ensures sale <= 0.0 ==> e.margin == 0.0
  {
    var profit := sale - cost;
    Earnings(profit, if sale > 0.0 then (profit / sale) * 100.0 else 0.0)
  }

  /** A sale strictly above a positive cost yields a positive profit and a margin strictly between 0 and 100. */
  lemma AcceptedEarningsBounds(cost: real, sale: real)
    requires 0.0 < cost < sale
    ensures CalculateProfit(cost, sale).profit > 0.0
    ensures 0.0 < CalculateProfit(cost, sale).margin < 100.0
  {
    var e := CalculateProfit(cost, sale);
    var share := e.profit / sale;
    assert e.margin == share * 100.0;
    assert share * sale == e.profit;
    PositiveFactor(share, sale);
    if share >= 1.0 {
      ScaleAtLeast(share, 1.0, sale);
      assert false;
    }
  }

  /** A product with a positive factor is positive only if the other factor is. */
  lemma PositiveFactor(x: real, y: real)
    requires y > 0.0 && x * y > 0.0
    ensures x > 0.0
  {
  }

  /** Multiplying by a positive number keeps a non-strict order. */
  lemma ScaleAtLeast(x: real, y: real, z: real)
    requires x >= y && z > 0.0
    ensures x * z >= y * z
  {
  }

  /** The two checks of `salvarProduto`, in the order it makes them. */
  function ValidateForm(f: Form): (r: Option<SaveError>)
    ensures r == None <==> f.name != "" && 0.0 < f.unitCost < f.salePrice
    ensures r == Some(InvalidFields) <==> f.name == "" || f.unitCost <= 0.0 || f.salePrice <= 0.0
  {
    if f.name == "" || f.unitCost <= 0.0 || f.salePrice <= 0.0 then Some(InvalidFields)
    else if f.salePrice <= f.unitCost then Some(SaleNotAboveCost)
    else None
  }

  /** A stored product: named, sold above a positive cost, with profit and margin derived from both. */
  predicate WellPriced(p: Product)
  {
    && p.name != ""
    && 0.0 < p.unitCost < p.salePrice
    && Earnings(p.profit, p.margin) == CalculateProfit(p.unitCost, p.salePrice)
  }

  lemma WellPricedBounds(p: Product)
    requires WellPriced(p)
    ensures p.profit > 0.0 && 0.0 < p.margin < 100.0
  {
    AcceptedEarningsBounds(p.unitCost, p.salePrice);
  }

  /** The form loaded from a product when the modal opens on it. */
  function FormOf(p: Product): (f: Form)
    ensures WellPriced(p) ==> ValidateForm(f) == None
  {
    Form(p.name, p.unitCost, p.salePrice)
  }

  /** An edited product: id and creation date kept, everything else from the form. */
  function Edited(e: Product, f: Form): (r: Product)
    ensures r.id == e.id && r.createdOn == e.createdOn
    ensures r.name == f.name && r.unitCost == f.unitCost && r.salePrice == f.salePrice
    ensures Earnings(r.profit, r.margin) == CalculateProfit(f.unitCost, f.salePrice)
    ensures ValidateForm(f) == None ==> WellPriced(r)
  {
    var e' := CalculateProfit(f.unitCost, f.salePrice);
    e.(name := f.name, unitCost := f.unitCost, salePrice := f.salePrice, profit := e'.profit, margin := e'.margin)
  }

  /** A new product with the given fresh id and date stamp. */
  function Created(id: string, today: string, f: Form): (r: Product)
    ensures r.id == id && r.createdOn == today
    ensures r.name == f.name && r.unitCost == f.unitCost && r.salePrice == f.salePrice
    ensures Earnings(r.profit, r.margin) == CalculateProfit(f.unitCost, f.salePrice)
    ensures ValidateForm(f) == None ==> WellPriced(r)
  {
    var e := CalculateProfit(f.unitCost, f.salePrice);
    Product(id, f.name, f.unitCost, f.salePrice, e.profit, e.margin, today)
  }

  /** The two seed products, stamped with the day the screen opens. */
  function SeedProducts(today: string): seq<Product>
  {
    [Product("1", "Açaí 500ml", 2.50, 8.00, 5.50, 68.75, today),
     Product("2", "Açaí 300ml", 1.80, 6.00, 4.20, 70.00, today)]
  }

  lemma SeedWellPriced(today: string)
    ensures forall p :: p in SeedProducts(today) ==> WellPriced(p)
  {
  }

  // ---- summary figures -----------------------------------------------------

  /** `reduce((acc, p) => acc + p.margemLucro, 0)`, folded from the left. */
  function SumMargins(ps: seq<Product>): (s: real)
    ensures (forall i :: 0 <= i < |ps| ==> ps[i].margin >= 0.0) ==> s >= 0.0
  {
    if ps == [] then 0.0 else SumMargins(ps[..|ps| - 1]) + ps[|ps| - 1].margin
  }

  /** `lucroMedio`: the arithmetic mean of the margins, 0 for no products. */
  function AverageMargin(ps: seq<Product>): (avg: real)
    ensures ps == [] ==> avg == 0.0
    ensures ps != [] ==> avg * (|ps| as real) == SumMargins(ps)
  {
    if |ps| > 0 then SumMargins(ps) / (|ps| as real) else 0.0
  }

  lemma {:induction false} SumMarginsBounds(ps: seq<Product>, lo: real, hi: real)
    requires ps != []
    requires forall i :: 0 <= i < |ps| ==> lo < ps[i].margin < hi
    ensures (|ps| as real) * lo < SumMargins(ps) < (|ps| as real) * hi
  {
    var init := ps[..|ps| - 1];
    if init == [] {
      assert |ps| == 1;
    } else {
      SumMarginsBounds(init, lo, hi);
      assert (|ps| as real) * lo == (|init| as real) * lo + lo;
      assert (|ps| as real) * hi == (|init| as real) * hi + hi;
    }
  }

  /** When every margin lies strictly between lo and hi, so does their mean. */
  lemma AverageMarginBounds(ps: seq<Product>, lo: real, hi: real)
    requires ps != []
    requires forall i :: 0 <= i < |ps| ==> lo < ps[i].margin < hi
    ensures lo < AverageMargin(ps) < hi
  {
    SumMarginsBounds(ps, lo, hi);
    MeanBetween(SumMargins(ps), |ps| as real, AverageMargin(ps), lo, hi);
  }

  /** A mean recovered from its sum inherits strict bounds on the sum. */
  lemma MeanBetween(sum: real, n: real, avg: real, lo: real, hi: real)
    requires n > 0.0 && avg * n == sum && n * lo < sum < n * hi
    ensures lo < avg < hi
  {
    if avg <= lo {
      ScaleAtLeast(lo, avg, n);
      assert false;
    }
    if avg >= hi {
      ScaleAtLeast(avg, hi, n);
      assert false;
    }
  }

  /** The reducer: `prev` survives only when its margin is strictly greater. */
  function Better(prev: Product, current: Product): (r: Product)
    ensures r == prev || r == current
    ensures r.margin >= prev.margin && r.margin >= current.margin
    ensures current.margin >= prev.margin ==> r == current
  {
    if prev.margin > current.margin then prev else current
  }

  /** `rest.reduce(Better, acc)`: the reducer applied left to right. */
  function FoldBest(acc: Product, rest: seq<Product>): (r: Product)
    ensures r == acc || r in rest
    ensures r.margin >= acc.margin
    ensures forall i :: 0 <= i < |rest| ==> rest[i].margin <= r.margin
    decreases |rest|
  {
    if rest == [] then acc else FoldBest(Better(acc, rest[0]), rest[1..])
  }

  /** `k` is the last position holding the greatest margin of `ps`. */
  ghost predicate IsLastBest(ps: seq<Product>, k: int)
  {
    && 0 <= k < |ps|
    && (forall j :: 0 <= j < |ps| ==> ps[j].margin <= ps[k].margin)
    && (forall j :: k < j < |ps| ==> ps[j].margin < ps[k].margin)
  }

  /** An independent reference: the last best position, found scanning from the right. */
  function LastBestIndex(ps: seq<Product>): (k: nat)
    requires ps != []
    ensures IsLastBest(ps, k)
  {
    if |ps| == 1 then 0
    else
      var k' := LastBestIndex(ps[1..]);
      if ps[0].margin > ps[1 + k'].margin then 0 else 1 + k'
  }

  lemma {:induction false} FoldBestIsLastBest(acc: Product, rest: seq<Product>, k: int)
    requires IsLastBest([acc] + rest, k)
    ensures FoldBest(acc, rest) == ([acc] + rest)[k]
    decreases |rest|
  {
    var s := [acc] + rest;
    if rest != [] {
      var b := Better(acc, rest[0]);
      var s' := [b] + rest[1..];
      if k == 0 {
        assert s[1] == rest[0];
        assert b == acc;
        assert forall j :: 0 < j < |s'| ==> s'[j] == s[j + 1];
        assert IsLastBest(s', 0);
        FoldBestIsLastBest(b, rest[1..], 0);
      } else {
        assert forall j :: 0 < j < |s'| ==> s'[j] == s[j + 1];
        assert s[0] == acc && s[1] == rest[0];
        assert s'[0].margin <= s[k].margin;
        assert IsLastBest(s', k - 1);
        FoldBestIsLastBest(b, rest[1..], k - 1);
      }
    }
  }

  /**
   * `produtoMaisLucrativo`: no product for an empty list; otherwise the
   * product at the last position holding the greatest margin (a later
   * product wins a tie).
   */
  function MostProfitable(ps: seq<Product>): (r: Option<Product>)
    ensures r == None <==> ps == []
    ensures r != None ==> r.value == ps[LastBestIndex(ps)]
    ensures r != None ==> r.value in ps && forall q :: q in ps ==> q.margin <= r.value.margin
  {
    if ps == [] then None
    else
      assert [ps[0]] + ps[1..] == ps;
      FoldBestIsLastBest(ps[0], ps[1..], LastBestIndex(ps));
      Some(FoldBest(ps[0], ps[1..]))
  }

  /** Over well-priced products both summary figures are margins strictly between 0 and 100. */
  lemma SummaryBounds(ps: seq<Product>)
    requires ps != []
    requires forall p :: p in ps ==> WellPriced(p)
    ensures 0.0 < AverageMargin(ps) < 100.0
    ensures 0.0 < MostProfitable(ps).value.margin < 100.0
  {
    forall i | 0 <= i < |ps| ensures 0.0 < ps[i].margin < 100.0 {
      WellPricedBounds(ps[i]);
    }
    AverageMarginBounds(ps, 0.0, 100.0);
  }

  /** On the seed data: mean margin 69.375, and the 70% product is the most profitable. */
  lemma SeedSummary(today: string)
    ensures AverageMargin(SeedProducts(today)) == 69.375
    ensures MostProfitable(SeedProducts(today)) == Some(SeedProducts(today)[1])
  {
    var s := SeedProducts(today);
    assert s[..1] == [s[0]];
    assert s[..1][..0] == [];
    assert SumMargins(s[..1]) == 68.75;
    assert SumMargins(s) == 138.75;
    assert IsLastBest(s, 1);
  }

  // ---- the screen ----------------------------------------------------------

  /** The screen's state: the catalogue, whether the modal is open, the product being edited and the form. */
  class Screen {
    var products: seq<Product>
    var modalOpen: bool
    var editing: Option<Product>
    var form: Form

    /** Every stored product passed the save checks and carries its derived figures. */
    ghost predicate Valid()
      reads this
    {
      forall p :: p in products ==> WellPriced(p)
    }

    constructor (today: string)
      ensures Valid()
      ensures products == SeedProducts(today)
      ensures !modalOpen && editing == None && form == EmptyForm
    {
      products := SeedProducts(today);
      modalOpen := false;
      editing := None;
      form := EmptyForm;
      SeedWellPriced(today);
    }

    /** `abrirModal`: opens on a product to edit it, or on an empty form to create one. */
    method OpenModal(p: Option<Product>)
      modifies this`modalOpen, this`editing, this`form
      ensures modalOpen && editing == p
      ensures form == (if p.Some? then FormOf(p.value) else EmptyForm)
    {
      if p.Some? {
        editing := p;
        form := FormOf(p.value);
      } else {
        editing := None;
        form := EmptyForm;
      }
      modalOpen := true;
    }

    /** `fecharModal`: closes the modal, forgets the edited product and clears the form. */
    method CloseModal()
      modifies this`modalOpen, this`editing, this`form
      ensures !modalOpen && editing == None && form == EmptyForm
    {
      modalOpen := false;
      editing := None;
      form := EmptyForm;
    }

    /** Typing into the modal's fields. */
    method EditForm(name: string, unitCost: real, salePrice: real)
      modifies this`form
      ensures form == Form(name, unitCost, salePrice)
    {
      form := Form(name, unitCost, salePrice);
    }

    /**
     * `salvarProduto`: a refused form changes nothing; an accepted one
     * replaces every product with the edited id, or appends a new product,
     * and then closes the modal.
     */
    method Save(freshId: string, today: string) returns (err: Option<SaveError>)
      requires Valid()
      modifies this`products, this`modalOpen, this`editing, this`form
      ensures Valid()
      ensures err == ValidateForm(old(form))
      ensures err != None ==>
        products == old(products) && modalOpen == old(modalOpen) && editing == old(editing) && form == old(form)
      ensures err == None && old(editing).Some? ==>
        products == ReplaceById(old(products), ProductId, old(editing).value.id, Edited(old(editing).value, old(form)))
      ensures err == None && old(editing).None? ==>
        products == old(products) + [Created(freshId, today, old(form))]
      ensures err == None ==> !modalOpen && editing == None && form == EmptyForm
    {
      err := ValidateForm(form);
      if err != None {
        return;
      }
      if editing.Some? {
        var updated := Edited(editing.value, form);
        products := ReplaceById(products, ProductId, editing.value.id, updated);
      } else {
        products := products + [Created(freshId, today, form)];
      }
      CloseModal();
    }

    /** `excluirProduto`: removes every product with that product's id. */
    method Delete(p: Product)
      requires Valid()
      modifies this`products
      ensures Valid()
      ensures products == RemoveById(old(products), ProductId, p.id)
    {
      products := RemoveById(products, ProductId, p.id);
    }
  }
}
