/**
 * The supplier-cost screen: every product carries an ordered list of cost
 * lines (a batch bought for a total value, split over a quantity), and an
 * aggregate unit cost that is always re-summed from those lines.
 */
module Fornecedores {
  import opened Wrappers
  import opened IdLists

  /** One purchased input: `unitCost` is what one sold unit of the product bears. */
  datatype CostItem = CostItem(id: string, name: string, totalValue: real, quantity: real, unitCost: real)

  /** A product with its cost breakdown; `totalCost` is the aggregate unit cost. */
  datatype Product = Product(id: string, name: string, photo: Option<string>, costs: seq<CostItem>, totalCost: real)

  /** The "new product" form: name and photo URL. */
  datatype ProductForm = ProductForm(name: string, photo: string)

  /** The "new cost line" form. */
  datatype CostForm = CostForm(name: string, totalValue: real, quantity: real)

  const EmptyProductForm := ProductForm("", "")
  const EmptyCostForm := CostForm("", 0.0, 0.0)

  function CostId(c: CostItem): (id: string) { c.id }
  function ProductId(p: Product): (id: string) { p.id }

  /** `costs.reduce((total, c) => total + c.custoUnitario, 0)`, folded from the left. */
  function SumUnitCosts(costs: seq<CostItem>): (s: real)
    ensures (forall i :: 0 <= i < |costs| ==> costs[i].unitCost >= 0.0) ==> s >= 0.0
  {
    if costs == [] then 0.0
    else SumUnitCosts(costs[..|costs| - 1]) + costs[|costs| - 1].unitCost
  }

  /** A line's unit cost is its total value divided by its (non-zero) quantity. */
  predicate LineConsistent(c: CostItem)
  {
    c.quantity != 0.0 && c.unitCost == c.totalValue / c.quantity
  }

  /** The invariant every product keeps: lines are consistent and the aggregate is their sum. */
  predicate Consistent(p: Product)
  {
    (forall c :: c in p.costs ==> LineConsistent(c)) && p.totalCost == SumUnitCosts(p.costs)
  }

  lemma {:induction false} SumUnitCostsAppend(a: seq<CostItem>, b: seq<CostItem>)
    ensures SumUnitCosts(a + b) == SumUnitCosts(a) + SumUnitCosts(b)
  {
    if b == [] {
      assert a + b == a;
    } else {
      var b' := b[..|b| - 1];
      assert (a + b)[..|a + b| - 1] == a + b';
      SumUnitCostsAppend(a, b');
    }
  }

  /** Re-summing the kept lines gives the old sum less the unit costs of the dropped ones. */
  lemma {:induction false} SumUnitCostsRemove(s: seq<CostItem>, id: string)
    ensures SumUnitCosts(RemoveById(s, CostId, id)) == SumUnitCosts(s) - SumUnitCosts(SelectById(s, CostId, id))
  {
    if s != [] {
      SumUnitCostsRemove(s[1..], id);
      assert s == [s[0]] + s[1..];
      SumUnitCostsAppend([s[0]], s[1..]);
      var head := if s[0].id == id then [] else [s[0]];
      var chosen := if s[0].id == id then [s[0]] else [];
      SumUnitCostsAppend(head, RemoveById(s[1..], CostId, id));
      SumUnitCostsAppend(chosen, SelectById(s[1..], CostId, id));
    }
  }

  /** The seed product of the screen: 40/100 + 15/50 = 0.70. */
  function SeedProducts(): seq<Product>
  {
    [Product("1", "Açaí 500ml", None,
             [CostItem("1", "Açaí Base", 40.0, 100.0, 0.40),
              CostItem("2", "Copo 500ml", 15.0, 50.0, 0.30)],
             0.70)]
  }

  lemma SeedConsistent()
    ensures forall p :: p in SeedProducts() ==> Consistent(p)
  {
    var p := SeedProducts()[0];
    var c0, c1 := p.costs[0], p.costs[1];
    assert [c0][..0] == [];
    assert SumUnitCosts([c0]) == 0.40;
    assert p.costs[..1] == [c0];
    assert SumUnitCosts(p.costs) == 0.40 + 0.30;
    assert LineConsistent(c0) && LineConsistent(c1);
  }

  /** The product `adicionarProduto` creates: no cost lines yet, aggregate 0. */
  function NewProduct(id: string, f: ProductForm): (p: Product)
    ensures p.id == id && p.name == f.name && p.photo == Some(f.photo)
    ensures p.costs == [] && p.totalCost == 0.0
    ensures Consistent(p)
  {
    Product(id, f.name, Some(f.photo), [], 0.0)
  }

  /** What `adicionarCusto` demands before it changes anything (zero counts as missing). */
  predicate CostAccepted(selected: Option<Product>, f: CostForm): (ok: bool)
    ensures ok ==> selected.Some? && f.quantity != 0.0
  {
    selected.Some? && f.name != "" && f.totalValue != 0.0 && f.quantity != 0.0
  }

  /** The cost line built from the form; its unit cost is total value over quantity. */
  function NewCostLine(id: string, f: CostForm): (c: CostItem)
    requires f.quantity != 0.0
    ensures c.id == id && c.name == f.name && c.totalValue == f.totalValue && c.quantity == f.quantity
    ensures c.unitCost * f.quantity == f.totalValue
    ensures LineConsistent(c)
  {
    CostItem(id, f.name, f.totalValue, f.quantity, f.totalValue / f.quantity)
  }

  /**
   * The product after appending a line. The aggregate is re-summed from the
   * old lines plus the new one, so it is right whatever the old aggregate was.
   */
  function WithCost(p: Product, c: CostItem): (r: Product)
    ensures r.id == p.id && r.name == p.name && r.photo == p.photo
    ensures r.costs == p.costs + [c]
    ensures r.totalCost == SumUnitCosts(r.costs)
    ensures r.totalCost == SumUnitCosts(p.costs) + c.unitCost
    ensures (forall d :: d in p.costs ==> LineConsistent(d)) && LineConsistent(c) ==> Consistent(r)
  {
    assert (p.costs + [c])[..|p.costs|] == p.costs;
    p.(costs := p.costs + [c], totalCost := SumUnitCosts(p.costs) + c.unitCost)
  }

  /** The product after dropping every line with id `id`, the aggregate re-summed. */
  function WithoutCost(p: Product, id: string): (r: Product)
    ensures r.id == p.id && r.name == p.name && r.photo == p.photo
    ensures r.costs == RemoveById(p.costs, CostId, id)
    ensures |r.costs| == |p.costs| - |SelectById(p.costs, CostId, id)|
    ensures r.totalCost == SumUnitCosts(r.costs)
    ensures forall c :: c in r.costs ==> c in p.costs && c.id != id
    ensures Consistent(p) ==> Consistent(r)
    ensures Consistent(p) ==> r.totalCost == p.totalCost - SumUnitCosts(SelectById(p.costs, CostId, id))
    ensures (forall i :: 0 <= i < |p.costs| ==> p.costs[i].id != id) ==> r.costs == p.costs
    ensures (forall i :: 0 <= i < |p.costs| ==> p.costs[i].id != id) && Consistent(p) ==> r == p
  {
    SumUnitCostsRemove(p.costs, id);
    RemoveSelectLength(p.costs, CostId, id);
    var kept := RemoveById(p.costs, CostId, id);
    var r := p.(costs := kept, totalCost := SumUnitCosts(kept));
    if (forall i :: 0 <= i < |p.costs| ==> p.costs[i].id != id) then
      RemoveAbsentId(p.costs, CostId, id); r
    else r
  }

  /** The screen's state: the products, the snapshot open in the detail dialog, and the two forms. */
  class Screen {
    var products: seq<Product>
    var selected: Option<Product>
    var productForm: ProductForm
    var costForm: CostForm

    /** Every product is consistent, and the open snapshot is one of the listed products. */
    ghost predicate Valid()
      reads this
    {
      && (forall p :: p in products ==> Consistent(p))
      && (selected.Some? ==> selected.value in products)
    }

    constructor ()
      ensures Valid()
      ensures products == SeedProducts() && selected == None
      ensures productForm == EmptyProductForm && costForm == EmptyCostForm
    {
      products := SeedProducts();
      selected := None;
      productForm := EmptyProductForm;
      costForm := EmptyCostForm;
      SeedConsistent();
    }

    /** Typing into the new-product form. */
    method EditProductForm(name: string, photo: string)
      modifies this`productForm
      ensures productForm == ProductForm(name, photo)
    {
      productForm := ProductForm(name, photo);
    }

    /** Typing into the new-cost form. */
    method EditCostForm(name: string, totalValue: real, quantity: real)
      modifies this`costForm
      ensures costForm == CostForm(name, totalValue, quantity)
    {
      costForm := CostForm(name, totalValue, quantity);
    }

    /** Clicking a product card opens its detail dialog on a snapshot of it. */
    method Select(p: Product)
      requires Valid() && p in products
      modifies this`selected
      ensures Valid() && selected == Some(p)
    {
      selected := Some(p);
    }

    /** Closing the detail dialog drops the snapshot. */
    method CloseDetail()
      requires Valid()
      modifies this`selected
      ensures Valid() && selected == None
    {
      selected := None;
    }

    /** `adicionarProduto`: rejects an empty name, otherwise appends a product with no lines. */
    method AddProduct(freshId: string) returns (ok: bool)
      requires Valid()
      modifies this`products, this`productForm
      ensures Valid()
      ensures ok <==> old(productForm).name != ""
      ensures !ok ==> products == old(products) && productForm == old(productForm)
      ensures ok ==> products == old(products) + [NewProduct(freshId, old(productForm))]
      ensures ok ==> productForm == EmptyProductForm
    {
      if productForm.name == "" {
        return false;
      }
      products := products + [NewProduct(freshId, productForm)];
      productForm := EmptyProductForm;
      ok := true;
    }

    /**
     * `adicionarCusto`: rejects when nothing is selected or a field is empty
     * or zero; otherwise appends the line to the snapshot, writes the updated
     * snapshot over every listed product with its id, and clears the form.
     */
    method AddCost(freshId: string) returns (ok: bool)
      requires Valid()
      modifies this`products, this`selected, this`costForm
      ensures Valid()
      ensures ok <==> CostAccepted(old(selected), old(costForm))
      ensures !ok ==> products == old(products) && selected == old(selected) && costForm == old(costForm)
      ensures ok ==>
        var line := NewCostLine(freshId, old(costForm));
        var updated := WithCost(old(selected).value, line);
        && selected == Some(updated)
        && products == ReplaceById(old(products), ProductId, updated.id, updated)
        && costForm == EmptyCostForm
      ensures ok ==> selected.value.costs == old(selected).value.costs + [NewCostLine(freshId, old(costForm))]
      ensures ok ==> selected.value.totalCost == SumUnitCosts(selected.value.costs)
    {
      if !CostAccepted(selected, costForm) {
        return false;
      }
      var sel := selected.value;
      var line := NewCostLine(freshId, costForm);
      var updated := WithCost(sel, line);
      products := ReplaceById(products, ProductId, sel.id, updated);
      selected := Some(updated);
      costForm := EmptyCostForm;
      ok := true;
    }

    /**
     * `removerCusto`: without a selection nothing happens; otherwise every line
     * with that id leaves the snapshot, which is written over the listed
     * products with its id.
     */
    method RemoveCost(costId: string)
      requires Valid()
      modifies this`products, this`selected
      ensures Valid()
      ensures old(selected).None? ==> products == old(products) && selected == old(selected)
      ensures old(selected).Some? ==>
        var updated := WithoutCost(old(selected).value, costId);
        && selected == Some(updated)
        && products == ReplaceById(old(products), ProductId, updated.id, updated)
      ensures old(selected).Some? && (forall c :: c in old(selected).value.costs ==> c.id != costId) ==>
        selected == old(selected)
    {
      if selected.None? {
        return;
      }
      var sel := selected.value;
      var updated := WithoutCost(sel, costId);
      products := ReplaceById(products, ProductId, sel.id, updated);
      selected := Some(updated);
    }
  }
}
