/** The in-memory catalogue (`ProductViewModel`): an ordered list of products and
    an optional product selected for editing. */
module Store {
  import opened KotlinStd
  import opened Model

  /** The id `addProduct` assigns: `newList.size + 1` in 32-bit `Int` arithmetic. */
  function NextId(s: seq<Product>): (id: Int32)
    ensures |s| < INT_MAX ==> id == |s| + 1
  {
    Wrap32(|s| + 1)
  }

  /** The list after `addProduct(p)`: a copy of `p` carrying the next id at the end. */
  function Added(s: seq<Product>, p: Product): (r: seq<Product>)
    ensures |r| == |s| + 1 && r[..|s|] == s
    ensures r[|s|] == p.(id := NextId(s))
  {
    s + [p.(id := NextId(s))]
  }

  /** `List.indexOfFirst { it.id == id }`: the first position holding `id`, or -1. */
  function IndexOfFirst(s: seq<Product>, id: Int32): (k: int)
    ensures -1 <= k < |s|
    ensures k == -1 <==> forall i :: 0 <= i < |s| ==> s[i].id != id
    ensures 0 <= k ==> s[k].id == id && forall i :: 0 <= i < k ==> s[i].id != id
  {
    if s == [] then -1
    else if s[0].id == id then 0
    else
      var k := IndexOfFirst(s[1..], id);
      if k == -1 then -1 else k + 1
  }

  /** The list after `updateProduct(p)`: the first entry with `p.id` replaced by `p`;
      the same list when no entry has that id. */
  function Updated(s: seq<Product>, p: Product): (r: seq<Product>)
    ensures (forall i :: 0 <= i < |s| ==> s[i].id != p.id) ==> r == s
    ensures forall k :: 0 <= k < |s| && s[k].id == p.id && (forall j :: 0 <= j < k ==> s[j].id != p.id) ==>
      r == s[k := p]
  {
    var k := IndexOfFirst(s, p.id);
    if k == -1 then s else s[k := p]
  }

  /** `List.filter { it.id != id }`: the list after `deleteProduct` of a product with `id`. */
  function WithoutId(s: seq<Product>, id: Int32): (r: seq<Product>)
    ensures |r| <= |s|
    ensures forall x :: x in r <==> x in s && x.id != id
  {
    if s == [] then []
    else (if s[0].id != id then [s[0]] else []) + WithoutId(s[1..], id)
  }

  /** Number of entries carrying `id`. */
  function CountId(s: seq<Product>, id: Int32): nat
  {
    if s == [] then 0 else (if s[0].id == id then 1 else 0) + CountId(s[1..], id)
  }

  /** Every entry has an id of at least 1. */
  predicate IdsPositive(s: seq<Product>) {
    forall i :: 0 <= i < |s| ==> s[i].id >= 1
  }

  /** Deleting works entry by entry: filtering a concatenation filters each part, so
      the survivors keep their relative order. */
  lemma {:induction false} WithoutIdAppend(s: seq<Product>, t: seq<Product>, id: Int32)
    ensures WithoutId(s + t, id) == WithoutId(s, id) + WithoutId(t, id)
  {
    if s == [] {
      assert s + t == t;
    } else {
      assert (s + t)[1..] == s[1..] + t;
      WithoutIdAppend(s[1..], t, id);
    }
  }

  /** Deleting removes exactly the entries with that id: one less entry per match. */
  lemma {:induction false} WithoutIdLength(s: seq<Product>, id: Int32)
    ensures |WithoutId(s, id)| == |s| - CountId(s, id)
  {
    if s != [] {
      WithoutIdLength(s[1..], id);
    }
  }

  /** Deleting an id no entry has leaves the list as it was. */
  lemma {:induction false} WithoutIdAbsent(s: seq<Product>, id: Int32)
    requires forall i :: 0 <= i < |s| ==> s[i].id != id
    ensures WithoutId(s, id) == s
  {
    if s != [] {
      assert s == [s[0]] + s[1..];
      WithoutIdAbsent(s[1..], id);
    }
  }

  /** An id that occurs is gone after the delete, and the list is shorter. */
  lemma WithoutIdPresent(s: seq<Product>, k: nat, id: Int32)
    requires k < |s| && s[k].id == id
    ensures forall i :: 0 <= i < |WithoutId(s, id)| ==> WithoutId(s, id)[i].id != id
    ensures |WithoutId(s, id)| < |s|
  {
    var r := WithoutId(s, id);
    forall i | 0 <= i < |r| ensures r[i].id != id {
      assert r[i] in r;
    }
    CountIdPositive(s, k, id);
    WithoutIdLength(s, id);
  }

  lemma {:induction false} CountIdPositive(s: seq<Product>, k: nat, id: Int32)
    requires k < |s| && s[k].id == id
    ensures CountId(s, id) >= 1
  {
    if k > 0 {
      CountIdPositive(s[1..], k - 1, id);
    }
  }

  /** Updating never changes an id: the id at every position stays the same. */
  lemma UpdatedKeepsIds(s: seq<Product>, p: Product)
    ensures |Updated(s, p)| == |s|
    ensures forall i :: 0 <= i < |s| ==> Updated(s, p)[i].id == s[i].id
  {
  }

  /** Positive ids survive every operation, as long as the list is shorter than the
      largest `Int` when adding. */
  lemma IdsPositivePreserved(s: seq<Product>, p: Product, id: Int32)
    requires IdsPositive(s)
    ensures |s| < INT_MAX ==> IdsPositive(Added(s, p))
    ensures IdsPositive(Updated(s, p))
    ensures IdsPositive(WithoutId(s, id))
  {
    UpdatedKeepsIds(s, p);
    var r := WithoutId(s, id);
    forall i | 0 <= i < |r| ensures r[i].id >= 1 {
      assert r[i] in s;
    }
  }

  /** The list after a series of `addProduct` calls, in order. */
  function AddedAll(s: seq<Product>, ps: seq<Product>): seq<Product>
    decreases |ps|
  {
    if ps == [] then s else AddedAll(Added(s, ps[0]), ps[1..])
  }

  /** Adding `ps` one by one appends them in order, numbered on from the current
      length. */
  lemma {:induction false} AddedAllNumbers(s: seq<Product>, ps: seq<Product>)
    requires |s| + |ps| < INT_MAX
    ensures |AddedAll(s, ps)| == |s| + |ps|
    ensures AddedAll(s, ps)[..|s|] == s
    ensures forall i :: 0 <= i < |ps| ==> AddedAll(s, ps)[|s| + i] == ps[i].(id := |s| + i + 1)
    decreases |ps|
  {
    if ps != [] {
      var s' := Added(s, ps[0]);
      AddedAllNumbers(s', ps[1..]);
      var r := AddedAll(s', ps[1..]);
      assert r[..|s|] == r[..|s'|][..|s|];
      forall i | 0 <= i < |ps| ensures r[|s| + i] == ps[i].(id := |s| + i + 1) {
        if i == 0 {
          assert r[|s|] == r[..|s'|][|s|];
        } else {
          assert ps[1..][i - 1] == ps[i];
        }
      }
    }
  }

  /** From an empty catalogue with no deletes in between, the n-th product added has
      id n. */
  lemma AddedAllFromEmpty(ps: seq<Product>)
    requires |ps| < INT_MAX
    ensures |AddedAll([], ps)| == |ps|
    ensures forall i :: 0 <= i < |ps| ==> AddedAll([], ps)[i] == ps[i].(id := i + 1)
  {
    AddedAllNumbers([], ps);
  }

  /** Ids are not unique: add two products, delete the first, add a third, and two
      entries carry id 2. */
  lemma IdReuseAfterDelete(a: Product, b: Product, c: Product)
    ensures var s := Added(WithoutId(Added(Added([], a), b), 1), c);
      |s| == 2 && s[0] == b.(id := 2) && s[1] == c.(id := 2)
  {
    var s2 := Added(Added([], a), b);
    assert s2 == [a.(id := 1), b.(id := 2)];
    assert WithoutId(s2[1..], 1) == [b.(id := 2)] + WithoutId(s2[2..], 1);
    assert WithoutId(s2, 1) == [b.(id := 2)];
  }

  /** With duplicated ids an update reaches only the first of them: a later entry with
      the same id is left as it was. */
  lemma UpdateHitsFirstDuplicate(s: seq<Product>, j: nat, k: nat, p: Product)
    requires j < k < |s| && s[j].id == s[k].id == p.id
    requires forall i :: 0 <= i < j ==> s[i].id != p.id
    ensures Updated(s, p)[j] == p && Updated(s, p)[k] == s[k]
  {
  }

  class ProductViewModel {
    /** `_products.value` */
    var products: seq<Product>
    /** `_currentProduct.value` */
    var currentProduct: Option<Product>

    /** A fresh view model holds no products and no selection. */
    constructor ()
      ensures products == [] && currentProduct == None
    {
      products := [];
      currentProduct := None;
    }

    method AddProduct(product: Product)
      modifies this
      ensures products == Added(old(products), product)
      ensures |products| == |old(products)| + 1 && products[..|old(products)|] == old(products)
      ensures currentProduct == old(currentProduct)
    {
      var newList := products;
      newList := newList + [product.(id := Wrap32(|newList| + 1))];
      products := newList;
    }

    method UpdateProduct(product: Product)
      modifies this
      ensures products == Updated(old(products), product)
      ensures |products| == |old(products)|
      ensures currentProduct == old(currentProduct)
    {
      var newList := products;
      var index := IndexOfFirst(newList, product.id);
      if index != -1 {
        newList := newList[index := product];
        products := newList;
      }
    }

    method DeleteProduct(product: Product)
      modifies this
      ensures products == WithoutId(old(products), product.id)
      ensures forall i :: 0 <= i < |products| ==> products[i].id != product.id
      ensures currentProduct == old(currentProduct)
    {
      var newList := WithoutId(products, product.id);
      forall i | 0 <= i < |newList| ensures newList[i].id != product.id {
        assert newList[i] in newList;
      }
      products := newList;
    }

    method SetCurrentProduct(product: Option<Product>)
      modifies this
      ensures currentProduct == product
      ensures products == old(products)
    {
      currentProduct := product;
    }
  }

  /** The id-reuse scenario run against the view model itself. */
  method IdReuseScenario(a: Product, b: Product, c: Product) returns (ids: seq<int>)
    ensures ids == [2, 2]
  {
    var vm := new ProductViewModel();
    vm.AddProduct(a);
    vm.AddProduct(b);
    vm.DeleteProduct(vm.products[0]);
    vm.AddProduct(c);
    IdReuseAfterDelete(a, b, c);
    ids := [vm.products[0].id, vm.products[1].id];
  }
}
