/** The catalogue's record type and its closed category enumeration. */
module Model {
  import opened KotlinStd

  /** The three product categories; the enumeration is closed. */
  datatype ProductType = TSHIRT | CAP | SWEATSHIRT

  /** `ProductType.values()`, in declaration order. */
  const AllProductTypes: seq<ProductType> := [TSHIRT, CAP, SWEATSHIRT]

  /** A catalogue entry. `id` is optional at construction and then 0; the price is
      a Kotlin `Double`, modelled here as an exact real number. */
  datatype Product = Product(
    id: Int32 := 0,
    name: string,
    productType: ProductType,
    price: real,
    quantity: Int32)

  /** Every category is one of the three, and `values()` lists each exactly once. */
  lemma ProductTypeClosed(t: ProductType)
    ensures t == TSHIRT || t == CAP || t == SWEATSHIRT
    ensures t in AllProductTypes
    ensures |AllProductTypes| == 3
    ensures forall i, j :: 0 <= i < j < |AllProductTypes| ==> AllProductTypes[i] != AllProductTypes[j]
  {
  }

  /** A product built without naming its id gets id 0. */
  lemma DefaultIdIsZero(name: string, t: ProductType, price: real, quantity: Int32)
    ensures Product(name := name, productType := t, price := price, quantity := quantity).id == 0
  {
  }

  /** `product.copy(id = k)` sets the id and keeps the other four fields; copying the
      old id back restores the product. */
  lemma CopyChangesOnlyId(p: Product, k: Int32)
    ensures p.(id := k).id == k
    ensures p.(id := k).name == p.name && p.(id := k).productType == p.productType
    ensures p.(id := k).price == p.price && p.(id := k).quantity == p.quantity
    ensures p.(id := k).(id := p.id) == p
  {
  }

  /** Data-class equality: two products are equal exactly when all five fields are. */
  lemma ProductEquality(p: Product, q: Product)
    ensures p == q <==>
      (p.id == q.id && p.name == q.name && p.productType == q.productType &&
       p.price == q.price && p.quantity == q.quantity)
  {
  }
}
