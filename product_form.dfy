/** The non-layout logic of the add/edit form (`ProductFormScreen`): its state
    record, the inline per-field error rules, `isFormValid`, the prefill from the
    selected product, and what the save and cancel buttons do to the view model. */
module Form {
  import opened KotlinStd
  import opened Model
  import opened Store
  import Validation

  type DoubleParser = Validation.DoubleParser

  /** `Double.toString()`, supplied from outside; used only to prefill the price. */
  type DoubleFormatter = real -> string

  /** `FormState`: the three text fields, the chosen category and one inline error per
      text field (`None` when the field shows no error). */
  datatype FormState = FormState(
    name: string := "",
    price: string := "",
    quantity: string := "",
    productType: ProductType := TSHIRT,
    nameError: Option<string> := None,
    priceError: Option<string> := None,
    quantityError: Option<string> := None)

  const NAME_REQUIRED := "Le nom est requis"
  const PRICE_REQUIRED := "Le prix est requis"
  const PRICE_NOT_A_NUMBER := "Le prix doit être un nombre"
  const PRICE_NEGATIVE := "Le prix ne peut pas être négatif"
  const QUANTITY_REQUIRED := "La quantité est requise"
  const QUANTITY_NOT_INTEGER := "La quantité doit être un nombre entier"
  const QUANTITY_NEGATIVE := "La quantité ne peut pas être négative"

  /** The inline name rule: only emptiness is checked, there is no length bound. */
  function NameError(name: string): (e: Option<string>)
    ensures e.None? <==> name != ""
    ensures e.Some? ==> e.value == NAME_REQUIRED
  {
    if |name| == 0 then Some(NAME_REQUIRED) else None
  }

  /** The inline price rule: required, then a number, then not negative; there is no
      upper bound. */
  function PriceError(price: string, toDouble: DoubleParser): (e: Option<string>)
    ensures e.None? <==> price != "" && toDouble(price).Some? && toDouble(price).value >= 0.0
    ensures e == Some(PRICE_REQUIRED) <==> price == ""
    ensures e == Some(PRICE_NOT_A_NUMBER) <==> price != "" && toDouble(price).None?
    ensures e == Some(PRICE_NEGATIVE) <==> price != "" && toDouble(price).Some? && toDouble(price).value < 0.0
  {
    if |price| == 0 then Some(PRICE_REQUIRED)
    else if toDouble(price).None? then Some(PRICE_NOT_A_NUMBER)
    else if toDouble(price).value < 0.0 then Some(PRICE_NEGATIVE)
    else None
  }

  /** The inline quantity rule: required, then an `Int`, then not negative; there is
      no upper bound. */
  function QuantityError(quantity: string): (e: Option<string>)
    ensures e.None? <==> ToIntOrNull(quantity).Some? && ToIntOrNull(quantity).value >= 0
    ensures e == Some(QUANTITY_REQUIRED) <==> quantity == ""
    ensures e == Some(QUANTITY_NOT_INTEGER) <==> quantity != "" && ToIntOrNull(quantity).None?
    ensures e == Some(QUANTITY_NEGATIVE) <==> ToIntOrNull(quantity).Some? && ToIntOrNull(quantity).value < 0
  {
    if |quantity| == 0 then Some(QUANTITY_REQUIRED)
    else if ToIntOrNull(quantity).None? then Some(QUANTITY_NOT_INTEGER)
    else if ToIntOrNull(quantity).value < 0 then Some(QUANTITY_NEGATIVE)
    else None
  }

  /** Typing in the name field: the name and its error change, nothing else. */
  function OnNameChange(f: FormState, text: string): (g: FormState)
    ensures g.name == text && g.nameError == NameError(text)
    ensures g.(name := f.name, nameError := f.nameError) == f
  {
    f.(name := text, nameError := NameError(text))
  }

  /** Typing in the price field: the price and its error change, nothing else. */
  function OnPriceChange(f: FormState, text: string, toDouble: DoubleParser): (g: FormState)
    ensures g.price == text && g.priceError == PriceError(text, toDouble)
    ensures g.(price := f.price, priceError := f.priceError) == f
  {
    f.(price := text, priceError := PriceError(text, toDouble))
  }

  /** Typing in the quantity field: the quantity and its error change, nothing else. */
  function OnQuantityChange(f: FormState, text: string): (g: FormState)
    ensures g.quantity == text && g.quantityError == QuantityError(text)
    ensures g.(quantity := f.quantity, quantityError := f.quantityError) == f
  {
    f.(quantity := text, quantityError := QuantityError(text))
  }

  /** Picking a category from the drop-down: only the category changes. */
  function OnTypeSelected(f: FormState, t: ProductType): (g: FormState)
    ensures g.productType == t && g.(productType := f.productType) == f
  {
    f.(productType := t)
  }

  /** `isFormValid`: no field shows an error and no text field is empty. */
  function IsFormValid(f: FormState): (b: bool)
    ensures b <==>
      f.nameError.None? && f.name != "" &&
      f.priceError.None? && f.price != "" &&
      f.quantityError.None? && f.quantity != ""
  {
    f.nameError.None? && |f.name| != 0 &&
    f.priceError.None? && |f.price| != 0 &&
    f.quantityError.None? && |f.quantity| != 0
  }

  /** Every error shown is the one the inline rule gives for the current text: this is
      the case once each text field has been typed in. */
  predicate Consistent(f: FormState, toDouble: DoubleParser) {
    f.nameError == NameError(f.name) &&
    f.priceError == PriceError(f.price, toDouble) &&
    f.quantityError == QuantityError(f.quantity)
  }

  /** Once every text field has been typed in, the errors match the texts whatever
      state the form started from, and later edits of any field keep it so. */
  lemma EditsKeepConsistent(f: FormState, n: string, p: string, q: string, t: ProductType, toDouble: DoubleParser)
    ensures Consistent(OnQuantityChange(OnPriceChange(OnNameChange(f, n), p, toDouble), q), toDouble)
    ensures Consistent(f, toDouble) ==>
      Consistent(OnNameChange(f, n), toDouble) && Consistent(OnPriceChange(f, p, toDouble), toDouble) &&
      Consistent(OnQuantityChange(f, q), toDouble) && Consistent(OnTypeSelected(f, t), toDouble)
  {
  }

  /** On a form whose errors match its texts, saving is allowed exactly when the name
      is non-empty, the price is a non-negative number and the quantity a
      non-negative `Int`. */
  lemma ConsistentFormValid(f: FormState, toDouble: DoubleParser)
    requires Consistent(f, toDouble)
    ensures IsFormValid(f) <==>
      f.name != "" &&
      toDouble(f.price).Some? && toDouble(f.price).value >= 0.0 && f.price != "" &&
      ToIntOrNull(f.quantity).Some? && ToIntOrNull(f.quantity).value >= 0
  {
  }

  /** Whatever the standalone validators accept, the inline rules accept too. */
  lemma StandaloneImpliesInline(name: string, price: string, quantity: string, toDouble: DoubleParser)
    ensures Validation.ValidateName(name).isValid ==> NameError(name).None?
    ensures Validation.ValidatePrice(price, toDouble).isValid ==> PriceError(price, toDouble).None?
    ensures Validation.ValidateQuantity(quantity).isValid ==> QuantityError(quantity).None?
  {
  }

  /** Whatever the inline rules reject, the standalone validators reject too, with the
      same message, except for a price that is not a number, where the messages
      differ. */
  lemma InlineRejectionAgrees(name: string, price: string, quantity: string, toDouble: DoubleParser)
    ensures NameError(name).Some? ==>
      Validation.ValidateName(name).errorMessage == NameError(name)
    ensures PriceError(price, toDouble).Some? && PriceError(price, toDouble) != Some(PRICE_NOT_A_NUMBER) ==>
      Validation.ValidatePrice(price, toDouble).errorMessage == PriceError(price, toDouble)
    ensures PriceError(price, toDouble) == Some(PRICE_NOT_A_NUMBER) ==>
      !Validation.ValidatePrice(price, toDouble).isValid &&
      Validation.ValidatePrice(price, toDouble).errorMessage != PriceError(price, toDouble)
    ensures QuantityError(quantity).Some? ==>
      Validation.ValidateQuantity(quantity).errorMessage == QuantityError(quantity)
  {
  }

  /** The inline rules are strictly looser: a two-letter name, a price of 1500 and a
      quantity of 1500 pass inline and fail the standalone validators. */
  lemma InlineLooserThanStandalone(toDouble: DoubleParser)
    requires toDouble("1500") == Some(1500.0)
    ensures NameError("ab").None? && !Validation.ValidateName("ab").isValid
    ensures PriceError("1500", toDouble).None? && !Validation.ValidatePrice("1500", toDouble).isValid
    ensures QuantityError("1500").None? && !Validation.ValidateQuantity("1500").isValid
  {
    Utf16LengthInBmp("ab");
    Validation.ValidateQuantityExamples();
  }

  /** The form's initial state: empty fields and T-shirt in create mode, the selected
      product's fields in edit mode; no error is shown either way. */
  function Prefill(current: Option<Product>, priceText: DoubleFormatter): (f: FormState)
    ensures f.nameError.None? && f.priceError.None? && f.quantityError.None?
    ensures current.None? ==> f.name == "" && f.price == "" && f.quantity == "" && f.productType == TSHIRT
    ensures current.Some? ==>
      f.name == current.value.name && f.productType == current.value.productType &&
      f.price == priceText(current.value.price) &&
      ToIntOrNull(f.quantity) == Some(current.value.quantity)
  {
    match current
    case None => FormState()
    case Some(p) =>
      IntToStringRoundTrip(p.quantity);
      FormState(
        name := p.name,
        price := priceText(p.price),
        quantity := IntToString(p.quantity),
        productType := p.productType)
  }

  /** A create-mode form cannot be saved before anything is typed. */
  lemma CreateModeStartsInvalid(priceText: DoubleFormatter)
    ensures !IsFormValid(Prefill(None, priceText))
  {
  }

  /** The product the save button builds: the selected product's id in edit mode and
      0 in create mode, the texts read back as numbers with 0 when they are not. */
  function BuildProduct(f: FormState, current: Option<Product>, toDouble: DoubleParser): (p: Product)
    ensures p.id == (if current.Some? then current.value.id else 0)
    ensures p.name == f.name && p.productType == f.productType
    ensures p.price == (if toDouble(f.price).Some? then toDouble(f.price).value else 0.0)
    ensures p.quantity == (if ToIntOrNull(f.quantity).Some? then ToIntOrNull(f.quantity).value else 0)
    ensures Consistent(f, toDouble) && IsFormValid(f) ==>
      p.name != "" && p.price >= 0.0 && p.quantity >= 0 &&
      toDouble(f.price) == Some(p.price) && ToIntOrNull(f.quantity) == Some(p.quantity)
  {
    Product(
      id := if current.Some? then current.value.id else 0,
      name := f.name,
      productType := f.productType,
      price := toDouble(f.price).OrElse(0.0),
      quantity := ToIntOrNull(f.quantity).OrElse(0))
  }

  /** A form prefilled from `p` and saved untouched rebuilds `p` itself, provided the
      price text reads back as the price. It can be saved exactly when the name is
      not empty. */
  lemma UntouchedFormRebuildsProduct(p: Product, toDouble: DoubleParser, priceText: DoubleFormatter)
    requires priceText(p.price) != "" && toDouble(priceText(p.price)) == Some(p.price)
    ensures IsFormValid(Prefill(Some(p), priceText)) <==> p.name != ""
    ensures BuildProduct(Prefill(Some(p), priceText), Some(p), toDouble) == p
  {
  }

  /** Opening an entry for editing and saving it untouched leaves the catalogue as it
      was, provided the entry is the first with its id, its name is not empty and the
      price reads back as written. */
  lemma UnchangedEditIsNoOp(s: seq<Product>, k: nat, toDouble: DoubleParser, priceText: DoubleFormatter)
    requires k < |s| && forall j :: 0 <= j < k ==> s[j].id != s[k].id
    requires s[k].name != ""
    requires priceText(s[k].price) != "" && toDouble(priceText(s[k].price)) == Some(s[k].price)
    ensures IsFormValid(Prefill(Some(s[k]), priceText))
    ensures Updated(s, BuildProduct(Prefill(Some(s[k]), priceText), Some(s[k]), toDouble)) == s
  {
    UntouchedFormRebuildsProduct(s[k], toDouble, priceText);
    assert s[k := s[k]] == s;
  }

  /** Saving untouched an entry whose id an earlier entry also carries overwrites that
      earlier entry with a copy of the edited one; the list changes whenever the two
      entries differ. */
  lemma UnchangedEditOfLaterDuplicate(s: seq<Product>, j: nat, k: nat, toDouble: DoubleParser, priceText: DoubleFormatter)
    requires j < k < |s| && s[j].id == s[k].id
    requires forall i :: 0 <= i < j ==> s[i].id != s[k].id
    requires s[k].name != ""
    requires priceText(s[k].price) != "" && toDouble(priceText(s[k].price)) == Some(s[k].price)
    ensures IsFormValid(Prefill(Some(s[k]), priceText))
    ensures Updated(s, BuildProduct(Prefill(Some(s[k]), priceText), Some(s[k]), toDouble)) == s[j := s[k]]
    ensures s[j] != s[k] ==>
      Updated(s, BuildProduct(Prefill(Some(s[k]), priceText), Some(s[k]), toDouble)) != s
  {
    UntouchedFormRebuildsProduct(s[k], toDouble, priceText);
    assert s[j := s[k]][j] == s[k];
  }

  /** The save button: nothing happens unless the form is valid; otherwise the built
      product updates the selected entry in edit mode or is added in create mode,
      the selection is cleared, and the product is handed to `onSave`. */
  method Submit(vm: ProductViewModel, form: FormState, toDouble: DoubleParser) returns (saved: Option<Product>)
    modifies vm
    ensures !IsFormValid(form) ==>
      saved.None? && vm.products == old(vm.products) && vm.currentProduct == old(vm.currentProduct)
    ensures IsFormValid(form) ==>
      saved == Some(BuildProduct(form, old(vm.currentProduct), toDouble)) &&
      vm.currentProduct.None? &&
      vm.products == (if old(vm.currentProduct).Some? then Updated(old(vm.products), saved.value)
                      else Added(old(vm.products), saved.value))
  {
    if IsFormValid(form) {
      var product := BuildProduct(form, vm.currentProduct, toDouble);
      if vm.currentProduct.Some? {
        vm.UpdateProduct(product);
      } else {
        vm.AddProduct(product);
      }
      vm.SetCurrentProduct(None);
      saved := Some(product);
    } else {
      saved := None;
    }
  }

  /** The cancel button clears the selection and leaves the list alone. */
  method Cancel(vm: ProductViewModel)
    modifies vm
    ensures vm.currentProduct.None? && vm.products == old(vm.products)
  {
    vm.SetCurrentProduct(None);
  }

  /** The list screen's edit action selects the entry at `k`; the form then opens
      prefilled and is saved untouched. With an empty name the save button does nothing
      and the entry stays selected. Otherwise the update reaches the first entry with
      the edited entry's id: the list is unchanged when that is the edited entry, and
      an earlier duplicate is overwritten when it is not. The price text is assumed to
      read back as the price, as `Double.toString` and `toDoubleOrNull` guarantee for
      every finite `Double`. */
  method EditAndSaveUnchanged(vm: ProductViewModel, k: nat, toDouble: DoubleParser, priceText: DoubleFormatter)
    returns (saved: Option<Product>)
    requires k < |vm.products|
    requires priceText(vm.products[k].price) != ""
    requires toDouble(priceText(vm.products[k].price)) == Some(vm.products[k].price)
    modifies vm
    ensures old(vm.products[k]).name == "" ==>
      saved.None? && vm.products == old(vm.products) && vm.currentProduct == Some(old(vm.products[k]))
    ensures old(vm.products[k]).name != "" ==>
      saved == Some(old(vm.products[k])) && vm.currentProduct.None? &&
      vm.products == Updated(old(vm.products), old(vm.products[k]))
    ensures (forall j :: 0 <= j < k ==> old(vm.products[j]).id != old(vm.products[k]).id) ==>
      vm.products == old(vm.products)
  {
    var p := vm.products[k];
    ghost var s := vm.products;
    vm.SetCurrentProduct(Some(p));
    var form := Prefill(vm.currentProduct, priceText);
    UntouchedFormRebuildsProduct(p, toDouble, priceText);
    saved := Submit(vm, form, toDouble);
    assert s[k := p] == s;
  }
}
