# Product catalogue: store, validators and form logic

A model of the data side of a small Android catalogue app (Kotlin). Products
(id, name, category, price, quantity) live in one in-memory view model,
`ProductViewModel`. It keeps an ordered list and an optional "current product" that
the add/edit form uses to tell edit mode from create mode. Two sets of field rules
exist side by side:

- the standalone validators in `ProductValidation`, which check lower and upper
  bounds;
- the looser inline rules the form applies as the user types, which have no upper
  bounds and no name length.

Files and modules:

- `kotlin_std.dfy`, module `KotlinStd`: the Kotlin library behaviour the core relies
  on. It covers nullable values (`Option`), 32-bit `Int` wrap-around, `String.length`
  counted in UTF-16 code units, `String.toIntOrNull` in radix 10, and `Int.toString`
  with its round trip.
- `product.dfy`, module `Model`: the `Product` data class and the closed
  `ProductType` enumeration.
- `product_store.dfy`, module `Store`: the class `ProductViewModel`, with `seq` and
  `Option` fields that its methods overwrite. Next to it are the functions that
  specify each mutation on a plain list, and the lemmas about those functions.
- `product_validation.dfy`, module `Validation`: `ValidationResult` and the three
  validators.
- `product_form.dfy`, module `Form`: `FormState`, the inline rules, the field-edit
  callbacks, `isFormValid`, the prefill, the product the save button builds, and
  the save and cancel handlers acting on the view model.

Behaviour of the code that the model keeps:

- Ids are not unique. `addProduct` assigns `size + 1`, so after a delete the next
  add can reuse a live id (`Store.IdReuseAfterDelete`, `Store.IdReuseScenario`).
  `updateProduct` then reaches only the first entry with that id
  (`Store.UpdateHitsFirstDuplicate`). Saving an untouched edit of a later
  duplicate therefore overwrites the earlier entry (`Form.UnchangedEditOfLaterDuplicate`).
- `deleteProduct` removes every entry with the id (`Store.WithoutIdLength`).
- The inline price message "Le prix doit être un nombre" differs from the
  standalone "Le prix doit être un nombre valide" (`Form.InlineRejectionAgrees`).

## Model

| member | source | states |
|---|---|---|
| `KotlinStd.Wrap32` | app/src/main/java/com/example/cours/viewmodel/ProductViewModel.kt:21 | `Int` addition wraps modulo 2^32: the result is in the `Int` range, congruent to the exact sum, and equal to it when the sum fits |
| `KotlinStd.Utf16Length` | app/src/main/java/com/example/cours/validation/ProductValidation.kt:11-13 | `String.length` lies between the character count and twice it, and is 0 exactly for the empty string (so `isEmpty` and `length == 0` agree) |
| `KotlinStd.Utf16LengthInBmp` | app/src/main/java/com/example/cours/validation/ProductValidation.kt:12-13 | for text of Basic Multilingual Plane characters, `length` is the character count |
| `KotlinStd.Option.OrElse` | app/src/main/java/com/example/cours/screens/ProductFormScreen.kt:188-192 | the elvis operator `x ?: d` is the value of `x` when it is not null and `d` otherwise |
| `KotlinStd.SignedValue` | app/src/main/java/com/example/cours/validation/ProductValidation.kt:31-33 | the digit part of `toIntOrNull` gives a value exactly when every character is a digit and the signed number fits in an `Int`, and that value is the signed number the digits denote |
| `KotlinStd.ToIntOrNull` | app/src/main/java/com/example/cours/validation/ProductValidation.kt:31-33 | parsing succeeds exactly when the text is an optional `+` or `-` followed by one or more digits and its value fits in an `Int`, and then returns that value; a negative result needs a leading `-` |
| `KotlinStd.NatToDigits` | app/src/main/java/com/example/cours/screens/ProductFormScreen.kt:44 | the decimal digits of a natural number are non-empty, all digits, without a leading zero, and denote that number |
| `KotlinStd.IntToString` | app/src/main/java/com/example/cours/screens/ProductFormScreen.kt:44 | `Int.toString` is non-empty and starts with `-` exactly for negative numbers |
| `KotlinStd.IntToStringRoundTrip` | app/src/main/java/com/example/cours/screens/ProductFormScreen.kt:44 | `toIntOrNull(n.toString()) == n` for every `Int` n |
| `Model.ProductTypeClosed` | app/src/main/java/com/example/cours/model/Product.kt:11-15 | every category is TSHIRT, CAP or SWEATSHIRT; `values()` lists the three, each once |
| `Model.DefaultIdIsZero` | app/src/main/java/com/example/cours/model/Product.kt:4 | a product built without an id has id 0 |
| `Model.CopyChangesOnlyId` | app/src/main/java/com/example/cours/model/Product.kt:3-9 | `copy(id = k)` sets the id, keeps the other four fields, and copying the old id back gives the same product |
| `Model.ProductEquality` | app/src/main/java/com/example/cours/model/Product.kt:3-9 | two products are equal exactly when all five fields are equal |
| `Store.NextId` | app/src/main/java/com/example/cours/viewmodel/ProductViewModel.kt:21 | the assigned id is the list length plus one whenever that fits in an `Int` |
| `Store.Added` | app/src/main/java/com/example/cours/viewmodel/ProductViewModel.kt:20-22 | adding grows the list by one, keeps every earlier entry, and puts the product with the next id last |
| `Store.IndexOfFirst` | app/src/main/java/com/example/cours/viewmodel/ProductViewModel.kt:29 | `indexOfFirst` is -1 exactly when no entry has the id; otherwise the entry there has the id and no earlier one does |
| `Store.Updated` | app/src/main/java/com/example/cours/viewmodel/ProductViewModel.kt:28-32 | an absent id leaves the list unchanged; otherwise exactly the first entry with that id is replaced by the product |
| `Store.WithoutId` | app/src/main/java/com/example/cours/viewmodel/ProductViewModel.kt:39 | after the delete, an entry is present exactly when it was present before and has a different id; the list does not grow |
| `Store.WithoutIdAppend` | app/src/main/java/com/example/cours/viewmodel/ProductViewModel.kt:39 | deleting from a concatenation deletes from each part, so survivors keep their relative order |
| `Store.WithoutIdLength` | app/src/main/java/com/example/cours/viewmodel/ProductViewModel.kt:39 | the delete removes exactly as many entries as carry the id |
| `Store.WithoutIdAbsent` | app/src/main/java/com/example/cours/viewmodel/ProductViewModel.kt:39-40 | deleting an id that no entry has leaves the list unchanged |
| `Store.WithoutIdPresent` | app/src/main/java/com/example/cours/viewmodel/ProductViewModel.kt:39-40 | deleting an id that occurs leaves no entry with it, and the list gets shorter |
| `Store.UpdatedKeepsIds` | app/src/main/java/com/example/cours/viewmodel/ProductViewModel.kt:28-32 | an update keeps the length and the id at every position, so it never changes an assigned id |
| `Store.IdsPositivePreserved` | app/src/main/java/com/example/cours/viewmodel/ProductViewModel.kt:18-42 | all ids stay at least 1 under update and delete, and under add while the list is shorter than the largest `Int` |
| `Store.AddedAllNumbers` | app/src/main/java/com/example/cours/viewmodel/ProductViewModel.kt:21 | a run of adds keeps the existing entries and appends the new products in order, numbered on from the current length |
| `Store.AddedAllFromEmpty` | app/src/main/java/com/example/cours/viewmodel/ProductViewModel.kt:12-22 | from an empty list, n adds with no deletes give ids 1..n in insertion order, other fields as supplied |
| `Store.IdReuseAfterDelete` | app/src/main/java/com/example/cours/viewmodel/ProductViewModel.kt:21-39 | add, add, delete the first, add leaves two entries, both with id 2 |
| `Store.UpdateHitsFirstDuplicate` | app/src/main/java/com/example/cours/viewmodel/ProductViewModel.kt:29-31 | with a duplicated id, an update replaces the first entry and leaves the later one as it was |
| `Store.ProductViewModel.constructor` | app/src/main/java/com/example/cours/viewmodel/ProductViewModel.kt:12-16 | a new view model has no products and no current product |
| `Store.ProductViewModel.AddProduct` | app/src/main/java/com/example/cours/viewmodel/ProductViewModel.kt:18-24 | the list becomes the old one plus the product with the next id; length grows by one, the prefix is unchanged, the selection is untouched |
| `Store.ProductViewModel.UpdateProduct` | app/src/main/java/com/example/cours/viewmodel/ProductViewModel.kt:26-35 | the list becomes the update of the old list (first matching entry replaced, or unchanged); length and selection are kept |
| `Store.ProductViewModel.DeleteProduct` | app/src/main/java/com/example/cours/viewmodel/ProductViewModel.kt:37-42 | the list becomes the old one without the product's id, no entry keeps that id, and the selection is untouched |
| `Store.ProductViewModel.SetCurrentProduct` | app/src/main/java/com/example/cours/viewmodel/ProductViewModel.kt:44-46 | the selection becomes exactly the argument, null included, and the list is untouched |
| `Store.IdReuseScenario` | app/src/main/java/com/example/cours/viewmodel/ProductViewModel.kt:18-42 | on a real view model, add, add, delete the first, add ends with ids [2, 2] |
| `Validation.ValidateName` | app/src/main/java/com/example/cours/validation/ProductValidation.kt:9-16 | the result is well formed; valid exactly when the length is 3..50; "requis" exactly for the empty name, "au moins 3" exactly for length 1-2, "ne doit pas dépasser 50" exactly above 50 |
| `Validation.ValidatePrice` | app/src/main/java/com/example/cours/validation/ProductValidation.kt:18-26 | well formed; valid exactly when the text parses to a number in [0, 1000]; each message exactly for its case, in the order empty, not a number, negative, above 1000 |
| `Validation.ValidateQuantity` | app/src/main/java/com/example/cours/validation/ProductValidation.kt:28-36 | well formed; valid exactly when the text parses as an `Int` in [0, 1000]; each message exactly for its case, in the order empty, not an integer, negative, above 1000 |
| `Validation.ValidateNameBmp` | app/src/main/java/com/example/cours/validation/ProductValidation.kt:12-13 | for ordinary characters, a name is valid exactly when it has 3 to 50 characters |
| `Validation.ValidateNameExamples` | app/src/main/java/com/example/cours/validation/ProductValidation.kt:10-15 | "ab" is too short, "Shirt" is valid, "" is required |
| `Validation.ValidatePriceExamples` | app/src/main/java/com/example/cours/validation/ProductValidation.kt:19-25 | "-5" is negative, "abc" is not a number, "1500" is above 1000 |
| `Validation.ValidateQuantityExamples` | app/src/main/java/com/example/cours/validation/ProductValidation.kt:29-35 | "abc" and "1.5" are not integers, "-3" is negative, "1500" is above 1000, "+12" and "500" are valid |
| `Form.NameError` | app/src/main/java/com/example/cours/screens/ProductFormScreen.kt:66-70 | the inline name error is absent exactly when the name is non-empty, and is "Le nom est requis" otherwise |
| `Form.PriceError` | app/src/main/java/com/example/cours/screens/ProductFormScreen.kt:117-126 | no error exactly when the text parses to a non-negative number (no upper bound); each message exactly for its case in the order empty, not a number, negative |
| `Form.QuantityError` | app/src/main/java/com/example/cours/screens/ProductFormScreen.kt:144-153 | no error exactly when the text parses as a non-negative `Int` (no upper bound); each message exactly for its case in the order empty, not an integer, negative |
| `Form.OnNameChange` | app/src/main/java/com/example/cours/screens/ProductFormScreen.kt:66-70 | typing a name sets the name and its inline error; every other field is unchanged |
| `Form.OnPriceChange` | app/src/main/java/com/example/cours/screens/ProductFormScreen.kt:117-126 | typing a price sets the price and its inline error; every other field is unchanged |
| `Form.OnQuantityChange` | app/src/main/java/com/example/cours/screens/ProductFormScreen.kt:144-153 | typing a quantity sets the quantity and its inline error; every other field is unchanged |
| `Form.OnTypeSelected` | app/src/main/java/com/example/cours/screens/ProductFormScreen.kt:107 | choosing a category changes only the category |
| `Form.IsFormValid` | app/src/main/java/com/example/cours/screens/ProductFormScreen.kt:212-216 | valid exactly when all three errors are null and name, price and quantity are all non-empty |
| `Form.EditsKeepConsistent` | app/src/main/java/com/example/cours/screens/ProductFormScreen.kt:66-153 | once each text field has been typed in, every shown error is the inline rule's verdict on the current text, and later edits keep it so |
| `Form.ConsistentFormValid` | app/src/main/java/com/example/cours/screens/ProductFormScreen.kt:212-216 | on such a form, saving is enabled exactly when the name is non-empty, the price a non-negative number and the quantity a non-negative `Int` |
| `Form.StandaloneImpliesInline` | app/src/main/java/com/example/cours/screens/ProductFormScreen.kt:66-153 | every name, price and quantity the standalone validators accept also passes the inline rule |
| `Form.InlineRejectionAgrees` | app/src/main/java/com/example/cours/screens/ProductFormScreen.kt:117-126 | whatever an inline rule rejects, the standalone validator rejects with the same message, except an unparseable price, whose messages differ |
| `Form.InlineLooserThanStandalone` | app/src/main/java/com/example/cours/screens/ProductFormScreen.kt:117-126 | "ab", price "1500" and quantity "1500" pass inline but fail the standalone validators |
| `Form.Prefill` | app/src/main/java/com/example/cours/screens/ProductFormScreen.kt:39-47 | no errors; create mode gives empty texts and TSHIRT; edit mode gives the product's name, category and price text, and a quantity text that reads back as the product's quantity |
| `Form.CreateModeStartsInvalid` | app/src/main/java/com/example/cours/screens/ProductFormScreen.kt:39-47 | a fresh create-mode form cannot be saved |
| `Form.BuildProduct` | app/src/main/java/com/example/cours/screens/ProductFormScreen.kt:187-193 | the id is the selection's id in edit mode and 0 in create mode; unparseable texts become 0; from a valid consistent form, the name is non-empty and price and quantity are the non-negative parsed values |
| `Form.UntouchedFormRebuildsProduct` | app/src/main/java/com/example/cours/screens/ProductFormScreen.kt:186-193 | a form prefilled from a product, with a price text that reads back, can be saved exactly when the name is non-empty, and saving it untouched builds that same product |
| `Form.UnchangedEditIsNoOp` | app/src/main/java/com/example/cours/screens/ProductFormScreen.kt:186-199 | opening an entry that is first with its id, with a non-empty name and a price that reads back, gives a form that can be saved, and saving it untouched leaves the list unchanged |
| `Form.UnchangedEditOfLaterDuplicate` | app/src/main/java/com/example/cours/screens/ProductFormScreen.kt:186-199 | saving untouched an entry whose id an earlier entry shares overwrites that earlier entry with a copy of the edited one, and changes the list whenever the two differ |
| `Form.Submit` | app/src/main/java/com/example/cours/screens/ProductFormScreen.kt:185-201 | an invalid form changes nothing; a valid one updates (edit mode) or adds (create mode) the built product, clears the selection and returns the product |
| `Form.Cancel` | app/src/main/java/com/example/cours/screens/ProductFormScreen.kt:176-179 | cancel clears the selection and keeps the list |
| `Form.EditAndSaveUnchanged` | app/src/main/java/com/example/cours/screens/ProductScreens.kt:70-73 | selecting any entry from the list, opening the form and saving untouched: with an empty name nothing is saved and the entry stays selected; otherwise that entry is saved, the selection is cleared and the list becomes its update with that entry, which is the unchanged list when no earlier entry shares its id |

## Left out

- All Compose layout, theming, the drop-down open/closed flag (`showDropdown`), the home, settings and navigation screens: presentation only, with no effect on the data.
- `viewModelScope.launch` and `StateFlow` observation: each mutator is one synchronous, atomic update of the two fields. On the main thread the launched block runs at once, so the save handler's order (update or add, then clear the selection) is kept.
- `KotlinStd.ToIntOrNull`: models radix-10 parsing of ASCII digits only. The JVM also accepts other Unicode decimal digits, which this model treats as non-digits.
- Price parsing (`toDoubleOrNull`) and formatting (`Double.toString`): these are parameters (`DoubleParser`, `DoubleFormatter`) and `Double` is an exact real. There is no rounding, no NaN and no infinities. In Kotlin, "NaN" parses, and NaN fails both the `< 0` and `> 1000` tests, so `validatePrice("NaN")` is valid. The model cannot express this.
- Data-class equality on `Double` (NaN equal to itself, 0.0 different from -0.0): exact real equality is used instead.
- `onSave` and `onCancel` callbacks into navigation: `onSave` becomes the product `Form.Submit` returns; `onCancel` is not modelled.
- `Form.EditAndSaveUnchanged`: assumes the price text reads back as the price. `Double.toString` followed by `toDoubleOrNull` gives this for every finite `Double`, but the model takes both as parameters.
- `Form.Prefill`: the form state is `remember`ed, so it is computed once from the selection when the form opens. The model takes it as the form value passed to `Form.Submit` and does not model recomposition.
