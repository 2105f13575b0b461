/** The standalone field validators (`ProductValidation`). Each rule list is tried
    in order and the first rule that applies decides the message. */
module Validation {
  import opened KotlinStd

  /** `String.toDoubleOrNull()`, supplied from outside: `None` when the text is not a
      number. The price rules depend on nothing else about it. */
  type DoubleParser = string -> Option<real>

  /** `ValidationResult(isValid, errorMessage)`; the message defaults to `null`. */
  datatype ValidationResult = ValidationResult(isValid: bool, errorMessage: Option<string> := None)

  /** A verdict is either valid with no message or invalid with one. */
  predicate WellFormed(r: ValidationResult) {
    r.isValid <==> r.errorMessage.None?
  }

  const NAME_REQUIRED := "Le nom est requis"
  const NAME_TOO_SHORT := "Le nom doit contenir au moins 3 caractères"
  const NAME_TOO_LONG := "Le nom ne doit pas dépasser 50 caractères"
  const PRICE_REQUIRED := "Le prix est requis"
  const PRICE_INVALID := "Le prix doit être un nombre valide"
  const PRICE_NEGATIVE := "Le prix ne peut pas être négatif"
  const PRICE_TOO_HIGH := "Le prix ne peut pas dépasser 1000€"
  const QUANTITY_REQUIRED := "La quantité est requise"
  const QUANTITY_NOT_INTEGER := "La quantité doit être un nombre entier"
  const QUANTITY_NEGATIVE := "La quantité ne peut pas être négative"
  const QUANTITY_TOO_HIGH := "La quantité ne peut pas dépasser 1000"

  /** `validateName`: required, then at least 3 and at most 50 UTF-16 code units. */
  function ValidateName(name: string): (r: ValidationResult)
    ensures WellFormed(r)
    ensures r.isValid <==> 3 <= Utf16Length(name) <= 50
    ensures r.errorMessage == Some(NAME_REQUIRED) <==> name == ""
    ensures r.errorMessage == Some(NAME_TOO_SHORT) <==> 1 <= Utf16Length(name) <= 2
    ensures r.errorMessage == Some(NAME_TOO_LONG) <==> Utf16Length(name) > 50
  {
    if Utf16Length(name) == 0 then ValidationResult(false, Some(NAME_REQUIRED))
    else if Utf16Length(name) < 3 then ValidationResult(false, Some(NAME_TOO_SHORT))
    else if Utf16Length(name) > 50 then ValidationResult(false, Some(NAME_TOO_LONG))
    else ValidationResult(true)
  }

  /** `validatePrice`: required, then a number, then not negative, then at most 1000. */
  function ValidatePrice(price: string, toDouble: DoubleParser): (r: ValidationResult)
    ensures WellFormed(r)
    ensures r.isValid <==> price != "" && toDouble(price).Some? && 0.0 <= toDouble(price).value <= 1000.0
    ensures r.errorMessage == Some(PRICE_REQUIRED) <==> price == ""
    ensures r.errorMessage == Some(PRICE_INVALID) <==> price != "" && toDouble(price).None?
    ensures r.errorMessage == Some(PRICE_NEGATIVE) <==>
      price != "" && toDouble(price).Some? && toDouble(price).value < 0.0
    ensures r.errorMessage == Some(PRICE_TOO_HIGH) <==>
      price != "" && toDouble(price).Some? && toDouble(price).value > 1000.0
  {
    if |price| == 0 then ValidationResult(false, Some(PRICE_REQUIRED))
    else if toDouble(price).None? then ValidationResult(false, Some(PRICE_INVALID))
    else if toDouble(price).value < 0.0 then ValidationResult(false, Some(PRICE_NEGATIVE))
    else if toDouble(price).value > 1000.0 then ValidationResult(false, Some(PRICE_TOO_HIGH))
    else ValidationResult(true)
  }

  /** `validateQuantity`: required, then an `Int`, then not negative, then at most 1000. */
  function ValidateQuantity(quantity: string): (r: ValidationResult)
    ensures WellFormed(r)
    ensures r.isValid <==> ToIntOrNull(quantity).Some? && 0 <= ToIntOrNull(quantity).value <= 1000
    ensures r.errorMessage == Some(QUANTITY_REQUIRED) <==> quantity == ""
    ensures r.errorMessage == Some(QUANTITY_NOT_INTEGER) <==> quantity != "" && ToIntOrNull(quantity).None?
    ensures r.errorMessage == Some(QUANTITY_NEGATIVE) <==>
      ToIntOrNull(quantity).Some? && ToIntOrNull(quantity).value < 0
    ensures r.errorMessage == Some(QUANTITY_TOO_HIGH) <==>
      ToIntOrNull(quantity).Some? && ToIntOrNull(quantity).value > 1000
  {
    if |quantity| == 0 then ValidationResult(false, Some(QUANTITY_REQUIRED))
    else if ToIntOrNull(quantity).None? then ValidationResult(false, Some(QUANTITY_NOT_INTEGER))
    else if ToIntOrNull(quantity).value < 0 then ValidationResult(false, Some(QUANTITY_NEGATIVE))
    else if ToIntOrNull(quantity).value > 1000 then ValidationResult(false, Some(QUANTITY_TOO_HIGH))
    else ValidationResult(true)
  }

  /** For names of ordinary characters the bounds are on the character count. */
  lemma ValidateNameBmp(name: string)
    requires InBmp(name)
    ensures ValidateName(name).isValid <==> 3 <= |name| <= 50
  {
    Utf16LengthInBmp(name);
  }

  /** Sample names: too short, accepted, and empty. */
  lemma ValidateNameExamples()
    ensures ValidateName("ab") == ValidationResult(false, Some(NAME_TOO_SHORT))
    ensures ValidateName("Shirt") == ValidationResult(true, None)
    ensures ValidateName("") == ValidationResult(false, Some(NAME_REQUIRED))
  {
    Utf16LengthInBmp("ab");
    Utf16LengthInBmp("Shirt");
  }

  /** Sample prices, for any parser that reads them the way Kotlin does. */
  lemma ValidatePriceExamples(toDouble: DoubleParser)
    requires toDouble("-5") == Some(-5.0) && toDouble("abc") == None && toDouble("1500") == Some(1500.0)
    ensures ValidatePrice("-5", toDouble).errorMessage == Some(PRICE_NEGATIVE)
    ensures ValidatePrice("abc", toDouble).errorMessage == Some(PRICE_INVALID)
    ensures ValidatePrice("1500", toDouble).errorMessage == Some(PRICE_TOO_HIGH)
  {
  }

  /** Text that is not a whole number, a fraction included, is not an integer quantity. */
  lemma ValidateQuantityExamples()
    ensures ValidateQuantity("abc").errorMessage == Some(QUANTITY_NOT_INTEGER)
    ensures ValidateQuantity("1.5").errorMessage == Some(QUANTITY_NOT_INTEGER)
    ensures ValidateQuantity("-3").errorMessage == Some(QUANTITY_NEGATIVE)
    ensures ValidateQuantity("1500").errorMessage == Some(QUANTITY_TOO_HIGH)
    ensures ValidateQuantity("+12").isValid
    ensures ValidateQuantity("500").isValid
  {
    assert !IsDigit("abc"[0]);
    assert !IsDigit("1.5"[1]);
    assert SignedValue("3", true) == Some(-3);
    assert "1500"[..3] == "150" && "150"[..2] == "15" && "15"[..1] == "1";
    assert SignedValue("1500", false) == Some(1500);
    assert "12"[..1] == "1";
    assert SignedValue("12", false) == Some(12);
    assert "500"[..2] == "50" && "50"[..1] == "5";
    assert DigitsValue("500") == 500;
  }
}
