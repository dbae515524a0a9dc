/** The product form shared by src/commponents/ProductManager.tsx and
    src/pages/ProductForm.tsx: its fields, its validation and its payload. */
module ProductValidation {
  import opened Wrappers
  import opened Types
  import opened Text

  /** The form's text fields; `price` is the text typed in. */
  datatype ProductFormState = ProductFormState(
    title: string,
    price: string,
    description: string,
    category: string,
    image: string)

  const EmptyForm := ProductFormState("", "", "", "", "")

  datatype FormError = FieldsRequired | ImageRequired | PriceNotPositive

  function Message(e: FormError): string {
    match e
    case FieldsRequired => "Title, category, and description are required."
    case ImageRequired => "Image URL is required."
    case PriceNotPositive => "Price must be a positive number."
  }

  /** `!s.trim()` */
  predicate Blank(s: string) {
    Trim(s) == ""
  }

  /** The checks of `handleSubmit`, first failure wins, and the trimmed payload.
      `priceValue` is `Number(form.price)` in cents, `None` for NaN. */
  function Validate(form: ProductFormState, priceValue: Option<int>): (r: Result<ProductInput, FormError>)
    ensures r.Success? ==> priceValue.Some? && r.value.price == priceValue.value > 0
  {
    if Blank(form.title) || Blank(form.category) || Blank(form.description) then
      Failure(FieldsRequired)
    else if Blank(form.image) then
      Failure(ImageRequired)
    else if priceValue.None? || priceValue.value <= 0 then
      Failure(PriceNotPositive)
    else
      Success(ProductInput(Trim(form.title), priceValue.value, Trim(form.description),
                           Trim(form.category), Trim(form.image), None))
  }

  /** Which error a form gets: the three text fields first, then the image, then the price;
      a form passing all three checks is accepted with its fields trimmed. */
  lemma ValidationOrder(form: ProductFormState, priceValue: Option<int>)
    ensures var r := Validate(form, priceValue);
      && (r == Failure(FieldsRequired) <==>
            Blank(form.title) || Blank(form.category) || Blank(form.description))
      && (r == Failure(ImageRequired) <==>
            !Blank(form.title) && !Blank(form.category) && !Blank(form.description) && Blank(form.image))
      && (r == Failure(PriceNotPositive) <==>
            !Blank(form.title) && !Blank(form.category) && !Blank(form.description) && !Blank(form.image)
            && (priceValue.None? || priceValue.value <= 0))
      && (r.Success? ==>
            r.value == ProductInput(Trim(form.title), priceValue.value, Trim(form.description),
                                    Trim(form.category), Trim(form.image), None))
  {
  }

  predicate TrimmedNonEmpty(s: string) {
    s != "" && !IsWhitespace(s[0]) && !IsWhitespace(s[|s| - 1])
  }

  /** An accepted payload has a positive price and four non-empty fields that are already
      trimmed; a field of only whitespace is rejected like an empty one. */
  lemma AcceptedPayload(form: ProductFormState, priceValue: Option<int>)
    requires Validate(form, priceValue).Success?
    ensures var p := Validate(form, priceValue).value;
      && p.price > 0
      && TrimmedNonEmpty(p.title) && TrimmedNonEmpty(p.description)
      && TrimmedNonEmpty(p.category) && TrimmedNonEmpty(p.image)
      && Trim(p.title) == p.title && Trim(p.description) == p.description
      && Trim(p.category) == p.category && Trim(p.image) == p.image
  {
    ValidationOrder(form, priceValue);
    TrimmedField(form.title);
    TrimmedField(form.description);
    TrimmedField(form.category);
    TrimmedField(form.image);
  }

  lemma TrimmedField(s: string)
    requires !Blank(s)
    ensures TrimmedNonEmpty(Trim(s)) && Trim(Trim(s)) == Trim(s)
  {
    TrimIdempotent(s);
  }

  /** A required field holding only whitespace fails the first check. */
  lemma WhitespaceIsBlank(form: ProductFormState, priceValue: Option<int>)
    requires AllWhitespace(form.title) || AllWhitespace(form.category) || AllWhitespace(form.description)
    ensures Validate(form, priceValue) == Failure(FieldsRequired)
  {
    TrimEmptyIff(form.title);
    TrimEmptyIff(form.category);
    TrimEmptyIff(form.description);
  }

  /** The form filled from a stored product; the price as `product.price.toString()`. */
  function FormFromProduct(p: Product): ProductFormState {
    ProductFormState(p.title, CentsToText(p.price), p.description, p.category, p.image)
  }

  /** A trimmed non-empty field is not blank and trims to itself. */
  lemma TrimmedKept(s: string)
    requires TrimmedNonEmpty(s)
    ensures !Blank(s) && Trim(s) == s
  {
    TrimOfTrimmed(s);
  }

  /** A form whose four text fields are trimmed and non-empty, with a positive parsed price,
      is accepted with exactly those fields. */
  lemma AcceptsTrimmed(form: ProductFormState, price: int)
    requires TrimmedNonEmpty(form.title) && TrimmedNonEmpty(form.description)
    requires TrimmedNonEmpty(form.category) && TrimmedNonEmpty(form.image)
    requires price > 0
    ensures Validate(form, Some(price))
         == Success(ProductInput(form.title, price, form.description, form.category, form.image, None))
  {
    TrimmedKept(form.title);
    TrimmedKept(form.description);
    TrimmedKept(form.category);
    TrimmedKept(form.image);
  }

  /** Editing a stored product and submitting the form unchanged hands on that product's
      fields, when they are trimmed and non-empty and its price is positive. The price input
      is modelled by its parsed value, here the stored price itself. */
  lemma EditThenSubmit(p: Product)
    requires TrimmedNonEmpty(p.title) && TrimmedNonEmpty(p.description)
    requires TrimmedNonEmpty(p.category) && TrimmedNonEmpty(p.image)
    requires p.price > 0
    ensures Validate(FormFromProduct(p), Some(p.price))
         == Success(ProductInput(p.title, p.price, p.description, p.category, p.image, None))
  {
    AcceptsTrimmed(FormFromProduct(p), p.price);
  }

  /** The request a successful validation hands on. */
  datatype SaveRequest = CreateRequest(input: ProductInput) | UpdateRequest(id: string, input: ProductInput)
}
