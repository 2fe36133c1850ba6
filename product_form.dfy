/**
 * The product create/edit form: the draft, the filtering of the price and
 * image inputs, the validator, and the multipart payload handed to
 * `onSubmit`.
 */
module ProductForm {
  import opened Wrappers
  import opened JsText
  import opened Ui
  import opened FormInput

  /**
   * The draft. `unitPrice` is the text `toString()` prints for the stored
   * number. `image` is a chosen file, or whatever the API returned for the
   * product's image; `None` is null.
   */
  datatype Product = Product(
    sku: string,
    name: string,
    category: string,
    unitPrice: string,
    description: string,
    image: Option<FormValue>)

  /** A product as the API returns it for the edit form. */
  datatype ProductRecord = ProductRecord(
    sku: string,
    name: string,
    category: Option<string>,
    unitPrice: string,
    description: string,
    image: Option<FormValue>)

  /** Create mode (no id), or edit mode with the outcome of fetching the product. */
  datatype Mode = Create | Edit(fetched: Option<ProductRecord>)

  /** The form's inputs, named as in the error map and the payload. */
  datatype Field = Sku | Name | Category | UnitPrice | Description | Image

  function FieldName(field: Field): string
  {
    match field
    case Sku => "sku"
    case Name => "name"
    case Category => "category"
    case UnitPrice => "unit_price"
    case Description => "description"
    case Image => "image"
  }

  /** The draft the form starts with, and keeps when the edit fetch fails. */
  const Blank := Product("", "", "", "0", "", None)

  /** The messages `validate()` can set. */
  datatype Message =
    | SkuLength | SkuRequired | NameLength | NameRequired | CategoryLength | CategoryRequired
    | UnitPriceFormat | DescriptionLength | DescriptionRequired

  /** The text shown under the input. */
  function Wording(m: Message): string
  {
    match m
    case SkuLength => "Mã sản phẩm chỉ cho phép đến 10 ký tự."
    case SkuRequired => "Mã sản phẩm không được để trống"
    case NameLength => "Tên sản phẩm bắt buộc từ 4 đến 100 ký tự."
    case NameRequired => "Tên sản phẩm không được để trống"
    case CategoryLength => "Phân loại sản phẩm chỉ được phép nhập nhỏ hơn 20 ký tự."
    case CategoryRequired => "Phân loại sản phẩm không được để trống"
    case UnitPriceFormat => "Giá tiền phải là một số hợp lệ, có tối đa 2 chữ số sau dấu thập phân."
    case DescriptionLength => "Mô tả sản phẩm bắt buộc nhập hơn 2 ký tự trở lên"
    case DescriptionRequired => "Mô tả sản phẩm không được để trống"
  }

  /** The message `validate()` sets for one field, if any; within a field the first branch that fires wins. */
  function Rule(product: Product, field: Field): Option<Message>
  {
    match field
    case Sku =>
      if Utf16Length(product.sku) > 10 then Some(SkuLength)
      else if Utf16Length(product.sku) == 0 then Some(SkuRequired)
      else None
    case Name =>
      if Utf16Length(product.name) < 4 || Utf16Length(product.name) > 100 then Some(NameLength)
      else if Utf16Length(product.name) == 0 then Some(NameRequired)
      else None
    case Category =>
      if Utf16Length(product.category) > 20 then Some(CategoryLength)
      else if Utf16Length(product.category) == 0 then Some(CategoryRequired)
      else None
    case UnitPrice =>
      if !MatchesDecimal(product.unitPrice, 2) then Some(UnitPriceFormat) else None
    case Description =>
      if Utf16Length(product.description) < 2 then Some(DescriptionLength)
      else if Utf16Length(product.description) == 0 then Some(DescriptionRequired)
      else None
    case Image => None
  }

  const Fields: set<Field> := {Sku, Name, Category, UnitPrice, Description, Image}

  /** `validate()`: every field whose rule produced a message, mapped to that message. */
  function Validate(product: Product): (errors: map<Field, Message>)
    ensures forall field :: field in errors <==> Rule(product, field).Some?
    ensures forall field :: field in errors ==> errors[field] == Rule(product, field).value
  {
    map field | field in Fields && Rule(product, field).Some? :: Rule(product, field).value
  }

  /** The SKU must be 1 to 10 characters; an over-long SKU is reported before an empty one could be. */
  lemma SkuChecked(product: Product)
    ensures var errors := Validate(product);
      && (Sku in errors <==> Utf16Length(product.sku) == 0 || Utf16Length(product.sku) > 10)
      && (Sku in errors ==> errors[Sku] == (if Utf16Length(product.sku) > 10 then SkuLength else SkuRequired))
  {
    assert Rule(product, Sku).Some? <==> Utf16Length(product.sku) == 0 || Utf16Length(product.sku) > 10;
  }

  /**
   * The name must be 4 to 100 characters. Its "empty" message can never be
   * shown: an empty name already fails the length test.
   */
  lemma NameChecked(product: Product)
    ensures var errors := Validate(product);
      && (Name in errors <==> Utf16Length(product.name) < 4 || Utf16Length(product.name) > 100)
      && (Name in errors ==> errors[Name] == NameLength)
  {
    assert Rule(product, Name).Some? <==> Utf16Length(product.name) < 4 || Utf16Length(product.name) > 100;
  }

  /** The category must be 1 to 20 characters, with distinct messages for too long and empty. */
  lemma CategoryChecked(product: Product)
    ensures var errors := Validate(product);
      && (Category in errors <==> Utf16Length(product.category) == 0 || Utf16Length(product.category) > 20)
      && (Category in errors ==>
           errors[Category] == (if Utf16Length(product.category) > 20 then CategoryLength else CategoryRequired))
  {
    assert Rule(product, Category).Some? <==> Utf16Length(product.category) == 0 || Utf16Length(product.category) > 20;
  }

  /**
   * The printed price must be digits with at most two digits after a point;
   * for a stored number that means non-negative with at most two
   * significant decimals.
   */
  lemma UnitPriceChecked(product: Product, negative: bool, intDigits: string, fracDigits: string)
    requires AllDigits(intDigits) && AllDigits(fracDigits)
    requires product.unitPrice == NumberText(negative, intDigits, fracDigits)
    ensures var errors := Validate(product);
      && (UnitPrice !in errors <==>
           (product.unitPrice == "0" || !negative) && |StripTrailingZeros(fracDigits)| <= 2)
      && (UnitPrice in errors ==> errors[UnitPrice] == UnitPriceFormat)
  {
    assert Rule(product, UnitPrice).None? <==> MatchesDecimal(product.unitPrice, 2);
    NumberTextMatches(negative, intDigits, fracDigits, 2);
  }

  /**
   * The description needs at least 2 characters; its "empty" message can
   * never be shown.
   */
  lemma DescriptionChecked(product: Product)
    ensures var errors := Validate(product);
      && (Description in errors <==> Utf16Length(product.description) < 2)
      && (Description in errors ==> errors[Description] == DescriptionLength)
      && Image !in errors
  {
    assert Rule(product, Description).Some? <==> Utf16Length(product.description) < 2;
    assert Rule(product, Image).None?;
  }

  /**
   * Lengths are UTF-16 code units: a single character outside the Basic
   * Multilingual Plane already meets the two-unit minimum of the
   * description.
   */
  lemma AstralDescriptionAccepted(product: Product)
    requires product.description == "\U{1F600}"
    ensures Description !in Validate(product)
  {
    assert Utf16Length(product.description) == 2;
  }

  /** Submitting the untouched create form reports every text field, but not the price of 0. */
  lemma BlankProductRejected()
    ensures Validate(Blank).Keys == {Sku, Name, Category, Description}
  {
    DigitRunOfDigits("0");
    assert Rule(Blank, UnitPrice).None?;
  }

  /** Whether `if (product.image)` holds: present and not the empty string. */
  predicate HasImage(product: Product)
  {
    product.image.Some? && product.image.value != Text("")
  }

  /** The image entry, present when the draft holds an image. */
  function ImagePart(product: Product): seq<Entry<Field>>
  {
    if HasImage(product) then [Entry(Image, product.image.value)] else []
  }

  /** The five text fields, in the order they are appended. */
  function Fixed(product: Product): (entries: seq<Entry<Field>>)
  {
    [ Entry(Sku, Text(product.sku)),
      Entry(Name, Text(product.name)),
      Entry(Category, Text(product.category)),
      Entry(UnitPrice, Text(product.unitPrice)),
      Entry(Description, Text(product.description)) ]
  }

  /** The `FormData` built on a successful submit. */
  function Payload(product: Product): seq<Entry<Field>>
  {
    Fixed(product) + ImagePart(product)
  }

  /** The value the draft holds for a field of the payload. */
  function Sent(product: Product, field: Field): FormValue
  {
    match field
    case Sku => Text(product.sku)
    case Name => Text(product.name)
    case Category => Text(product.category)
    case UnitPrice => Text(product.unitPrice)
    case Description => Text(product.description)
    case Image => if product.image.Some? then product.image.value else Text("")
  }

  /**
   * The payload holds the five text fields in order, then the image exactly
   * when the draft has one, each entry carrying the draft's value.
   */
  lemma PayloadFields(product: Product)
    ensures Keys(Payload(product))
         == [Sku, Name, Category, UnitPrice, Description] + (if HasImage(product) then [Image] else [])
    ensures var entries := Payload(product);
      forall i :: 0 <= i < |entries| ==> entries[i].value == Sent(product, entries[i].key)
  {
    var tail := ImagePart(product);
    assert Keys(Fixed(product)) == [Sku, Name, Category, UnitPrice, Description];
    assert Keys(tail) == (if HasImage(product) then [Image] else []);
    KeysOfConcat(Fixed(product), tail);
    var entries := Payload(product);
    forall i | 0 <= i < |entries|
      ensures entries[i].value == Sent(product, entries[i].key)
    {
      if i < 5 {
        assert entries[i] == Fixed(product)[i];
      } else {
        assert entries[i] == tail[0];
      }
    }
  }

  /** The stored price after the price input shows `value`: "" stores 0. */
  function PriceAfterInput(current: string, value: string): string
  {
    NumberInput(current, value, "0")
  }

  /** The stored price is always the printed form of a number. */
  lemma PriceStaysPrinted(current: string, value: string)
    requires IsPrinted(current)
    ensures IsPrinted(PriceAfterInput(current, value))
  {
    ZeroParses();
    NumberInputKeepsPrinted(current, value, "0");
  }

  /** A price typed in the accepted format is stored in the accepted format. */
  lemma AcceptedPriceStaysAccepted(current: string, value: string)
    requires MatchesDecimal(value, 2)
    ensures MatchesDecimal(PriceAfterInput(current, value), 2)
  {
    AcceptedInputStaysAccepted(current, value, "0", 2);
  }

  /** The state of one mounted `ProductForm`. */
  class ProductFormState {
    var isEdit: bool
    var product: Product
    var errors: map<Field, Message>

    /** Mounting: the blank draft, or the fetched product with a null category made "". */
    constructor (mode: Mode)
      ensures isEdit == mode.Edit?
      ensures mode.Create? || mode.fetched.None? ==> product == Blank
      ensures mode.Edit? && mode.fetched.Some? ==>
        var r := mode.fetched.value;
        product == Product(r.sku, r.name, OrEmpty(r.category), r.unitPrice, r.description, r.image)
      ensures errors == map[]
    {
      isEdit := mode.Edit?;
      errors := map[];
      if mode.Edit? && mode.fetched.Some? {
        var r := mode.fetched.value;
        product := Product(r.sku, r.name, OrEmpty(r.category), r.unitPrice, r.description, r.image);
      } else {
        product := Blank;
      }
    }

    /**
     * `handleChange`: the price is filtered through `parseFloat`, the image
     * takes the selected file or becomes null, and every other field is
     * copied by name.
     */
    method HandleChange(field: Field, value: string, file: Option<FileRef>)
      modifies this
      ensures isEdit == old(isEdit) && errors == old(errors)
      ensures product == match field
        case UnitPrice => old(product).(unitPrice := PriceAfterInput(old(product).unitPrice, value))
        case Image => old(product).(image := if file.Some? then Some(Blob(file.value)) else None)
        case Sku => old(product).(sku := value)
        case Name => old(product).(name := value)
        case Category => old(product).(category := value)
        case Description => old(product).(description := value)
    {
      match field {
        case UnitPrice =>
          product := product.(unitPrice := PriceAfterInput(product.unitPrice, value));
        case Image =>
          if file.Some? {
            product := product.(image := Some(Blob(file.value)));
          } else {
            product := product.(image := None);
          }
        case Sku =>
          product := product.(sku := value);
        case Name =>
          product := product.(name := value);
        case Category =>
          product := product.(category := value);
        case Description =>
          product := product.(description := value);
      }
    }

    /**
     * `handleSubmit`: with no validation error the payload is built and
     * returned as the argument of `onSubmit`; otherwise the errors are
     * stored and nothing is submitted.
     */
    method HandleSubmit() returns (submitted: Option<seq<Entry<Field>>>)
      modifies this
      ensures isEdit == old(isEdit) && product == old(product)
      ensures Validate(product) == map[] ==> submitted == Some(Payload(product)) && errors == old(errors)
      ensures Validate(product) != map[] ==> submitted == None && errors == Validate(product)
    {
      var validationErrors := Validate(product);
      if validationErrors == map[] {
        var formData := BuildFormData(product);
        submitted := Some(formData);
      } else {
        errors := validationErrors;
        submitted := None;
      }
    }
  }

  /** The `formData.append` calls of `handleSubmit`, in order. */
  method BuildFormData(product: Product) returns (formData: seq<Entry<Field>>)
    ensures formData == Payload(product)
  {
    formData := [];
    formData := formData + [Entry(Sku, Text(product.sku))];
    formData := formData + [Entry(Name, Text(product.name))];
    formData := formData + [Entry(Category, Text(product.category))];
    formData := formData + [Entry(UnitPrice, Text(product.unitPrice))];
    formData := formData + [Entry(Description, Text(product.description))];
    assert formData == Fixed(product);
    if product.image.Some? && product.image.value != Text("") {
      formData := formData + [Entry(Image, product.image.value)];
    }
  }
}
