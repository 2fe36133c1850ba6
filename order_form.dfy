/**
 * The order create/edit form: the nullable draft, the filter on its two
 * numeric fields, the validator and the submit gate. The submitted value is
 * the draft itself.
 */
module OrderForm {
  import opened Wrappers
  import opened JsText
  import opened FormInput

  /**
   * The draft. `totalPrice` and `status` hold the text `toString()` prints
   * for the stored value, which is either a number or the empty string.
   */
  datatype Order = Order(
    serialNumber: string,
    userId: string,
    totalPrice: string,
    status: string,
    note: string,
    username: string)

  /** Create mode (no id), or edit mode with the outcome of fetching the order. */
  datatype Mode = Create | Edit(fetched: Option<Order>)

  datatype Field = SerialNumber | UserId | TotalPrice | Status | Note | Username

  function FieldName(field: Field): string
  {
    match field
    case SerialNumber => "serial_number"
    case UserId => "user_id"
    case TotalPrice => "total_price"
    case Status => "status"
    case Note => "note"
    case Username => "username"
  }

  const Blank := Order("", "", "", "0", "", "")

  datatype Message = SerialNumberRequired | TotalPriceFormat | StatusFormat | NoteLength

  function Wording(m: Message): string
  {
    match m
    case SerialNumberRequired => "Mã đơn hàng không được để trống"
    case TotalPriceFormat => "Giá tiền phải là một số hợp lệ, có tối đa 2 chữ số sau dấu thập phân."
    case StatusFormat => "Trạng thái đơn hàng là một số hợp lệ của admin đưa ra  "
    case NoteLength => "Bạn đã ghi chú quá giới hạn cho phép "
  }

  /** The message `validate()` sets for one field; every rule is skipped without a draft. */
  function Rule(order: Option<Order>, field: Field): Option<Message>
  {
    if order.None? then None
    else
      var o := order.value;
      match field
      case SerialNumber => if Utf16Length(o.serialNumber) == 0 then Some(SerialNumberRequired) else None
      case TotalPrice => if !MatchesDecimal(o.totalPrice, 2) then Some(TotalPriceFormat) else None
      case Status => if !MatchesDecimal(o.status, 2) then Some(StatusFormat) else None
      case Note => if Utf16Length(o.note) > 100 then Some(NoteLength) else None
      case UserId => None
      case Username => None
  }

  const Fields: set<Field> := {SerialNumber, UserId, TotalPrice, Status, Note, Username}

  /** `validate()`: every field whose rule produced a message, mapped to that message. */
  function Validate(order: Option<Order>): (errors: map<Field, Message>)
    ensures forall field :: field in errors <==> Rule(order, field).Some?
    ensures forall field :: field in errors ==> errors[field] == Rule(order, field).value
  {
    map field | field in Fields && Rule(order, field).Some? :: Rule(order, field).value
  }

  /** Without a draft nothing is reported. */
  lemma NoDraftNoErrors()
    ensures Validate(None) == map[]
  {
    assert forall field :: Rule(None, field).None?;
  }

  /**
   * The serial number must be non-empty and the note at most 100
   * characters; the user id and username are never checked.
   */
  lemma TextFieldsChecked(order: Order)
    ensures var errors := Validate(Some(order));
      && (SerialNumber in errors <==> order.serialNumber == "")
      && (Note in errors <==> Utf16Length(order.note) > 100)
      && UserId !in errors && Username !in errors
      && (SerialNumber in errors ==> errors[SerialNumber] == SerialNumberRequired)
      && (Note in errors ==> errors[Note] == NoteLength)
  {
    assert Rule(Some(order), SerialNumber).Some? <==> order.serialNumber == "";
    assert Rule(Some(order), Note).Some? <==> Utf16Length(order.note) > 100;
    assert Rule(Some(order), UserId).None? && Rule(Some(order), Username).None?;
  }

  /**
   * A stored total price is accepted iff it is non-negative with at most two
   * significant decimals; the empty text is never accepted.
   */
  lemma TotalPriceChecked(order: Order, negative: bool, intDigits: string, fracDigits: string)
    requires AllDigits(intDigits) && AllDigits(fracDigits)
    requires order.totalPrice == NumberText(negative, intDigits, fracDigits) || order.totalPrice == ""
    ensures var errors := Validate(Some(order));
      && (TotalPrice !in errors <==>
           order.totalPrice != "" && (order.totalPrice == "0" || !negative) && |StripTrailingZeros(fracDigits)| <= 2)
      && (TotalPrice in errors ==> errors[TotalPrice] == TotalPriceFormat)
  {
    assert Rule(Some(order), TotalPrice).None? <==> MatchesDecimal(order.totalPrice, 2);
    if order.totalPrice != "" {
      NumberTextMatches(negative, intDigits, fracDigits, 2);
    }
  }

  /** The status follows the same pattern as the total price, with its own message. */
  lemma StatusChecked(order: Order, negative: bool, intDigits: string, fracDigits: string)
    requires AllDigits(intDigits) && AllDigits(fracDigits)
    requires order.status == NumberText(negative, intDigits, fracDigits) || order.status == ""
    ensures var errors := Validate(Some(order));
      && (Status !in errors <==>
           order.status != "" && (order.status == "0" || !negative) && |StripTrailingZeros(fracDigits)| <= 2)
      && (Status in errors ==> errors[Status] == StatusFormat)
  {
    assert Rule(Some(order), Status).None? <==> MatchesDecimal(order.status, 2);
    if order.status != "" {
      NumberTextMatches(negative, intDigits, fracDigits, 2);
    }
  }

  /**
   * Submitting the untouched create form reports the serial number and the
   * total price: an empty total price never matches.
   */
  lemma BlankOrderRejected()
    ensures Validate(Some(Blank)).Keys == {SerialNumber, TotalPrice}
  {
    DigitRunOfDigits("0");
    assert Rule(Some(Blank), Status).None?;
    assert Rule(Some(Blank), TotalPrice).Some?;
  }

  /** The stored value of a numeric field after the input shows `value`: "" stores "". */
  function NumberAfterInput(current: string, value: string): string
  {
    NumberInput(current, value, "")
  }

  /** Clearing a numeric input stores "", which its rule then reports. */
  lemma ClearedNumberRejected(order: Order, field: Field)
    requires field == TotalPrice || field == Status
    ensures var cleared := if field == TotalPrice
        then order.(totalPrice := NumberAfterInput(order.totalPrice, ""))
        else order.(status := NumberAfterInput(order.status, ""));
      field in Validate(Some(cleared))
  {
    var cleared := if field == TotalPrice
      then order.(totalPrice := NumberAfterInput(order.totalPrice, ""))
      else order.(status := NumberAfterInput(order.status, ""));
    assert !MatchesDecimal("", 2);
    assert Rule(Some(cleared), field).Some?;
  }

  /** A numeric field holds a printed number or "", whatever is typed. */
  lemma NumberStaysPrintedOrEmpty(current: string, value: string)
    requires IsPrinted(current) || current == ""
    ensures var stored := NumberAfterInput(current, value);
      IsPrinted(stored) || stored == ""
  {
    NumberInputKeepsPrinted(current, value, "");
  }

  /** The state of one mounted `OrderForm`. */
  class OrderFormState {
    var isEdit: bool
    var order: Option<Order>
    var errors: map<Field, Message>

    /** Mounting: the blank draft, the fetched order, or no draft when the fetch fails. */
    constructor (mode: Mode)
      ensures isEdit == mode.Edit?
      ensures order == if mode.Create? then Some(Blank) else mode.fetched
      ensures errors == map[]
    {
      isEdit := mode.Edit?;
      errors := map[];
      order := if mode.Create? then Some(Blank) else mode.fetched;
    }

    /**
     * `handleChange`: the total price and status are filtered through
     * `parseFloat`; every other field is copied by name. Without a draft
     * nothing changes.
     */
    method HandleChange(field: Field, value: string)
      modifies this
      ensures isEdit == old(isEdit) && errors == old(errors)
      ensures old(order).None? ==> order == old(order)
      ensures old(order).Some? ==>
        var o := old(order).value;
        order == Some(match field
          case TotalPrice => o.(totalPrice := NumberAfterInput(o.totalPrice, value))
          case Status => o.(status := NumberAfterInput(o.status, value))
          case SerialNumber => o.(serialNumber := value)
          case UserId => o.(userId := value)
          case Note => o.(note := value)
          case Username => o.(username := value))
    {
      if order.Some? {
        var o := order.value;
        match field {
          case TotalPrice =>
            order := Some(o.(totalPrice := NumberAfterInput(o.totalPrice, value)));
          case Status =>
            order := Some(o.(status := NumberAfterInput(o.status, value)));
          case SerialNumber =>
            order := Some(o.(serialNumber := value));
          case UserId =>
            order := Some(o.(userId := value));
          case Note =>
            order := Some(o.(note := value));
          case Username =>
            order := Some(o.(username := value));
        }
      }
    }

    /**
     * `handleSubmit`: `onSubmit(order)` runs iff there is no error and a
     * draft exists; otherwise the (possibly empty) error map is stored.
     */
    method HandleSubmit() returns (submitted: Option<Order>)
      modifies this
      ensures isEdit == old(isEdit) && order == old(order)
      ensures submitted.Some? <==> Validate(order) == map[] && order.Some?
      ensures submitted.Some? ==> submitted == order && errors == old(errors)
      ensures submitted.None? ==> errors == Validate(order)
    {
      var validationErrors := Validate(order);
      if validationErrors == map[] && order.Some? {
        submitted := order;
      } else {
        errors := validationErrors;
        submitted := None;
      }
    }
  }
}
