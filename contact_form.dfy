/**
 * The contact create/edit form: the nullable draft, the status filter, the
 * validator and the submit gate. The submitted value is the draft itself.
 */
module ContactForm {
  import opened Wrappers
  import opened JsText
  import opened FormInput

  /** The draft; `status` is the text `toString()` prints for the stored number. */
  datatype Contact = Contact(fullName: string, email: string, content: string, status: string)

  /** Create mode (no id), or edit mode with the outcome of fetching the contact. */
  datatype Mode = Create | Edit(fetched: Option<Contact>)

  datatype Field = FullName | Email | Content | Status

  function FieldName(field: Field): string
  {
    match field
    case FullName => "full_name"
    case Email => "email"
    case Content => "content"
    case Status => "status"
  }

  const Blank := Contact("", "", "", "0")

  datatype Message = FullNameRequired | EmailLength | StatusFormat

  function Wording(m: Message): string
  {
    match m
    case FullNameRequired => "Tên người liên hệ không được để trống"
    case EmailLength => "Email chỉ cho phép từ 4 đến 50 ký"
    case StatusFormat => "Trạng thái là một số hợp lệ"
  }

  /** The message `validate()` sets for one field; every rule is skipped without a draft. */
  function Rule(contact: Option<Contact>, field: Field): Option<Message>
  {
    if contact.None? then None
    else
      var c := contact.value;
      match field
      case FullName => if Utf16Length(c.fullName) == 0 then Some(FullNameRequired) else None
      case Email => if Utf16Length(c.email) < 4 || Utf16Length(c.email) > 50 then Some(EmailLength) else None
      case Status => if !MatchesDecimal(c.status, 9) then Some(StatusFormat) else None
      case Content => None
  }

  const Fields: set<Field> := {FullName, Email, Content, Status}

  /** `validate()`: every field whose rule produced a message, mapped to that message. */
  function Validate(contact: Option<Contact>): (errors: map<Field, Message>)
    ensures forall field :: field in errors <==> Rule(contact, field).Some?
    ensures forall field :: field in errors ==> errors[field] == Rule(contact, field).value
  {
    map field | field in Fields && Rule(contact, field).Some? :: Rule(contact, field).value
  }

  /** Without a draft nothing is reported. */
  lemma NoDraftNoErrors()
    ensures Validate(None) == map[]
  {
    assert forall field :: Rule(None, field).None?;
  }

  /**
   * The full name must be non-empty and the e-mail 4 to 50 characters long,
   * with no format check; the content is never checked.
   */
  lemma TextFieldsChecked(contact: Contact)
    ensures var errors := Validate(Some(contact));
      && (FullName in errors <==> contact.fullName == "")
      && (Email in errors <==> Utf16Length(contact.email) < 4 || Utf16Length(contact.email) > 50)
      && Content !in errors
      && (FullName in errors ==> errors[FullName] == FullNameRequired)
      && (Email in errors ==> errors[Email] == EmailLength)
  {
    assert Rule(Some(contact), FullName).Some? <==> contact.fullName == "";
    assert Rule(Some(contact), Email).Some? <==> Utf16Length(contact.email) < 4 || Utf16Length(contact.email) > 50;
    assert Rule(Some(contact), Content).None?;
  }

  /**
   * For a stored number the status is accepted iff it is non-negative with
   * at most nine significant decimals.
   */
  lemma StatusChecked(contact: Contact, negative: bool, intDigits: string, fracDigits: string)
    requires AllDigits(intDigits) && AllDigits(fracDigits)
    requires contact.status == NumberText(negative, intDigits, fracDigits)
    ensures var errors := Validate(Some(contact));
      && (Status !in errors <==>
           (contact.status == "0" || !negative) && |StripTrailingZeros(fracDigits)| <= 9)
      && (Status in errors ==> errors[Status] == StatusFormat)
  {
    assert Rule(Some(contact), Status).None? <==> MatchesDecimal(contact.status, 9);
    NumberTextMatches(negative, intDigits, fracDigits, 9);
  }

  /** Submitting the untouched create form reports the name and the e-mail. */
  lemma BlankContactRejected()
    ensures Validate(Some(Blank)).Keys == {FullName, Email}
  {
    DigitRunOfDigits("0");
    assert Rule(Some(Blank), Status).None?;
  }

  /** The stored status after the input shows `value`: "" stores 0. */
  function StatusAfterInput(current: string, value: string): string
  {
    NumberInput(current, value, "0")
  }

  /**
   * Each radio button ("1", "2" or "3") stores its own value, which the
   * status rule accepts.
   */
  lemma StatusChoiceStored(current: string, choice: char)
    requires '1' <= choice <= '3'
    ensures StatusAfterInput(current, [choice]) == [choice]
    ensures MatchesDecimal([choice], 9)
  {
    var d := [choice];
    assert StripLeadingZeros(d) == d;
    assert StripTrailingZeros([]) == [];
    assert NumberText(false, d, []) == SignPart(false) + (WholePart(d) + FractionPart([]));
    assert NumberText(false, d, []) == d;
    ParseFloatOfNumberText(false, d, []);
    NumberTextMatches(false, d, [], 9);
  }

  /** The stored status is always the printed form of a number. */
  lemma StatusStaysPrinted(current: string, value: string)
    requires IsPrinted(current)
    ensures IsPrinted(StatusAfterInput(current, value))
  {
    ZeroParses();
    NumberInputKeepsPrinted(current, value, "0");
  }

  /** The state of one mounted `ContactForm`. */
  class ContactFormState {
    var isEdit: bool
    var contact: Option<Contact>
    var errors: map<Field, Message>

    /** Mounting: the blank draft, the fetched contact, or no draft when the fetch fails. */
    constructor (mode: Mode)
      ensures isEdit == mode.Edit?
      ensures contact == if mode.Create? then Some(Blank) else mode.fetched
      ensures errors == map[]
    {
      isEdit := mode.Edit?;
      errors := map[];
      contact := if mode.Create? then Some(Blank) else mode.fetched;
    }

    /**
     * `handleChange`: the status is filtered through `parseFloat`; every
     * other field is copied by name. Without a draft nothing changes.
     */
    method HandleChange(field: Field, value: string)
      modifies this
      ensures isEdit == old(isEdit) && errors == old(errors)
      ensures old(contact).None? ==> contact == old(contact)
      ensures old(contact).Some? ==>
        var c := old(contact).value;
        contact == Some(match field
          case Status => c.(status := StatusAfterInput(c.status, value))
          case FullName => c.(fullName := value)
          case Email => c.(email := value)
          case Content => c.(content := value))
    {
      if contact.Some? {
        var c := contact.value;
        match field {
          case Status =>
            contact := Some(c.(status := StatusAfterInput(c.status, value)));
          case FullName =>
            contact := Some(c.(fullName := value));
          case Email =>
            contact := Some(c.(email := value));
          case Content =>
            contact := Some(c.(content := value));
        }
      }
    }

    /**
     * `handleSubmit`: `onSubmit(contact)` runs iff there is no error and a
     * draft exists; otherwise the (possibly empty) error map is stored.
     */
    method HandleSubmit() returns (submitted: Option<Contact>)
      modifies this
      ensures isEdit == old(isEdit) && contact == old(contact)
      ensures submitted.Some? <==> Validate(contact) == map[] && contact.Some?
      ensures submitted.Some? ==> submitted == contact && errors == old(errors)
      ensures submitted.None? ==> errors == Validate(contact)
    {
      var validationErrors := Validate(contact);
      if validationErrors == map[] && contact.Some? {
        submitted := contact;
      } else {
        errors := validationErrors;
        submitted := None;
      }
    }
  }
}
