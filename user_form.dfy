/**
 * The user create/edit form: the draft it opens with, how each keystroke
 * changes it, the validator, and the multipart payload handed to `onSubmit`.
 */
module UserForm {
  import opened Wrappers
  import opened JsText
  import opened Ui

  /**
   * The draft held while the form is open. `role` is whatever `parseInt`
   * made of the radio value. First and last names are nullable in the
   * record type, but every way into the draft stores "" instead of null, so
   * the draft keeps them as plain strings.
   */
  datatype User = User(
    username: string,
    email: string,
    firstName: string,
    lastName: string,
    password: string,
    role: IntValue,
    avatar: Option<FileRef>)

  /** A user as the API returns it for the edit form. */
  datatype UserRecord = UserRecord(
    username: string,
    email: string,
    firstName: Option<string>,
    lastName: Option<string>,
    password: string,
    role: int)

  /** Create mode (no id), or edit mode with the outcome of fetching the user. */
  datatype Mode = Create | Edit(fetched: Option<UserRecord>)

  /** The form's inputs; their `name` attributes are the keys of the error map and the payload. */
  datatype Field = Username | Email | FirstName | LastName | Password | ConfirmationPassword | Role | Avatar

  function FieldName(field: Field): string
  {
    match field
    case Username => "username"
    case Email => "email"
    case FirstName => "first_name"
    case LastName => "last_name"
    case Password => "password"
    case ConfirmationPassword => "confirmation_password"
    case Role => "role"
    case Avatar => "avatar"
  }

  const CustomerRole := 2

  /** The messages `validate()` can set. */
  datatype Message =
    | UsernameLength | EmailLength | EmailFormat | FirstNameLength | LastNameLength
    | PasswordRequired | PasswordLength | ConfirmationMismatch

  /** The text shown under the input. */
  function Wording(m: Message): string
  {
    match m
    case UsernameLength => "Tên đăng nhập bắt buộc nhập từ 4 đến 10 ký tự."
    case EmailLength => "Địa chỉ E-mail bắt buộc nhập từ 4 đến 100 ký tự."
    case EmailFormat => "Địa chỉ E-mail không đúng định dạng."
    case FirstNameLength => "Họ chỉ được phép nhập nhỏ hơn 100 ký tự."
    case LastNameLength => "Tên chỉ được phép nhập nhỏ hơn 100 ký tự."
    case PasswordRequired => "Mật khẩu bắt buộc nhập từ 8 đến 20 ký tự."
    case PasswordLength => "Mật khẩu bắt buộc nhập từ 8 đến 20 ký"
    case ConfirmationMismatch => "Xác nhận mật khẩu không trùng khớp."
  }

  function UsernameRule(username: string): Option<Message>
  {
    if Utf16Length(username) < 4 || Utf16Length(username) > 10 || !IsAlphanumeric(username) then Some(UsernameLength) else None
  }

  function EmailRule(email: string): Option<Message>
  {
    if Utf16Length(email) < 4 || Utf16Length(email) > 100 then Some(EmailLength)
    else if !IsEmail(email) then Some(EmailFormat)
    else None
  }

  function MaxLengthRule(text: string, message: Message): Option<Message>
  {
    if Utf16Length(text) > 100 then Some(message) else None
  }

  function PasswordRule(isEdit: bool, password: string): Option<Message>
  {
    if !isEdit && password == "" then Some(PasswordRequired)
    else if password != "" && (Utf16Length(password) < 8 || Utf16Length(password) > 20) then Some(PasswordLength)
    else None
  }

  const Fields: set<Field> := {Username, Email, FirstName, LastName, Password, ConfirmationPassword, Role, Avatar}

  /** The message `validate()` sets for one field, if any. */
  function Rule(user: Option<User>, isEdit: bool, password: string, confirmation: string, field: Field): Option<Message>
  {
    if field == ConfirmationPassword then
      if confirmation != password then Some(ConfirmationMismatch) else None
    else if user.None? then None
    else
      match field
      case Username => UsernameRule(user.value.username)
      case Email => EmailRule(user.value.email)
      case FirstName => MaxLengthRule(user.value.firstName, FirstNameLength)
      case LastName => MaxLengthRule(user.value.lastName, LastNameLength)
      case Password => PasswordRule(isEdit, password)
      case _ => None
  }

  /** `validate()`: every field whose rule produced a message, mapped to that message. */
  function Validate(user: Option<User>, isEdit: bool, password: string, confirmation: string): (errors: map<Field, Message>)
    ensures forall field :: field in errors <==> Rule(user, isEdit, password, confirmation, field).Some?
    ensures forall field :: field in errors ==> errors[field] == Rule(user, isEdit, password, confirmation, field).value
  {
    map field | field in Fields && Rule(user, isEdit, password, confirmation, field).Some?
      :: Rule(user, isEdit, password, confirmation, field).value
  }

  /** The confirmation is compared with the password whether or not there is a draft. */
  lemma ConfirmationChecked(user: Option<User>, isEdit: bool, password: string, confirmation: string)
    ensures var errors := Validate(user, isEdit, password, confirmation);
      && (ConfirmationPassword in errors <==> confirmation != password)
      && (ConfirmationPassword in errors ==> errors[ConfirmationPassword] == ConfirmationMismatch)
  {
    assert Rule(user, isEdit, password, confirmation, ConfirmationPassword)
        == if confirmation != password then Some(ConfirmationMismatch) else None;
  }

  /** Without a draft only the confirmation can be reported; the role and the avatar never are. */
  lemma UncheckedFields(user: Option<User>, isEdit: bool, password: string, confirmation: string)
    ensures var errors := Validate(user, isEdit, password, confirmation);
      && Role !in errors && Avatar !in errors
      && (user.None? ==> errors.Keys <= {ConfirmationPassword})
  {
    var errors := Validate(user, isEdit, password, confirmation);
    assert Rule(user, isEdit, password, confirmation, Role).None?;
    assert Rule(user, isEdit, password, confirmation, Avatar).None?;
    if user.None? {
      forall field | field in errors
        ensures field == ConfirmationPassword
      {
        assert Rule(user, isEdit, password, confirmation, field).Some?;
      }
    }
  }

  /** The username must be 4 to 10 ASCII letters or digits. */
  lemma UsernameChecked(user: User, isEdit: bool, password: string, confirmation: string)
    ensures var errors := Validate(Some(user), isEdit, password, confirmation);
      && (Username in errors <==>
           Utf16Length(user.username) < 4 || Utf16Length(user.username) > 10 || !IsAlphanumeric(user.username))
      && (Username in errors ==> errors[Username] == UsernameLength)
  {
    assert Rule(Some(user), isEdit, password, confirmation, Username) == UsernameRule(user.username);
  }

  /** The length of the e-mail is checked first; only a length in range is checked for format. */
  lemma EmailChecked(user: User, isEdit: bool, password: string, confirmation: string)
    ensures var errors := Validate(Some(user), isEdit, password, confirmation);
      && (Email in errors <==> !(4 <= Utf16Length(user.email) <= 100) || !IsEmail(user.email))
      && (Email in errors ==>
           errors[Email] == (if 4 <= Utf16Length(user.email) <= 100 then EmailFormat else EmailLength))
  {
    assert Rule(Some(user), isEdit, password, confirmation, Email) == EmailRule(user.email);
  }

  /** First and last names may be empty but not longer than 100 characters. */
  lemma NamesChecked(user: User, isEdit: bool, password: string, confirmation: string)
    ensures var errors := Validate(Some(user), isEdit, password, confirmation);
      && (FirstName in errors <==> Utf16Length(user.firstName) > 100)
      && (LastName in errors <==> Utf16Length(user.lastName) > 100)
      && (FirstName in errors ==> errors[FirstName] == FirstNameLength)
      && (LastName in errors ==> errors[LastName] == LastNameLength)
  {
    assert Rule(Some(user), isEdit, password, confirmation, FirstName) == MaxLengthRule(user.firstName, FirstNameLength);
    assert Rule(Some(user), isEdit, password, confirmation, LastName) == MaxLengthRule(user.lastName, LastNameLength);
  }

  /**
   * A new user needs a password; an edit may leave it blank; a password
   * that was typed must be 8 to 20 characters long.
   */
  lemma PasswordChecked(user: User, isEdit: bool, password: string, confirmation: string)
    ensures var errors := Validate(Some(user), isEdit, password, confirmation);
      && (Password in errors <==>
           (password == "" && !isEdit) || (password != "" && !(8 <= Utf16Length(password) <= 20)))
      && (Password in errors ==>
           errors[Password] == (if password == "" then PasswordRequired else PasswordLength))
  {
    assert Rule(Some(user), isEdit, password, confirmation, Password) == PasswordRule(isEdit, password);
  }

  /** The value the draft holds for a field that goes into the payload. */
  function Sent(user: User, password: string, field: Field): FormValue
  {
    match field
    case Username => Text(user.username)
    case Email => Text(user.email)
    case FirstName => Text(user.firstName)
    case LastName => Text(user.lastName)
    case Password => Text(password)
    case Role => Text(IntValueText(user.role))
    case Avatar => if user.avatar.Some? then Blob(user.avatar.value) else Text("")
    case ConfirmationPassword => Text("")
  }

  /** The five profile fields, in the order they are appended. */
  function Profile(user: User): (entries: seq<Entry<Field>>)
    ensures Keys(entries) == [Username, Email, FirstName, LastName, Role]
    ensures forall i :: 0 <= i < |entries| ==> entries[i].value == Sent(user, "", entries[i].key)
  {
    [ Entry(Username, Text(user.username)),
      Entry(Email, Text(user.email)),
      Entry(FirstName, Text(user.firstName)),
      Entry(LastName, Text(user.lastName)),
      Entry(Role, Text(IntValueText(user.role))) ]
  }

  /** The password entry, present when one was typed. */
  function PasswordPart(password: string): seq<Entry<Field>>
  {
    if password != "" then [Entry(Password, Text(password))] else []
  }

  /** The avatar entry, present when a file was chosen. */
  function AvatarPart(avatar: Option<FileRef>): seq<Entry<Field>>
  {
    if avatar.Some? then [Entry(Avatar, Blob(avatar.value))] else []
  }

  /** The `FormData` built on a successful submit. */
  function Payload(user: User, password: string): seq<Entry<Field>>
  {
    PasswordPart(password) + Profile(user) + AvatarPart(user.avatar)
  }

  /**
   * The password goes first when one was typed, then the five profile
   * fields, then the avatar when one was chosen.
   */
  lemma PayloadKeys(user: User, password: string)
    ensures Keys(Payload(user, password))
         == (if password != "" then [Password] else [])
          + [Username, Email, FirstName, LastName, Role]
          + (if user.avatar.Some? then [Avatar] else [])
  {
    var head := PasswordPart(password);
    var tail := AvatarPart(user.avatar);
    assert Keys(head) == (if password != "" then [Password] else []);
    assert Keys(tail) == (if user.avatar.Some? then [Avatar] else []);
    KeysOfConcat(head, Profile(user));
    KeysOfConcat(head + Profile(user), tail);
  }

  /** The confirmation is never sent. */
  lemma ConfirmationNeverSent(user: User, password: string)
    ensures ConfirmationPassword !in Keys(Payload(user, password))
  {
    PayloadKeys(user, password);
    var keys := Keys(Payload(user, password));
    forall i | 0 <= i < |keys|
      ensures keys[i] != ConfirmationPassword
    {
    }
  }

  /** Each entry carries the draft's value for its key, the role printed in decimal. */
  lemma PayloadValues(user: User, password: string)
    ensures var entries := Payload(user, password);
      forall i :: 0 <= i < |entries| ==> entries[i].value == Sent(user, password, entries[i].key)
  {
    var head := PasswordPart(password);
    var tail := AvatarPart(user.avatar);
    var entries := Payload(user, password);
    forall i | 0 <= i < |entries|
      ensures entries[i].value == Sent(user, password, entries[i].key)
    {
      if i < |head| {
        assert entries[i] == head[0];
      } else if i < |head| + 5 {
        assert entries[i] == Profile(user)[i - |head|];
      } else {
        assert entries[i] == tail[0];
      }
    }
  }

  /** The state of one mounted `UserForm`. */
  class UserFormState {
    var isEdit: bool
    var user: Option<User>
    var password: string
    var confirmationPassword: string
    var errors: map<Field, Message>

    /** Mounting: the create default, or the fetched user normalised (no avatar, names never null). */
    constructor (mode: Mode)
      ensures isEdit == mode.Edit?
      ensures mode.Create? ==> user == Some(User("", "", "", "", "", Finite(CustomerRole), None))
      ensures mode.Edit? && mode.fetched.None? ==> user == None
      ensures mode.Edit? && mode.fetched.Some? ==>
        var r := mode.fetched.value;
        user == Some(User(r.username, r.email, OrEmpty(r.firstName), OrEmpty(r.lastName), r.password, Finite(r.role), None))
      ensures password == "" && confirmationPassword == "" && errors == map[]
    {
      isEdit := mode.Edit?;
      password := "";
      confirmationPassword := "";
      errors := map[];
      match mode {
        case Create =>
          user := Some(User("", "", "", "", "", Finite(CustomerRole), None));
        case Edit(fetched) =>
          if fetched.Some? {
            var r := fetched.value;
            user := Some(User(r.username, r.email, OrEmpty(r.firstName), OrEmpty(r.lastName), r.password, Finite(r.role), None));
          } else {
            user := None;
          }
      }
    }

    /**
     * `handleChange`: the password and its confirmation go to their own
     * state, never into the draft; `role` is parsed with `parseInt`; the
     * avatar takes the selected file; every other field is copied verbatim.
     * Without a draft only the password state can change.
     */
    method HandleChange(field: Field, value: string, file: Option<FileRef>)
      modifies this
      ensures isEdit == old(isEdit) && errors == old(errors)
      ensures password == if field == Password then value else old(password)
      ensures confirmationPassword == if field == ConfirmationPassword then value else old(confirmationPassword)
      ensures field == Password || field == ConfirmationPassword || old(user).None? ==> user == old(user)
      ensures old(user).Some? ==>
        var u := old(user).value;
        match field
        case Username => user == Some(u.(username := value))
        case Email => user == Some(u.(email := value))
        case FirstName => user == Some(u.(firstName := value))
        case LastName => user == Some(u.(lastName := value))
        case Role => user == Some(u.(role := ParseInt(value)))
        case Avatar => user == Some(u.(avatar := file))
        case Password => user == old(user)
        case ConfirmationPassword => user == old(user)
    {
      match field {
        case Password =>
          password := value;
        case ConfirmationPassword =>
          confirmationPassword := value;
        case Avatar =>
          if user.Some? {
            user := Some(user.value.(avatar := file));
          }
        case Role =>
          if user.Some? {
            user := Some(user.value.(role := ParseInt(value)));
          }
        case Username =>
          if user.Some? {
            user := Some(user.value.(username := value));
          }
        case Email =>
          if user.Some? {
            user := Some(user.value.(email := value));
          }
        case FirstName =>
          if user.Some? {
            user := Some(user.value.(firstName := value));
          }
        case LastName =>
          if user.Some? {
            user := Some(user.value.(lastName := value));
          }
      }
    }

    /**
     * `handleSubmit`: with no validation error and a draft, the payload is
     * assembled one `append` at a time and returned as the argument of
     * `onSubmit`; otherwise nothing is submitted, and the errors are stored
     * when there are any.
     */
    method HandleSubmit() returns (submitted: Option<seq<Entry<Field>>>)
      modifies this
      ensures isEdit == old(isEdit) && password == old(password)
      ensures confirmationPassword == old(confirmationPassword)
      ensures var found := Validate(old(user), old(isEdit), old(password), old(confirmationPassword));
        if found == map[] then
          && errors == old(errors)
          && submitted == (if old(user).Some? then Some(Payload(old(user).value, old(password))) else None)
          && user == (if old(user).Some? && old(password) != "" then Some(old(user).value.(password := old(password))) else old(user))
        else
          errors == found && submitted == None && user == old(user)
    {
      var validationErrors := Validate(user, isEdit, password, confirmationPassword);
      if validationErrors == map[] {
        var draft := user;
        if password != "" && user.Some? {
          user := Some(user.value.(password := password));
        }
        if draft.Some? {
          var formData := BuildFormData(draft.value, password);
          submitted := Some(formData);
        } else {
          submitted := None;
        }
      } else {
        errors := validationErrors;
        submitted := None;
      }
    }
  }

  /** The `formData.append` calls of `handleSubmit`, in order. */
  method BuildFormData(u: User, password: string) returns (formData: seq<Entry<Field>>)
    ensures formData == Payload(u, password)
  {
    formData := [];
    if password != "" {
      formData := formData + [Entry(Password, Text(password))];
    }
    assert formData == PasswordPart(password);
    var head := formData;
    formData := formData + [Entry(Username, Text(u.username))];
    formData := formData + [Entry(Email, Text(u.email))];
    formData := formData + [Entry(FirstName, Text(u.firstName))];
    formData := formData + [Entry(LastName, Text(u.lastName))];
    formData := formData + [Entry(Role, Text(IntValueText(u.role)))];
    assert formData == head + Profile(u);
    if u.avatar.Some? {
      formData := formData + [Entry(Avatar, Blob(u.avatar.value))];
    }
    assert formData == head + Profile(u) + AvatarPart(u.avatar);
  }

  /**
   * A create-mode submit of the untouched form reports the username, the
   * e-mail and the password, and nothing else.
   */
  lemma BlankCreateDraftRejected()
    ensures Validate(Some(User("", "", "", "", "", Finite(CustomerRole), None)), false, "", "").Keys
         == {Username, Email, Password}
  {
  }

  /** An edit that leaves the password blank passes the password rule and sends no password at all. */
  lemma BlankPasswordNotSent(user: User)
    ensures Password !in Keys(Payload(user, ""))
    ensures Password !in Validate(Some(user), true, "", "")
  {
    PayloadKeys(user, "");
    PasswordChecked(user, true, "", "");
  }

  /** A domain without a final dotted group is rejected. */
  lemma AddressWithoutGroupRejected()
    ensures !IsEmail("admin@example")
  {
    var bad := "admin@example";
    forall a | 0 <= a < |bad| && bad[a] == '@'
      ensures !IsEmailDomain(bad[a + 1..])
    {
      assert a == 5;
      assert bad[6..] == "example";
    }
  }
}
