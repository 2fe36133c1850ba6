# Admin front-end core, modelled in Dafny

This project models the client-side logic of a React/TypeScript back-office
("admin") for a small shop:

- the four resource forms: user, product, contact and order. Each has a draft
  created blank or filled from a fetched record, per-keystroke input
  filtering, a validator that fills a field-to-message map, and a submit
  gate. The user and product forms build a multipart `FormData` payload; the
  contact and order forms hand the draft itself to `onSubmit`;
- the administrator login page: its validator, its submit gate and what
  happens after the login call;
- the four list pages: fetched rows and total, search keyword and page, the
  checkbox selection with select-all, bulk delete and single delete, and how
  each page reports a failed call. The user, order and contact pages also
  have their badge formatters;
- the asset-URL helper and the side menu with its active-link test.

Calls to the REST API, the browser (`alert`, `confirm`, navigation) and the
session store are not modelled as code. Their outcomes are method
parameters (`FetchResult`, `LoginResult`, `deleteError`, `confirmed`). Their
visible effects come back as values (`Effect`: alert, navigate, store token,
unhandled rejection). A JavaScript number held in a form is represented by
the text `toString()` prints for it. `JsText` defines the parts of
`parseFloat`, `parseInt` and `toString()` the inputs go through. It also
writes the validators' regular expressions out as predicates.

Layout: `wrappers.dfy` (Option), `ui.dfy` (payload entries, API errors,
effects), `js_text.dfy`, `form_input.dfy` (the shared numeric-input
filter), one file per form, `login_page.dfy`, `list_page.dfy` (the shared
list-page class) plus one file per list page, `static_resource.dfy` and
`sidebar.dfy`.

The product and contact forms store 0 when a numeric input is emptied. The
order form stores "" instead (src/components/form/OrderForm.tsx:62), and that
value always fails its validator, as `OrderForm.ClearedNumberRejected` shows.

Every length limit in the validators is JavaScript's `String#length`, which
counts UTF-16 code units. The model counts the same way (`JsText.Utf16Length`):
a character outside the Basic Multilingual Plane, such as an emoji, counts
twice.

## Model

| member | source | states |
|---|---|---|
| Wrappers.OrEmpty | src/components/form/UserFrom.tsx:48-49 | `x \|\| ""` on a nullable string: the string when present, "" when null |
| Ui.Keys | src/components/form/UserFrom.tsx:112-123 | the keys of a payload keep the order and the number of the `append` calls |
| Ui.KeysOfConcat | src/components/form/ProductForm.tsx:117-124 | appending two runs of entries appends their key lists |
| JsText.DigitRun | src/components/form/ProductForm.tsx:159 | the leading `\d+` of a text: all digits, and followed by a non-digit or the end |
| JsText.DomainOfParts | src/components/form/UserFrom.tsx:154 | word runs, a '.' and a two- or three-character word group form a domain the e-mail expression accepts |
| JsText.EmailOfParts | src/components/form/UserFrom.tsx:154 | word runs, '@' and an accepted domain form an accepted address |
| JsText.NumberTextMatches | src/components/form/ProductForm.tsx:159 | a printed number passes `^\d+(\.\d{0,k})?$` iff it is zero or non-negative and has at most k significant fraction digits |
| JsText.ParseFloatOfNumberText | src/components/form/ProductForm.tsx:83-86 | `parseFloat` reads back every number `toString()` prints, unchanged |
| JsText.ParseFloatIsPrinted | src/components/form/ProductForm.tsx:83-86 | whatever `parseFloat` reads is stored as text that `parseFloat` reads back unchanged |
| JsText.LetterFirstIsNaN | src/components/form/ProductForm.tsx:83 | text starting with an ASCII letter other than 'I' is NaN for `parseFloat` |
| JsText.AcceptedDecimalStaysAccepted | src/components/form/ProductForm.tsx:83-86 | text the decimal pattern accepts parses, and its printed value is still accepted |
| JsText.ParseIntOfIntText | src/pages/users/UserLists.tsx:131-134 | `parseInt` of an integer's decimal text gives the integer back: a checkbox value or a role option gives back its id or role |
| JsText.Utf16Length | src/components/form/ProductForm.tsx:135 | `String#length`: at least the number of characters and at most twice it; 0 exactly for "" |
| JsText.Utf16LengthOfBmp | src/components/form/UserFrom.tsx:138-139 | within the Basic Multilingual Plane `length` is the number of characters |
| JsText.Utf16LengthOfAstral | src/components/form/ProductForm.tsx:166 | every character outside the Basic Multilingual Plane counts twice |
| JsText.Utf16LengthOfConcat | src/components/form/ProductForm.tsx:135 | the `length` of a concatenation is the sum of the lengths |
| FormInput.NonNumberIgnored | src/components/form/ProductForm.tsx:82-88 | a non-empty input that `parseFloat` rejects leaves the stored number unchanged |
| FormInput.WordIgnored | src/components/form/ContactForm.tsx:52-63 | typing a word (a letter other than 'I' first) into a numeric input is ignored |
| FormInput.NumberInputKeepsPrinted | src/components/form/OrderForm.tsx:56-67 | a numeric field that holds a printed number or the blank value keeps doing so whatever is typed |
| FormInput.AcceptedInputStaysAccepted | src/components/form/ProductForm.tsx:82-88 | typing text the decimal pattern accepts stores a value the same pattern accepts |
| UserForm.Validate | src/components/form/UserFrom.tsx:133-194 | a field is in the error map iff its rule produces a message, and it maps to that message; every length limit counts UTF-16 code units, as `length` does |
| UserForm.ConfirmationChecked | src/components/form/UserFrom.tsx:187-192 | the confirmation is reported iff it differs from the password, with or without a draft |
| UserForm.UncheckedFields | src/components/form/UserFrom.tsx:136-192 | the role and the avatar are never reported; without a draft only the confirmation can be |
| UserForm.UsernameChecked | src/components/form/UserFrom.tsx:137-146 | the username is reported iff its `length` is outside 4..10 or it is not all ASCII letters and digits |
| UserForm.EmailChecked | src/components/form/UserFrom.tsx:148-157 | the e-mail is reported iff its `length` (UTF-16 units) is outside 4..100 or it fails the address pattern; the length message wins |
| UserForm.NamesChecked | src/components/form/UserFrom.tsx:159-170 | first and last names are reported iff their `length` (UTF-16 units) exceeds 100 |
| UserForm.PasswordChecked | src/components/form/UserFrom.tsx:172-185 | a missing password is reported only in create mode; a typed one must have a `length` (UTF-16 units) of 8 to 20; the message depends on which |
| UserForm.Profile | src/components/form/UserFrom.tsx:115-120 | the five profile entries, in append order, each carrying the draft's value |
| UserForm.PayloadKeys | src/components/form/UserFrom.tsx:105-124 | the payload's keys: password first iff one was typed, the five profile fields, then the avatar iff one was chosen |
| UserForm.ConfirmationNeverSent | src/components/form/UserFrom.tsx:105-124 | the confirmation password is never part of the payload |
| UserForm.PayloadValues | src/components/form/UserFrom.tsx:112-123 | every payload entry carries the draft's value for its key |
| UserForm.UserFormState.constructor | src/components/form/UserFrom.tsx:29-59 | create mode starts from the blank customer draft; edit mode from the fetched user with null names made "" and no avatar; a failed fetch leaves no draft |
| UserForm.UserFormState.HandleChange | src/components/form/UserFrom.tsx:61-96 | password and confirmation go to their own state; role is parsed with `parseInt`; avatar takes the chosen file; other fields are copied; without a draft only the password state changes |
| UserForm.UserFormState.HandleSubmit | src/components/form/UserFrom.tsx:98-131 | with no error and a draft, the payload is submitted and a typed password is stored in the draft; with errors they are stored and nothing is submitted |
| UserForm.BuildFormData | src/components/form/UserFrom.tsx:103-124 | the successive `append` calls build exactly the payload |
| UserForm.BlankCreateDraftRejected | src/components/form/UserFrom.tsx:35-43 | the untouched create form reports username, e-mail and password, and nothing else |
| UserForm.BlankPasswordNotSent | src/components/form/UserFrom.tsx:105-113 | an edit with a blank password passes the password rule and sends no password |
| UserForm.AddressWithoutGroupRejected | src/components/form/UserFrom.tsx:154 | an address whose domain lacks a final dotted group is rejected |
| ProductForm.Validate | src/components/form/ProductForm.tsx:132-176 | a field is in the error map iff its rule produces a message, and it maps to that message; every length limit counts UTF-16 code units, as `length` does |
| ProductForm.SkuChecked | src/components/form/ProductForm.tsx:135-139 | the SKU is reported iff empty or its `length` (UTF-16 units) exceeds 10, with "too long" taking precedence |
| ProductForm.NameChecked | src/components/form/ProductForm.tsx:141-145 | the name is reported iff its `length` (UTF-16 units) is outside 4..100, always with the range message |
| ProductForm.CategoryChecked | src/components/form/ProductForm.tsx:147-157 | the category is reported iff empty or its `length` (UTF-16 units) exceeds 20, with distinct messages |
| ProductForm.UnitPriceChecked | src/components/form/ProductForm.tsx:159-164 | a stored price is accepted iff non-negative with at most two significant decimals |
| ProductForm.DescriptionChecked | src/components/form/ProductForm.tsx:166-173 | the description is reported iff its `length` (UTF-16 units) is below 2, always with the length message; the image is never reported |
| ProductForm.AstralDescriptionAccepted | src/components/form/ProductForm.tsx:166-173 | a one-emoji description has `length` 2 and is accepted |
| ProductForm.BlankProductRejected | src/components/form/ProductForm.tsx:27-34 | the untouched create form reports SKU, name, category and description, but not the price 0 |
| ProductForm.PayloadFields | src/components/form/ProductForm.tsx:117-124 | the payload is sku, name, category, unit_price, description, then image iff the draft has one, each with the draft's value |
| ProductForm.PriceStaysPrinted | src/components/form/ProductForm.tsx:82-88 | the stored price stays the printed form of a number whatever is typed |
| ProductForm.AcceptedPriceStaysAccepted | src/components/form/ProductForm.tsx:82-88 | typing an accepted price stores an accepted price |
| ProductForm.ProductFormState.constructor | src/components/form/ProductForm.tsx:38-64 | blank draft in create mode and after a failed fetch; the fetched product with a null category made "" otherwise |
| ProductForm.ProductFormState.HandleChange | src/components/form/ProductForm.tsx:66-109 | the price goes through the numeric filter with "" stored as 0; the image becomes the chosen file or null; other fields are copied |
| ProductForm.ProductFormState.HandleSubmit | src/components/form/ProductForm.tsx:111-130 | submits exactly the payload iff there is no error; otherwise stores the errors |
| ProductForm.BuildFormData | src/components/form/ProductForm.tsx:114-124 | the successive `append` calls build exactly the payload |
| ContactForm.Validate | src/components/form/ContactForm.tsx:88-104 | a field is in the error map iff its rule produces a message, and it maps to that message; every length limit counts UTF-16 code units, as `length` does |
| ContactForm.NoDraftNoErrors | src/components/form/ContactForm.tsx:91-101 | without a draft nothing is reported |
| ContactForm.TextFieldsChecked | src/components/form/ContactForm.tsx:91-97 | the full name is reported iff empty; the e-mail iff its `length` (UTF-16 units) is outside 4..50, with no format check; the content never |
| ContactForm.StatusChecked | src/components/form/ContactForm.tsx:99-101 | a stored status is accepted iff non-negative with at most nine significant decimals |
| ContactForm.BlankContactRejected | src/components/form/ContactForm.tsx:27-33 | the untouched create form reports the name and the e-mail only |
| ContactForm.StatusChoiceStored | src/components/form/ContactForm.tsx:151-180 | each status radio button stores its own value, which the status rule accepts |
| ContactForm.StatusStaysPrinted | src/components/form/ContactForm.tsx:52-63 | the stored status stays the printed form of a number whatever is typed |
| ContactForm.ContactFormState.constructor | src/components/form/ContactForm.tsx:24-46 | the blank draft in create mode; in edit mode the fetched contact, or no draft when the fetch fails |
| ContactForm.ContactFormState.HandleChange | src/components/form/ContactForm.tsx:48-75 | the status goes through the numeric filter with "" stored as 0; other fields are copied; without a draft nothing changes |
| ContactForm.ContactFormState.HandleSubmit | src/components/form/ContactForm.tsx:77-86 | the draft is submitted iff there is no error and a draft exists; otherwise the error map is stored |
| OrderForm.Validate | src/components/form/OrderForm.tsx:92-118 | a field is in the error map iff its rule produces a message, and it maps to that message; every length limit counts UTF-16 code units, as `length` does |
| OrderForm.NoDraftNoErrors | src/components/form/OrderForm.tsx:95-115 | without a draft nothing is reported |
| OrderForm.TextFieldsChecked | src/components/form/OrderForm.tsx:95-115 | the serial number is reported iff empty, the note iff its `length` (UTF-16 units) exceeds 100; user id and username never |
| OrderForm.TotalPriceChecked | src/components/form/OrderForm.tsx:99-104 | a stored total is accepted iff it is a non-negative number with at most two significant decimals; "" never is |
| OrderForm.StatusChecked | src/components/form/OrderForm.tsx:106-111 | the status follows the same two-decimal rule, with its own message |
| OrderForm.BlankOrderRejected | src/components/form/OrderForm.tsx:29-37 | the untouched create form reports the serial number and the total price |
| OrderForm.ClearedNumberRejected | src/components/form/OrderForm.tsx:56-67 | clearing the total or the status stores "", which its rule then reports |
| OrderForm.NumberStaysPrintedOrEmpty | src/components/form/OrderForm.tsx:56-67 | a numeric field holds a printed number or "", whatever is typed |
| OrderForm.OrderFormState.constructor | src/components/form/OrderForm.tsx:26-50 | the blank draft in create mode; in edit mode the fetched order, or no draft when the fetch fails |
| OrderForm.OrderFormState.HandleChange | src/components/form/OrderForm.tsx:52-79 | total and status go through the numeric filter with "" stored as ""; other fields are copied; without a draft nothing changes |
| OrderForm.OrderFormState.HandleSubmit | src/components/form/OrderForm.tsx:81-90 | the draft is submitted iff there is no error and a draft exists; otherwise the error map is stored |
| LoginPage.Validate | src/pages/LoginPage.tsx:49-60 | a required message for the username iff it is empty, and for the password iff it is empty |
| LoginPage.SubmitRequest | src/pages/LoginPage.tsx:35-38 | as written: login is called iff the previous error map is empty, always with the type "admin" |
| LoginPage.BlankFirstSubmitCallsLogin | src/pages/LoginPage.tsx:23-38 | the first submit of the untouched form calls login with blank credentials although it has errors |
| LoginPage.FilledFormHeldBackOnce | src/pages/LoginPage.tsx:35-38 | after that, a correctly filled form is held back once |
| LoginPage.IntendedRequest | src/pages/LoginPage.tsx:35-38 | corrected gate: login is called iff both credentials are non-empty, always with the type "admin" |
| LoginPage.Outcome | src/pages/LoginPage.tsx:39-45 | success stores the token and then opens "/"; a failure alerts the status text; a failure without a response throws in the handler |
| LoginPage.LoginPageState.constructor | src/pages/LoginPage.tsx:18-23 | the form starts as "", "", "admin" with no errors |
| LoginPage.LoginPageState.HandleChange | src/pages/LoginPage.tsx:25-31 | only the named field changes |
| LoginPage.LoginPageState.HandleSubmit | src/pages/LoginPage.tsx:33-47 | as written: stores the fresh errors but gates the call on the previous ones |
| LoginPage.LoginPageState.HandleSubmitIntended | src/pages/LoginPage.tsx:33-47 | corrected: gates the call on the errors just computed |
| ListPage.ErrorEffects | src/pages/products/ProductList.tsx:39-46 | a 401 alerts the status text and opens /login; other failures alert per the page's policy; without a response some pages throw |
| ListPage.OnlyUnauthorizedLogsOut | src/pages/users/UserLists.tsx:65-72 | a failure leads to /login iff it is a 401, on every page, and always shows something |
| ListPage.Ids | src/pages/users/UserLists.tsx:144 | the row ids in display order |
| ListPage.Without | src/pages/users/UserLists.tsx:133-136 | unchecking removes every occurrence of the id and keeps the count of every other id |
| ListPage.WithoutAbsent | src/pages/products/ProductList.tsx:107-110 | unchecking an id that is not selected changes nothing |
| ListPage.UncheckUndoesCheck | src/pages/orders/OrderList.tsx:137-149 | unchecking the row just checked restores the previous selection |
| ListPage.SelfComparedFilter | src/pages/contacts/ContactList.tsx:129-134 | the filter whose parameter shadows the unchecked id keeps nothing, whatever id was unchecked |
| ListPage.SelectedLabels | src/pages/users/UserLists.tsx:95-97 | the bulk-delete prompt names at most one label per visible row; which rows are listed is stated by the three lemmas that follow |
| ListPage.Labels | src/pages/products/ProductList.tsx:69-71 | the labels of all rows, in row order |
| ListPage.SelectedLabelsMembers | src/pages/users/UserLists.tsx:95-97 | a name is listed iff some visible row with that name is selected, names may repeat |
| ListPage.SelectedLabelsOfConcat | src/pages/products/ProductList.tsx:69-71 | listing distributes over concatenation, so labels appear in row order, each selected row in its place |
| ListPage.AllSelectedListsAll | src/pages/orders/OrderList.tsx:98-100 | when every row is selected the bulk-delete prompt lists every row in order |
| ListPage.NoneSelectedListsNone | src/pages/contacts/ContactList.tsx:87-90 | with nothing selected the prompt lists nobody |
| ListPage.ListedIffSelected | src/pages/users/UserLists.tsx:95-97 | with distinct labels, a row is listed iff its id is selected |
| ListPage.SelectAllChecksHeader | src/pages/users/UserLists.tsx:140-152 | select-all on a non-empty page checks the header box |
| ListPage.LengthTestIgnoresWhichIds | src/pages/users/UserLists.tsx:151-152 | the header test compares lengths: a repeated id can stand in for an unselected row |
| ListPage.SameSizeSameElements | src/pages/users/UserLists.tsx:151-152 | two duplicate-free id lists, one drawn from the other, have equal length iff they hold the same ids |
| ListPage.SelectedAllMeansEveryRow | src/pages/users/UserLists.tsx:151-152 | on a selection the checkboxes can produce, with distinct row ids, the header test holds iff every row is selected |
| ListPage.Join | src/pages/contacts/ContactList.tsx:90-94 | `join`: "" for no part, the part itself for one |
| ListPage.JoinSnoc | src/pages/contacts/ContactList.tsx:90-94 | joining one more part appends the separator and the part |
| ListPage.ListPageState.constructor | src/pages/users/UserLists.tsx:41-49 | no rows, total 0, no keyword, page 1, nothing selected; the page fixes its error policy and its uncheck filter |
| ListPage.ListPageState.Fetch | src/pages/users/UserLists.tsx:51-75 | queries with the committed keyword and page; clears the selection whatever the outcome; a well-formed response replaces rows and total; a failure is reported by the page's policy |
| ListPage.ListPageState.TypeSearch | src/pages/users/UserLists.tsx:159-163 | typing changes only the search text |
| ListPage.ListPageState.HandleSearch | src/pages/users/UserLists.tsx:81-84 | the search text becomes the keyword; the page is kept; a fetch follows iff the keyword changed |
| ListPage.ListPageState.ChangeCheckbox | src/pages/users/UserLists.tsx:129-138 | checking appends the id; unchecking applies the page's filter (drop the id, or on the contact page drop everything); a selection the boxes can produce stays duplicate-free and within the visible ids |
| ListPage.ListPageState.SelectAll | src/pages/users/UserLists.tsx:140-149 | the selection becomes exactly the visible ids in order, or empty |
| ListPage.ListPageState.IsSelectedAllRows | src/pages/users/UserLists.tsx:151-152 | the header box is checked iff the selection is non-empty and as long as the rows; on a valid selection, iff every row is selected |
| ListPage.ListPageState.BulkDelete | src/pages/users/UserLists.tsx:94-107 | lists the selected rows' labels; deletes nothing; on confirm fetches again: selection cleared, rows and total replaced by a well-formed response, search text, keyword and page kept |
| ListPage.ListPageState.Delete | src/pages/users/UserLists.tsx:109-127 | nothing without confirmation; otherwise the delete call; a failure is reported by the page's policy and changes nothing; success fetches again with the same new state as `Fetch` |
| ListPage.WithoutKeepsValid | src/pages/users/UserLists.tsx:133-136 | unchecking keeps a selection duplicate-free and within the visible ids |
| UserList.FormatName | src/pages/users/UserLists.tsx:26-28 | the first name, one space, the last name, a missing name counted as empty |
| UserList.NamelessUserShowsSpace | src/pages/users/UserLists.tsx:26-28 | a user without names shows a single space |
| UserList.FormatRole | src/pages/users/UserLists.tsx:30-36 | a badge exactly for roles 1 and 2 |
| UserList.RoleBadgesDistinct | src/pages/users/UserLists.tsx:30-36 | the two roles get different badges |
| ProductList.ProductErrorsAlertMessage | src/pages/products/ProductList.tsx:89-96 | every failure other than a 401 alerts "Lỗi: " and the message, and none throws |
| OrderList.FormatStatus | src/pages/orders/OrderList.tsx:10-26 | a badge exactly for statuses 1 to 7 |
| OrderList.StatusBadgesDistinct | src/pages/orders/OrderList.tsx:10-26 | the seven statuses get seven different badges |
| ContactList.ContactErrorsNeverThrow | src/pages/contacts/ContactList.tsx:57-64 | no failure throws in the handler; without a response the alert is "Error occurred" |
| ContactList.FormatStatus | src/pages/contacts/ContactList.tsx:24-32 | a badge exactly for statuses 1 to 3 |
| ContactList.StatusBadgesDistinct | src/pages/contacts/ContactList.tsx:24-32 | the three statuses get different badges |
| ContactList.UncheckDropsOtherRows | src/pages/contacts/ContactList.tsx:129-134 | unchecking 1 in [1, 2] gives [] as written and [2] with the filter on the id |
| ContactList.RowsOf | src/pages/contacts/ContactList.tsx:87-90 | each contact becomes a row with its id and full name, in order |
| ContactList.TwoSelectedJoined | src/pages/contacts/ContactList.tsx:86-95 | two selected contacts are listed as "first, second" |
| StaticResource.StaticResourceUrl | src/utilities/getStaticResource.ts:1-3 | "" iff the path is absent or empty; otherwise the fixed asset base followed by the path |
| StaticResource.UrlDeterminesPath | src/utilities/getStaticResource.ts:2 | different non-empty paths give different URLs |
| Sidebar.Menu | src/components/partials/Sidebar.tsx:56-68 | one link per menu entry, in order, active iff the pathname starts with its path |
| Sidebar.MenuTargets | src/components/partials/Sidebar.tsx:17-34 | four links, to /users, /products, /orders and /contacts, in that order |
| Sidebar.PathsNotNested | src/components/partials/Sidebar.tsx:17-34 | no menu path is a prefix of another |
| Sidebar.AtMostOneActive | src/components/partials/Sidebar.tsx:63 | at most one link is active for any pathname |
| Sidebar.AnyContinuationActive | src/components/partials/Sidebar.tsx:63 | any pathname that continues a menu path (such as "/users/5/edit" or "/usersX") activates that link |
| Sidebar.AvatarSource | src/components/partials/Sidebar.tsx:49 | the avatar URL, "" without a session or an avatar |

## Findings

| source | as written | input that shows it | evidently intended | confidence | as-written member | corrected member |
|---|---|---|---|---|---|---|
| src/pages/LoginPage.tsx:35-36 | the submit gate reads the `errors` state of the current render, and the `validate()` update does not reach it until the next render | first submit of the untouched form: the error map is still empty, so login is called with "" and ""; the next submit of a filled form is then held back | call login iff the errors just computed are empty | high (not executed) | LoginPage.BlankFirstSubmitCallsLogin | LoginPage.IntendedRequest |
| src/pages/contacts/ContactList.tsx:130-132 | the filter's parameter `contactId` shadows the unchecked id, so each element is compared with itself | unchecking contact 1 with the selection [1, 2] leaves [] | remove only the unchecked id, as the other list pages do | high (not executed) | ContactList.UncheckDropsOtherRows | ListPage.Without |

The list-page class takes the uncheck filter as a page constant: the contact
page's `ContactList.Uncheck` is the self-comparing filter as written, the
other pages' is `ListPage.Without`, which is the corrected filter. The login
page keeps both handlers: `LoginPageState.HandleSubmit` as written,
`HandleSubmitIntended` corrected.

## Left out

- API modules (src/apis/*) and every network call: their outcomes are parameters, and their effects are returned values.
- The create and edit pages, src/layouts/DefaultLayout.tsx, src/components/partials/Header.tsx, src/routes/index.ts and the Redux store: they only forward payloads, fetch on mount or route. src/components/table/Pagination is not part of this model, so the page size and page changes are not modelled.
- Asynchrony: each handler is one atomic step. The fetch on mount, the edit-mode fetch, the `useEffect` refetch on keyword or page change, and the deferred `setState` are collapsed into that step. The one exception is the login gate, whose stale read is modelled explicitly.
- JSX rendering: disabled inputs in edit mode, the "resource not found" view when a form has no draft, CSS, `moment` dates, and the wording of `confirm` prompts. Only the names each prompt lists are modelled.
- JsText.ParseFloat: exponents and "Infinity" are not modelled. "Infinity" reads as NaN, and numbers are exact decimals, so rounding to double precision and exponent notation in `toString()` are not captured.
- JsText.ParseInt: no radix prefixes ("0x"); base 10 only.
- ListPage.ListPageState.ChangeCheckbox: the checkbox value reaches the handler as the row's id. The `parseInt` step is covered separately by JsText.ParseIntOfIntText.
- UserForm: `first_name`/`last_name` are held as strings after normalisation. The null case is handled where the draft is built (`OrEmpty`).
- UserForm.EmailChecked: the address expression is stated as a predicate over the '@' position. Only the general construction lemmas (`DomainOfParts`, `EmailOfParts`) show accepted addresses; there are no concrete accepted literals.
- Files and blobs are opaque handles (`FileRef`). An image returned by the API is any form value, and "present" means not null and not the empty string.
- Badge colours are an enumeration; the default react-bootstrap colour is written as `Primary`.
