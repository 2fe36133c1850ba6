/**
 * What the four list pages (users, products, orders, contacts) share: the
 * fetched rows and total, the search keyword and page, the selection of row
 * ids with its checkboxes, bulk and single delete, and how a failed call is
 * reported. The pages differ only in how they report errors (an
 * `ErrorPolicy`), in the separator of the bulk-delete prompt, and in their
 * badge formatters, which live in the page modules.
 */
module ListPage {
  import opened Wrappers
  import opened Ui

  /** A row as the pages use it: its id and the name the bulk-delete prompt lists. */
  datatype Row = Row(id: int, name: string)

  /**
   * The outcome of a search call: a response with `records` and `total`,
   * a response missing either (ignored), or the client's error.
   */
  datatype FetchResult = Fetched(records: seq<Row>, total: int) | Malformed | Failed(error: ApiError)

  /** The colour of a react-bootstrap `Badge` (`bg`; "primary" when omitted). */
  datatype Variant = Primary | Secondary | Success | Danger | Warning | Info | Dark

  /** A status or role badge: its colour and its text. */
  datatype Badge = Badge(bg: Variant, text: string)

  /** The arguments of the search call. */
  datatype SearchQuery = SearchQuery(keyword: Option<string>, page: int)

  /**
   * How a page reports a failed call that is not a 401:
   * users and orders alert the status text (and throw without a response),
   * products alert "Lỗi: " + the error message,
   * contacts alert the status text or "Error occurred" without a response.
   */
  datatype ErrorPolicy = StatusText | ErrorMessage | StatusTextOrGeneric

  /** The `catch` handler of a page's fetch and delete calls. */
  function ErrorEffects(policy: ErrorPolicy, e: ApiError): (effects: seq<Effect>)
    ensures IsUnauthorized(e) ==> effects == [Alert(e.statusText), Navigate(LoginPath)]
    ensures e.HttpError? && !IsUnauthorized(e) ==>
      effects == [Alert(if policy == ErrorMessage then "Lỗi: " + e.message else e.statusText)]
    ensures e.NoResponse? ==> effects == match policy
      case StatusText => [UnhandledRejection]
      case ErrorMessage => [Alert("Lỗi: " + e.message)]
      case StatusTextOrGeneric => [Alert("Error occurred")]
  {
    match e
    case HttpError(status, statusText, message) =>
      if status == 401 then [Alert(statusText), Navigate(LoginPath)]
      else if policy == ErrorMessage then [Alert("Lỗi: " + message)]
      else [Alert(statusText)]
    case NoResponse(message) =>
      match policy
      case StatusText => [UnhandledRejection]
      case ErrorMessage => [Alert("Lỗi: " + message)]
      case StatusTextOrGeneric => [Alert("Error occurred")]
  }

  /** Only a 401 leads to the login page, on every page. */
  lemma OnlyUnauthorizedLogsOut(policy: ErrorPolicy, e: ApiError)
    ensures Navigate(LoginPath) in ErrorEffects(policy, e) <==> IsUnauthorized(e)
    ensures |ErrorEffects(policy, e)| >= 1
  {
    var effects := ErrorEffects(policy, e);
    if !IsUnauthorized(e) {
      assert |effects| == 1 && !effects[0].Navigate?;
    }
  }

  /** The ids of the rows, in display order. */
  function Ids(rows: seq<Row>): (ids: seq<int>)
    ensures |ids| == |rows|
    ensures forall i :: 0 <= i < |rows| ==> ids[i] == rows[i].id
  {
    if rows == [] then [] else [rows[0].id] + Ids(rows[1..])
  }

  /** The selection with every occurrence of `id` filtered out. */
  function Without(selection: seq<int>, id: int): (r: seq<int>)
    ensures id !in r
    ensures forall x :: x != id ==> multiset(r)[x] == multiset(selection)[x]
    ensures |r| <= |selection|
  {
    if selection == [] then []
    else
      assert selection == [selection[0]] + selection[1..];
      (if selection[0] == id then [] else [selection[0]]) + Without(selection[1..], id)
  }

  /** Unchecking a row keeps the others in their order: without `id` nothing is removed. */
  lemma {:induction false} WithoutAbsent(selection: seq<int>, id: int)
    requires id !in selection
    ensures Without(selection, id) == selection
  {
    if selection != [] {
      WithoutAbsent(selection[1..], id);
    }
  }

  /** Unchecking a row just checked restores the selection. */
  lemma {:induction false} UncheckUndoesCheck(selection: seq<int>, id: int)
    requires id !in selection
    ensures Without(selection + [id], id) == selection
  {
    if selection == [] {
      assert Without([id], id) == [] + Without([], id);
    } else {
      assert (selection + [id])[1..] == selection[1..] + [id];
      UncheckUndoesCheck(selection[1..], id);
    }
  }

  /**
   * How a page's row checkbox drops an id when it is unchecked: by comparing
   * each selected id with the unchecked one, or by comparing each selected
   * id with itself (the contact page, whose filter parameter shadows the
   * unchecked id).
   */
  datatype UncheckFilter = ById | SelfCompared

  /**
   * The self-comparing filter: an element is kept only if it differs from
   * itself, so nothing is kept, whatever id was unchecked.
   */
  function SelfComparedFilter(selection: seq<int>, id: int): (r: seq<int>)
    ensures r == []
  {
    if selection == [] then []
    else
      var kept := selection[0];
      (if kept != kept then [kept] else []) + SelfComparedFilter(selection[1..], id)
  }

  /** The labels of the rows whose id is selected, in row order. */
  function SelectedLabels(rows: seq<Row>, selection: seq<int>): (labels: seq<string>)
    ensures |labels| <= |rows|
  {
    if rows == [] then []
    else (if rows[0].id in selection then [rows[0].name] else []) + SelectedLabels(rows[1..], selection)
  }

  /**
   * A name is listed iff some visible row with that name is selected; rows
   * may share a name.
   */
  lemma {:induction false} SelectedLabelsMembers(rows: seq<Row>, selection: seq<int>, name: string)
    ensures name in SelectedLabels(rows, selection) <==>
      exists i :: 0 <= i < |rows| && rows[i].id in selection && rows[i].name == name
  {
    if rows != [] {
      var rest := rows[1..];
      SelectedLabelsMembers(rest, selection, name);
      if exists i :: 0 <= i < |rest| && rest[i].id in selection && rest[i].name == name {
        var i :| 0 <= i < |rest| && rest[i].id in selection && rest[i].name == name;
        assert rows[i + 1] == rest[i];
      }
      if exists i :: 0 <= i < |rows| && rows[i].id in selection && rows[i].name == name {
        var i :| 0 <= i < |rows| && rows[i].id in selection && rows[i].name == name;
        if i > 0 {
          assert rest[i - 1] == rows[i];
        }
      }
    }
  }

  /**
   * Listing distributes over concatenation, so the labels follow the rows'
   * order: each row contributes its own label, if selected, in its place.
   */
  lemma {:induction false} SelectedLabelsOfConcat(a: seq<Row>, b: seq<Row>, selection: seq<int>)
    ensures SelectedLabels(a + b, selection) == SelectedLabels(a, selection) + SelectedLabels(b, selection)
    decreases |a|
  {
    if a == [] {
      assert a + b == b;
    } else {
      assert (a + b)[0] == a[0] && (a + b)[1..] == a[1..] + b;
      SelectedLabelsOfConcat(a[1..], b, selection);
    }
  }

  /** The labels of all rows. */
  function Labels(rows: seq<Row>): (labels: seq<string>)
    ensures |labels| == |rows|
    ensures forall i :: 0 <= i < |rows| ==> labels[i] == rows[i].name
  {
    if rows == [] then [] else [rows[0].name] + Labels(rows[1..])
  }

  /** The bulk-delete prompt after select-all lists every row, in order. */
  lemma {:induction false} AllSelectedListsAll(rows: seq<Row>, selection: seq<int>)
    requires forall i :: 0 <= i < |rows| ==> rows[i].id in selection
    ensures SelectedLabels(rows, selection) == Labels(rows)
  {
    if rows != [] {
      AllSelectedListsAll(rows[1..], selection);
    }
  }

  /** With nothing selected the bulk-delete prompt lists nobody. */
  lemma {:induction false} NoneSelectedListsNone(rows: seq<Row>)
    ensures SelectedLabels(rows, []) == []
  {
    if rows != [] {
      NoneSelectedListsNone(rows[1..]);
    }
  }

  /** A row is listed iff its id is selected: the labels listed for an id-ordered walk. */
  lemma {:induction false} ListedIffSelected(rows: seq<Row>, selection: seq<int>, i: int)
    requires 0 <= i < |rows|
    requires forall j :: 0 <= j < |rows| && j != i ==> rows[j].name != rows[i].name
    ensures rows[i].name in SelectedLabels(rows, selection) <==> rows[i].id in selection
  {
    if i == 0 {
      var r := rows[1..];
      assert forall j :: 0 <= j < |r| ==> r[j].name != rows[0].name by {
        forall j | 0 <= j < |r| ensures r[j].name != rows[0].name {
          assert r[j] == rows[j + 1];
        }
      }
      LabelAbsent(r, selection, rows[0].name);
    } else {
      var r := rows[1..];
      assert r[i - 1] == rows[i];
      assert forall j :: 0 <= j < |r| && j != i - 1 ==> r[j].name != r[i - 1].name by {
        forall j | 0 <= j < |r| && j != i - 1 ensures r[j].name != r[i - 1].name {
          assert r[j] == rows[j + 1];
        }
      }
      ListedIffSelected(r, selection, i - 1);
    }
  }

  lemma {:induction false} LabelAbsent(rows: seq<Row>, selection: seq<int>, name: string)
    requires forall j :: 0 <= j < |rows| ==> rows[j].name != name
    ensures name !in SelectedLabels(rows, selection)
  {
    if rows != [] {
      LabelAbsent(rows[1..], selection, name);
    }
  }

  /** The header checkbox's test: as many selected ids as rows, and at least one. */
  predicate IsSelectedAll(selection: seq<int>, rows: seq<Row>)
  {
    |selection| != 0 && |selection| == |rows|
  }

  /** Select-all checks the header box whenever there is a row. */
  lemma SelectAllChecksHeader(rows: seq<Row>)
    requires rows != []
    ensures IsSelectedAll(Ids(rows), rows)
  {
  }

  /** The test compares lengths: a repeated id can stand in for an unselected row. */
  lemma LengthTestIgnoresWhichIds()
    ensures var rows := [Row(1, "a"), Row(2, "b")];
      IsSelectedAll([1, 1], rows) && 2 !in [1, 1]
  {
  }

  predicate NoDuplicates(s: seq<int>)
  {
    forall i, j :: 0 <= i < j < |s| ==> s[i] != s[j]
  }

  /**
   * What the checkboxes maintain: no id is selected twice and every selected
   * id is a visible row's.
   */
  predicate SelectionValid(selection: seq<int>, rows: seq<Row>)
  {
    NoDuplicates(selection) && forall x :: x in selection ==> x in Ids(rows)
  }

  /** The distinct ids of a selection. */
  function Elements(s: seq<int>): (r: set<int>)
    ensures forall x :: x in r <==> x in s
  {
    if s == [] then {} else {s[0]} + Elements(s[1..])
  }

  lemma {:induction false} DistinctCount(s: seq<int>)
    requires NoDuplicates(s)
    ensures |Elements(s)| == |s|
  {
    if s != [] {
      var rest := s[1..];
      assert NoDuplicates(rest) by {
        forall i, j | 0 <= i < j < |rest| ensures rest[i] != rest[j] {
          assert rest[i] == s[i + 1] && rest[j] == s[j + 1];
        }
      }
      DistinctCount(rest);
      assert s[0] !in rest;
    }
  }

  lemma EqualBySize(a: set<int>, b: set<int>)
    requires a <= b && |a| == |b|
    ensures a == b
  {
    assert |b - a| == |b| - |a|;
  }

  /**
   * Two duplicate-free sequences, the first drawn from the second, have
   * the same length iff they hold the same elements.
   */
  lemma SameSizeSameElements(a: seq<int>, b: seq<int>)
    requires NoDuplicates(a) && NoDuplicates(b)
    requires forall x :: x in a ==> x in b
    ensures |a| == |b| <==> forall x :: x in b ==> x in a
  {
    if |a| == |b| {
      SameSizeCovers(a, b);
    }
    if forall x :: x in b ==> x in a {
      CoverSameSize(a, b);
    }
  }

  lemma SameSizeCovers(a: seq<int>, b: seq<int>)
    requires NoDuplicates(a) && NoDuplicates(b)
    requires forall x :: x in a ==> x in b
    requires |a| == |b|
    ensures forall x :: x in b ==> x in a
  {
    DistinctCount(a);
    DistinctCount(b);
    EqualBySize(Elements(a), Elements(b));
  }

  lemma CoverSameSize(a: seq<int>, b: seq<int>)
    requires NoDuplicates(a) && NoDuplicates(b)
    requires forall x :: x in a <==> x in b
    ensures |a| == |b|
  {
    DistinctCount(a);
    DistinctCount(b);
    assert Elements(a) == Elements(b);
  }

  lemma EveryRowMeansEveryId(selection: seq<int>, rows: seq<Row>)
    ensures (forall i :: 0 <= i < |rows| ==> rows[i].id in selection)
        <==> (forall x :: x in Ids(rows) ==> x in selection)
  {
    var ids := Ids(rows);
    if forall i :: 0 <= i < |rows| ==> rows[i].id in selection {
      forall x | x in ids ensures x in selection {
        var i :| 0 <= i < |ids| && ids[i] == x;
        assert rows[i].id == x;
      }
    }
    if forall x :: x in ids ==> x in selection {
      forall i | 0 <= i < |rows| ensures rows[i].id in selection {
        assert ids[i] in ids;
      }
    }
  }

  /**
   * On a selection the checkboxes can produce, and rows with distinct ids,
   * the length test means exactly that every row is selected.
   */
  lemma SelectedAllMeansEveryRow(selection: seq<int>, rows: seq<Row>)
    requires SelectionValid(selection, rows)
    requires NoDuplicates(Ids(rows))
    ensures IsSelectedAll(selection, rows) <==> rows != [] && forall i :: 0 <= i < |rows| ==> rows[i].id in selection
  {
    SameSizeSameElements(selection, Ids(rows));
    EveryRowMeansEveryId(selection, rows);
  }

  /** `parts.join(separator)`. */
  function Join(parts: seq<string>, separator: string): (r: string)
    ensures parts == [] ==> r == ""
    ensures |parts| == 1 ==> r == parts[0]
  {
    if parts == [] then ""
    else if |parts| == 1 then parts[0]
    else parts[0] + separator + Join(parts[1..], separator)
  }

  /** Joining one more part adds the separator and the part at the end. */
  lemma {:induction false} JoinSnoc(parts: seq<string>, last: string, separator: string)
    requires parts != []
    ensures Join(parts + [last], separator) == Join(parts, separator) + separator + last
  {
    if |parts| == 1 {
      assert parts + [last] == [parts[0], last];
    } else {
      assert (parts + [last])[1..] == parts[1..] + [last];
      JoinSnoc(parts[1..], last, separator);
    }
  }

  /** The state of one mounted list page. */
  class ListPageState {
    const policy: ErrorPolicy
    const uncheck: UncheckFilter
    var rows: seq<Row>
    var total: int
    var searchInput: string
    var keyword: Option<string>
    var page: int
    var selection: seq<int>

    /** Mounting: no rows, no keyword, page 1, nothing selected. */
    constructor (policy: ErrorPolicy, uncheck: UncheckFilter)
      ensures this.policy == policy && this.uncheck == uncheck
      ensures rows == [] && total == 0 && searchInput == "" && keyword == None && page == 1
      ensures selection == []
    {
      this.policy := policy;
      this.uncheck := uncheck;
      rows := [];
      total := 0;
      searchInput := "";
      keyword := None;
      page := 1;
      selection := [];
    }

    predicate Valid()
      reads this
    {
      SelectionValid(selection, rows)
    }

    /**
     * The fetch function: the query uses the committed keyword and page;
     * the selection is cleared whatever the outcome; a well-formed
     * response replaces the rows and the total.
     */
    method Fetch(result: FetchResult) returns (query: SearchQuery, effects: seq<Effect>)
      modifies this
      ensures query == SearchQuery(old(keyword), old(page))
      ensures selection == []
      ensures result.Fetched? ==> rows == result.records && total == result.total
      ensures !result.Fetched? ==> rows == old(rows) && total == old(total)
      ensures effects == if result.Failed? then ErrorEffects(policy, result.error) else []
      ensures searchInput == old(searchInput) && keyword == old(keyword) && page == old(page)
      ensures Valid()
    {
      query := SearchQuery(keyword, page);
      effects := [];
      match result {
        case Fetched(records, t) =>
          rows := records;
          total := t;
        case Malformed =>
        case Failed(e) =>
          effects := ErrorEffects(policy, e);
      }
      selection := [];
    }

    /** Typing in the search box. */
    method TypeSearch(text: string)
      modifies this
      ensures searchInput == text
      ensures rows == old(rows) && total == old(total) && keyword == old(keyword)
      ensures page == old(page) && selection == old(selection)
    {
      searchInput := text;
    }

    /**
     * The search submit: the typed text becomes the keyword and the page is
     * kept. `refetch` says whether the keyword changed, which re-runs the
     * fetch.
     */
    method HandleSearch() returns (refetch: bool)
      modifies this
      ensures keyword == Some(old(searchInput))
      ensures refetch <==> keyword != old(keyword)
      ensures page == old(page) && rows == old(rows) && total == old(total)
      ensures searchInput == old(searchInput) && selection == old(selection)
    {
      refetch := keyword != Some(searchInput);
      keyword := Some(searchInput);
    }

    /**
     * A row checkbox: checking appends the id; unchecking filters the
     * selection with the page's filter, which drops every occurrence of the
     * id or, self-compared, everything. A box is checked iff its id is
     * selected, so a check arrives only for an unselected id of a visible
     * row, which keeps the selection valid.
     */
    method ChangeCheckbox(id: int, checked: bool)
      modifies this
      ensures selection ==
        if checked then old(selection) + [id]
        else if uncheck == ById then Without(old(selection), id)
        else SelfComparedFilter(old(selection), id)
      ensures rows == old(rows) && total == old(total) && keyword == old(keyword) && page == old(page)
      ensures searchInput == old(searchInput)
      ensures old(Valid()) && (checked ==> id !in old(selection) && id in Ids(rows)) ==> Valid()
    {
      if checked {
        selection := selection + [id];
      } else if uncheck == ById {
        selection := Without(selection, id);
      } else {
        selection := SelfComparedFilter(selection, id);
      }
      if old(Valid()) {
        if checked && id !in old(selection) && id in Ids(rows) {
          assert NoDuplicates(selection) by {
            forall i, j | 0 <= i < j < |selection| ensures selection[i] != selection[j] {
              if j == |selection| - 1 {
                assert selection[i] in old(selection);
              } else {
                assert selection[i] == old(selection)[i] && selection[j] == old(selection)[j];
              }
            }
          }
        } else if !checked && uncheck == ById {
          WithoutKeepsValid(old(selection), id, rows);
        }
      }
    }

    /** The header checkbox: all visible ids in display order, or nothing. */
    method SelectAll(checked: bool)
      modifies this
      ensures selection == if checked then Ids(rows) else []
      ensures rows == old(rows) && total == old(total) && keyword == old(keyword) && page == old(page)
      ensures searchInput == old(searchInput)
      ensures checked && NoDuplicates(Ids(rows)) ==> Valid()
      ensures !checked ==> Valid()
    {
      selection := if checked then Ids(rows) else [];
    }

    /** Whether the header checkbox shows as checked. */
    function IsSelectedAllRows(): (all: bool)
      reads this
      ensures all <==> |selection| != 0 && |selection| == |rows|
      ensures Valid() && NoDuplicates(Ids(rows)) ==>
        (all <==> rows != [] && forall i :: 0 <= i < |rows| ==> rows[i].id in selection)
    {
      if Valid() && NoDuplicates(Ids(rows)) then
        SelectedAllMeansEveryRow(selection, rows);
        IsSelectedAll(selection, rows)
      else
        IsSelectedAll(selection, rows)
    }

    /**
     * Bulk delete: the prompt lists the labels of the selected visible rows;
     * on confirm nothing is deleted and the page only fetches again.
     */
    method BulkDelete(confirmed: bool, result: FetchResult) returns (listed: seq<string>, query: Option<SearchQuery>, effects: seq<Effect>)
      modifies this
      ensures listed == SelectedLabels(old(rows), old(selection))
      ensures !confirmed ==> query == None && effects == [] && unchanged(this)
      ensures confirmed ==> query == Some(SearchQuery(old(keyword), old(page))) && selection == []
      ensures confirmed ==> effects == if result.Failed? then ErrorEffects(policy, result.error) else []
      ensures confirmed ==> rows == if result.Fetched? then result.records else old(rows)
      ensures confirmed ==> total == if result.Fetched? then result.total else old(total)
      ensures confirmed ==> searchInput == old(searchInput) && keyword == old(keyword) && page == old(page)
    {
      listed := SelectedLabels(rows, selection);
      query := None;
      effects := [];
      if confirmed {
        var q;
        q, effects := Fetch(result);
        query := Some(q);
      }
    }

    /**
     * Single delete: nothing happens unless confirmed; then the delete call
     * is made, and on success the page fetches again, while a failure is
     * reported by the page's policy. `deleteError` is the call's error, if
     * any, and `result` the outcome of the fetch that follows success.
     */
    method Delete(id: int, confirmed: bool, deleteError: Option<ApiError>, result: FetchResult)
      returns (deleted: Option<int>, query: Option<SearchQuery>, effects: seq<Effect>)
      modifies this
      ensures !confirmed ==> deleted == None && query == None && effects == [] && unchanged(this)
      ensures confirmed ==> deleted == Some(id)
      ensures confirmed && deleteError.Some? ==>
        query == None && effects == ErrorEffects(policy, deleteError.value) && unchanged(this)
      ensures confirmed && deleteError.None? ==>
        query == Some(SearchQuery(old(keyword), old(page))) && selection == []
        && effects == (if result.Failed? then ErrorEffects(policy, result.error) else [])
        && rows == (if result.Fetched? then result.records else old(rows))
        && total == (if result.Fetched? then result.total else old(total))
        && searchInput == old(searchInput) && keyword == old(keyword) && page == old(page)
    {
      deleted := None;
      query := None;
      effects := [];
      if confirmed {
        deleted := Some(id);
        if deleteError.Some? {
          effects := ErrorEffects(policy, deleteError.value);
        } else {
          var q;
          q, effects := Fetch(result);
          query := Some(q);
        }
      }
    }
  }

  lemma WithoutKeepsValid(selection: seq<int>, id: int, rows: seq<Row>)
    requires SelectionValid(selection, rows)
    ensures SelectionValid(Without(selection, id), rows)
  {
    var r := Without(selection, id);
    forall x | x in r ensures x in Ids(rows) {
      assert multiset(r)[x] > 0;
    }
    forall i, j | 0 <= i < j < |r| ensures r[i] != r[j] {
      if r[i] == r[j] {
        assert multiset(r)[r[i]] >= 2 by {
          MultisetCountTwo(r, i, j);
        }
        assert multiset(selection)[r[i]] >= 2;
        CountTwoMeansDuplicate(selection, r[i]);
      }
    }
  }

  lemma {:induction false} MultisetCountTwo(s: seq<int>, i: int, j: int)
    requires 0 <= i < j < |s| && s[i] == s[j]
    ensures multiset(s)[s[i]] >= 2
  {
    var x := s[i];
    assert s == s[..i] + [x] + s[i + 1..j] + [x] + s[j + 1..];
  }

  lemma {:induction false} CountTwoMeansDuplicate(s: seq<int>, x: int)
    requires multiset(s)[x] >= 2
    ensures !NoDuplicates(s)
  {
    var i :| 0 <= i < |s| && s[i] == x;
    var rest := s[..i] + s[i + 1..];
    assert s == s[..i] + [x] + s[i + 1..];
    assert multiset(rest)[x] >= 1;
    assert x in rest;
    var k :| 0 <= k < |rest| && rest[k] == x;
    if k < i {
      assert s[k] == x;
    } else {
      assert s[k + 1] == x;
    }
  }
}
