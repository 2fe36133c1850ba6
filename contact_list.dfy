/**
 * The contact list page: its row record, its error policy, its status
 * badges, and its row checkbox's self-comparing filter.
 */
module ContactList {
  import opened Wrappers
  import opened Ui
  import opened ListPage

  /** A contact as the search call returns it (the fields the page uses). */
  datatype ContactRow = ContactRow(contactId: int, fullName: string, email: string, status: int)

  /** The bulk-delete prompt lists full names. */
  function ToRow(c: ContactRow): Row
  {
    Row(c.contactId, c.fullName)
  }

  /** A failure without a 401 alerts the status text, or "Error occurred" without a response. */
  const Policy := StatusTextOrGeneric

  /** The names in the bulk-delete prompt are joined by ", ". */
  const Separator := ", "

  /** Only a 401 logs out, and no failure makes the handler throw. */
  lemma ContactErrorsNeverThrow(e: ApiError)
    ensures UnhandledRejection !in ErrorEffects(Policy, e)
    ensures e.NoResponse? ==> ErrorEffects(Policy, e) == [Alert("Error occurred")]
  {
  }

  /** `formatStatus`: new (1), received (2) and rejected (3), nothing otherwise. */
  function FormatStatus(status: int): (badge: Option<Badge>)
    ensures badge.Some? <==> 1 <= status <= 3
  {
    if status == 1 then Some(Badge(Warning, "Liên hệ mới"))
    else if status == 2 then Some(Badge(Info, "Đã nhận"))
    else if status == 3 then Some(Badge(Danger, "Bị từ chối"))
    else None
  }

  lemma StatusBadgesDistinct(a: int, b: int)
    requires FormatStatus(a).Some? && FormatStatus(a) == FormatStatus(b)
    ensures a == b
  {
  }

  /** The row checkbox's filter compares each selected id with itself. */
  const Uncheck := SelfCompared

  /** Unchecking contact 1 of the selection [1, 2] also drops 2; the filter on the id keeps it. */
  lemma UncheckDropsOtherRows()
    ensures SelfComparedFilter([1, 2], 1) == []
    ensures Without([1, 2], 1) == [2]
  {
    assert [1, 2][1..] == [2];
    assert [2][1..] == [];
  }

  /** The prompt after a bulk selection: the selected full names joined by ", ". */
  function BulkDeleteNames(rows: seq<ContactRow>, selection: seq<int>): string
  {
    Join(SelectedLabels(RowsOf(rows), selection), Separator)
  }

  function RowsOf(rows: seq<ContactRow>): (r: seq<Row>)
    ensures |r| == |rows|
    ensures forall i :: 0 <= i < |rows| ==> r[i] == ToRow(rows[i])
  {
    if rows == [] then [] else [ToRow(rows[0])] + RowsOf(rows[1..])
  }

  /** Two selected contacts are listed as "first, second". */
  lemma TwoSelectedJoined(a: ContactRow, b: ContactRow)
    requires a.contactId != b.contactId
    ensures BulkDeleteNames([a, b], [a.contactId, b.contactId]) == a.fullName + ", " + b.fullName
  {
    var rows := RowsOf([a, b]);
    AllSelectedListsAll(rows, [a.contactId, b.contactId]);
    assert Labels(rows) == [a.fullName, b.fullName] by {
      assert rows == [Row(a.contactId, a.fullName), Row(b.contactId, b.fullName)];
    }
    JoinSnoc([a.fullName], b.fullName, Separator);
    assert [a.fullName] + [b.fullName] == [a.fullName, b.fullName];
  }
}
