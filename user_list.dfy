/**
 * The user list page: its row record, its error policy, and the name and
 * role formatters of the table.
 */
module UserList {
  import opened Wrappers
  import opened ListPage

  /** A user as the search call returns it. */
  datatype UserRow = UserRow(
    userId: int,
    username: string,
    email: string,
    firstName: Option<string>,
    lastName: Option<string>,
    role: int)

  /** The bulk-delete prompt lists usernames. */
  function ToRow(u: UserRow): Row
  {
    Row(u.userId, u.username)
  }

  /** A failure without a 401 alerts the status text; without a response the handler throws. */
  const Policy := StatusText

  /** The row checkbox's filter drops the unchecked id. */
  const Uncheck := ById

  /** The names in the bulk-delete prompt are interpolated as an array: joined by ",". */
  const Separator := ","

  /**
   * `formatName`: the first name, one space, the last name, a missing name
   * counting as empty.
   */
  function FormatName(firstName: Option<string>, lastName: Option<string>): (r: string)
    ensures var first, last := OrEmpty(firstName), OrEmpty(lastName);
      && |r| == |first| + 1 + |last|
      && r[..|first|] == first
      && r[|first|] == ' '
      && r[|first| + 1..] == last
  {
    OrEmpty(firstName) + " " + OrEmpty(lastName)
  }

  /** A user without names shows a single space. */
  lemma NamelessUserShowsSpace()
    ensures FormatName(None, None) == " "
    ensures FormatName(Some(""), None) == " "
  {
  }

  /** `formatRole`: a badge for administrators (1) and customers (2), nothing otherwise. */
  function FormatRole(role: int): (badge: Option<Badge>)
    ensures badge.Some? <==> role == 1 || role == 2
  {
    if role == 1 then Some(Badge(Warning, "Quản trị viên"))
    else if role == 2 then Some(Badge(Primary, "Khách hàng"))
    else None
  }

  /** The two roles are shown differently. */
  lemma RoleBadgesDistinct(a: int, b: int)
    requires FormatRole(a).Some? && FormatRole(a) == FormatRole(b)
    ensures a == b
  {
  }
}
