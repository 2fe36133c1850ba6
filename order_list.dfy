/** The order list page: its row record, its error policy and its status badges. */
module OrderList {
  import opened Wrappers
  import opened ListPage

  /** An order as the search call returns it (the fields the page uses). */
  datatype OrderRow = OrderRow(orderId: int, serialNumber: string, status: int)

  /** The bulk-delete prompt lists serial numbers. */
  function ToRow(o: OrderRow): Row
  {
    Row(o.orderId, o.serialNumber)
  }

  /** A failure without a 401 alerts the status text; without a response the handler throws. */
  const Policy := StatusText

  /** The row checkbox's filter drops the unchecked id. */
  const Uncheck := ById

  const Separator := ","

  /** `formatStatus`: one badge for each status 1 to 7, nothing otherwise. */
  function FormatStatus(status: int): (badge: Option<Badge>)
    ensures badge.Some? <==> 1 <= status <= 7
  {
    if status == 1 then Some(Badge(Warning, "Đơn hàng mới"))
    else if status == 2 then Some(Badge(Secondary, "Đã xác thực"))
    else if status == 3 then Some(Badge(Info, "Đang giao hàng"))
    else if status == 4 then Some(Badge(Success, "Đã hoàn thành"))
    else if status == 5 then Some(Badge(Primary, "Đã thanh toán"))
    else if status == 6 then Some(Badge(Dark, "Hoàn tất"))
    else if status == 7 then Some(Badge(Danger, "Bị từ chối"))
    else None
  }

  /** The seven statuses are shown with seven different badges. */
  lemma StatusBadgesDistinct(a: int, b: int)
    requires FormatStatus(a).Some? && FormatStatus(a) == FormatStatus(b)
    ensures a == b
  {
  }
}
