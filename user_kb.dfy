// The user's inline keyboards that carry logic: the status codec of the
// history callbacks, the paginated history list, the ticket detail actions,
// the "reply to dispatcher" button and the meter menus.
module UserKeyboards {
  import opened Wrappers
  import opened Text
  import opened Models

  /** UserCb (prefix "u") with the fields these keyboards fill, or a raw string. */
  datatype Callback =
    | UserCb(a: string, id: Option<int>, status: Option<string>, page: Option<int>, month: Option<int>, year: Option<int>)
    | Plain(data: string)

  datatype Button = Button(text: string, callback: Callback)

  type Keyboard = seq<seq<Button>>

  /** _status_val_to_str for the string-valued TicketStatus. */
  function StatusToCallback(s: TicketStatus): string
  {
    StatusValue(s)
  }

  /** _status_from_val: TicketStatus(v); `None` where that raises. */
  function StatusFromCallback(v: string): Option<TicketStatus>
  {
    StatusOf(v)
  }

  /** The history callbacks carry the status through unchanged. */
  lemma StatusCallbackRoundTrip(s: TicketStatus, v: string)
    ensures StatusFromCallback(StatusToCallback(s)) == Some(s)
    ensures StatusFromCallback(v).Some? ==> StatusToCallback(StatusFromCallback(v).value) == v
  {
  }

  /** max(1, ceil(total / per_page)). */
  function PageCount(total: nat, perPage: nat): (pages: nat)
    requires perPage > 0
    ensures pages >= 1
  {
    var q := (total + perPage - 1) / perPage;
    if q < 1 then 1 else q
  }

  /** The page count is the least positive number of pages that holds every item. */
  lemma PageCountIsLeast(total: nat, perPage: nat)
    requires perPage > 0
    ensures total <= PageCount(total, perPage) * perPage
    ensures PageCount(total, perPage) == 1 || (PageCount(total, perPage) - 1) * perPage < total
  {
    var q := (total + perPage - 1) / perPage;
    var r := (total + perPage - 1) % perPage;
    assert q * perPage + r == total + perPage - 1;
    if q >= 1 {
      assert (q - 1) * perPage == q * perPage - perPage;
    }
  }

  /** One entry of a history page: its id and its rendered creation time. */
  datatype HistoryItem = HistoryItem(id: int, created: string)

  function ItemButton(it: HistoryItem, status: TicketStatus, page: int): Button
  {
    Button("№" + IntToString(it.id) + " • " + it.created,
           UserCb("uh_open", Some(it.id), Some(StatusToCallback(status)), Some(page), None, None))
  }

  function ListNav(status: TicketStatus, page: int): Callback
  {
    UserCb("uh_list", Some(0), Some(StatusToCallback(status)), Some(page), None, None)
  }

  const BackToFilters := Button("⬅️ К фильтрам", UserCb("uh_menu", Some(0), Some("0"), Some(0), None, None))

  /** The navigation row: "« Назад" when there is an earlier page, "Вперёд »" when there is a later one. */
  function NavRow(status: TicketStatus, page: int, pages: nat): (nav: seq<Button>)
    ensures Button("« Назад", ListNav(status, page - 1)) in nav <==> page > 1
    ensures Button("Вперёд »", ListNav(status, page + 1)) in nav <==> page < pages
    ensures |nav| == (if page > 1 then 1 else 0) + (if page < pages then 1 else 0)
  {
    (if page > 1 then [Button("« Назад", ListNav(status, page - 1))] else [])
    + (if page < pages then [Button("Вперёд »", ListNav(status, page + 1))] else [])
  }

  /** ticket_history_list_menu: one row per item, the navigation row when it
    * is not empty, and the way back to the filters last. */
  method HistoryListMenu(items: seq<HistoryItem>, status: TicketStatus, page: int, total: nat, perPage: nat)
    returns (rows: Keyboard)
    requires perPage > 0
    ensures var nav := NavRow(status, page, PageCount(total, perPage));
      && |rows| == |items| + (if |nav| > 0 then 1 else 0) + 1
      && (forall i :: 0 <= i < |items| ==> rows[i] == [ItemButton(items[i], status, page)])
      && (|nav| > 0 ==> rows[|items|] == nav)
      && rows[|rows| - 1] == [BackToFilters]
  {
    rows := [];
    var i := 0;
    while i < |items|
      invariant 0 <= i <= |items|
      invariant |rows| == i
      invariant forall k :: 0 <= k < i ==> rows[k] == [ItemButton(items[k], status, page)]
    {
      rows := rows + [[ItemButton(items[i], status, page)]];
      i := i + 1;
    }
    var pages := PageCount(total, perPage);
    var nav := [];
    if page > 1 {
      nav := nav + [Button("« Назад", ListNav(status, page - 1))];
    }
    if page < pages {
      nav := nav + [Button("Вперёд »", ListNav(status, page + 1))];
    }
    if |nav| > 0 {
      rows := rows + [nav];
    }
    rows := rows + [[BackToFilters]];
  }

  /** The reply button's callback data, "user_reply:{ticket_id}". */
  function ReplyData(ticketId: int): string
  {
    "user_reply:" + IntToString(ticketId)
  }

  /** reply_to_dispatcher_kb. */
  function ReplyToDispatcherKb(ticketId: int): Keyboard
  {
    [[Button("✍️ Ответить диспетчеру", Plain(ReplyData(ticketId)))],
     [Button("🔙 Назад в меню", UserCb("cabinet", None, None, None, None, None))]]
  }

  /** ticket_history_detail_actions: reply and cancel only for an active
    * ticket; the way back is always the last row. */
  function DetailActions(tid: int, status: TicketStatus): (rows: Keyboard)
    ensures |rows| == if status in {Open, Work} then 3 else 1
    ensures [Button("✍️ Ответить диспетчеру", Plain(ReplyData(tid)))] in rows <==> status in {Open, Work}
    ensures (exists r: seq<Button> :: r in rows && |r| > 0 && r[0].callback.UserCb? && r[0].callback.a == "uh_cancel") <==> status in {Open, Work}
    ensures rows[|rows| - 1] == [Button("⬅️ Назад", UserCb("uh_back", Some(0), Some(StatusToCallback(status)), Some(1), None, None))]
  {
    var back := [Button("⬅️ Назад", UserCb("uh_back", Some(0), Some(StatusToCallback(status)), Some(1), None, None))];
    if status in {Open, Work} then
      var cancel := [Button("🚫 Отменить заявку", UserCb("uh_cancel", Some(tid), Some(StatusToCallback(status)), Some(0), None, None))];
      var rows := [[Button("✍️ Ответить диспетчеру", Plain(ReplyData(tid)))], cancel, back];
      assert rows[1] == cancel;
      rows
    else [back]
  }

  /** The number of meters a user may report each month. */
  const MaxMeters := 3

  /** meter_main_menu: the submit button only while fewer than three meters
    * are in; history and back always. */
  function MeterMainMenu(month: int, year: int, submitted: int): (rows: Keyboard)
    ensures (exists r: seq<Button> :: r in rows && |r| > 0 && r[0].callback == UserCb("meter_select_number", None, None, None, Some(month), Some(year)))
            <==> submitted < MaxMeters
    ensures |rows| == if submitted < MaxMeters then 3 else 2
  {
    var submit := [Button("🚰 Передать показания (" + IntToString(submitted) + "/3)",
                          UserCb("meter_select_number", None, None, None, Some(month), Some(year)))];
    var rest := [[Button("📃 История показаний", UserCb("meter_history", None, None, None, None, None))],
                 [Button("🔙 Назад", UserCb("cabinet", None, None, None, None, None))]];
    if submitted < MaxMeters then
      var rows := [submit] + rest;
      assert rows[0] == submit;
      rows
    else rest
  }

  function MeterButton(n: int, month: int, year: int): Button
  {
    Button("Счётчик №" + IntToString(n), UserCb("meter_new", Some(n), None, None, Some(month), Some(year)))
  }

  /** meter_number_menu: meters 1 to 3 in order, then back. */
  method MeterNumberMenu(month: int, year: int) returns (rows: Keyboard)
    ensures |rows| == MaxMeters + 1
    ensures forall n :: 1 <= n <= MaxMeters ==> rows[n - 1] == [MeterButton(n, month, year)]
    ensures rows[MaxMeters] == [Button("🔙 Назад", UserCb("meter_menu", None, None, None, None, None))]
  {
    rows := [];
    var i := 1;
    while i < MaxMeters + 1
      invariant 1 <= i <= MaxMeters + 1
      invariant |rows| == i - 1
      invariant forall n :: 1 <= n < i ==> rows[n - 1] == [MeterButton(n, month, year)]
    {
      rows := rows + [[MeterButton(i, month, year)]];
      i := i + 1;
    }
    rows := rows + [[Button("🔙 Назад", UserCb("meter_menu", None, None, None, None, None))]];
  }
}
