// The personal cabinet's profile card: name, address and phone, the hot
// water readings of the current month grouped by meter, and the ticket
// counters.
module Profile {
  import opened Wrappers
  import opened Text
  import opened Models
  import opened Calendar
  import TicketStore
  import ExportQueries
  import Meter
  import MeterReminder

  const NotFoundText := "⛔ Профиль не найден."

  /** The address line: "—" unless street, house or apartment is present;
    * then the present ones, house and apartment with their "д. " and "кв. "
    * prefixes, joined with ", ". */
  function ProfileAddress(u: User): string
  {
    if !(ExportQueries.Truthy(u.street) || ExportQueries.Truthy(u.house) || ExportQueries.Truthy(u.apartment)) then "—"
    else ExportQueries.JoinWith(ProfileParts(u), ", ")
  }

  /** The `parts` list, appended to field by field. */
  function ProfileParts(u: User): seq<string>
  {
    var p0: seq<string> := [];
    var p1 := if ExportQueries.Truthy(u.street) then p0 + [u.street.value] else p0;
    var p2 := if ExportQueries.Truthy(u.house) then p1 + ["д. " + u.house.value] else p1;
    if ExportQueries.Truthy(u.apartment) then p2 + ["кв. " + u.apartment.value] else p2
  }

  /** The card and the ticket export show the same address for every user. */
  lemma ProfileAddressIsExportAddress(u: User)
    ensures ProfileAddress(u) == ExportQueries.AddressLine(u.street, u.house, u.apartment)
  {
    var s: seq<string> := if ExportQueries.Truthy(u.street) then [u.street.value] else [];
    var h: seq<string> := if ExportQueries.Truthy(u.house) then ["д. " + u.house.value] else [];
    var a: seq<string> := if ExportQueries.Truthy(u.apartment) then ["кв. " + u.apartment.value] else [];
    assert ExportQueries.AddressParts(u.street, u.house, u.apartment) == s + h + a;
    assert ProfileParts(u) == s + h + a;
  }

  /** `MONTHS_RU[month] if month and month < len(MONTHS_RU) else "—"`. */
  function MonthName(month: nat): (name: string)
    ensures name == "—" <==> month == 0 || month >= 13
    ensures 1 <= month <= 12 ==> name == MeterReminder.MonthsRu[month]
  {
    if month != 0 && month < |MeterReminder.MonthsRu| then MeterReminder.MonthsRu[month] else "—"
  }

  /** `value or "—"` for the name column, which is never NULL. */
  function NameOrDash(name: string): string
  {
    if name != "" then name else "—"
  }

  /** What build_profile_text puts on the card. `hot` is None when the month
    * has no reading ("not yet submitted"), else the blocks per meter. */
  datatype Card =
    | NotFound
    | Card(name: string, address: string, phone: string, monthName: string, year: int,
           hot: Option<seq<(int, seq<TicketStore.HistoryItem>)>>, counts: TicketStore.GroupedCounts)

  /** What build_profile_text shows for the user `tg` of `store` on the
    * Irkutsk date `now`: "not found" for an unknown user; otherwise the row's
    * name, address and phone, the month, the hot readings of that month
    * grouped by meter, and the ticket counters of the user's own tickets. */
  ghost predicate IsCardOf(store: TicketStore.Store, tg: int, now: Date, card: Card)
    requires ValidDate(now)
    reads store
  {
    && (card.NotFound? <==> tg !in store.users)
    && (tg in store.users ==>
      var u := store.users[tg];
      var history := TicketStore.MeterHistoryByMonth(store.users, store.readings, tg, "hot", now.month, now.year);
      && card.Card?
      && card.name == NameOrDash(u.name)
      && card.address == ExportQueries.AddressLine(u.street, u.house, u.apartment)
      && card.phone == ExportQueries.OrDash(u.phone)
      && card.monthName == MonthName(now.month)
      && card.year == now.year
      && (card.hot.None? <==> history == [])
      && (card.hot.Some? ==> card.hot.value == Meter.Listing(history))
      && card.counts.active == card.counts.open + card.counts.work
      && card.counts.total == card.counts.open + card.counts.work + card.counts.cancelled
      && card.counts.open == |TicketStore.Between(store.tickets, TicketStore.OwnedWithStatus(tg, Open), 0, store.nextId)|
      && card.counts.work == |TicketStore.Between(store.tickets, TicketStore.OwnedWithStatus(tg, Work), 0, store.nextId)|
      && card.counts.cancelled == |TicketStore.Between(store.tickets, TicketStore.OwnedWithStatus(tg, Cancelled), 0, store.nextId)|)
  }

  /** build_profile_text for the user `tg`, with `now` the current Irkutsk date. */
  method BuildProfile(store: TicketStore.Store, tg: int, now: Date) returns (card: Card)
    requires store.Valid() && ValidDate(now)
    ensures IsCardOf(store, tg, now, card)
  {
    if tg !in store.users {
      return NotFound;
    }
    var u := store.users[tg];
    ProfileAddressIsExportAddress(u);
    var history := TicketStore.MeterHistoryByMonth(store.users, store.readings, tg, "hot", now.month, now.year);
    var hot: Option<seq<(int, seq<TicketStore.HistoryItem>)>> := None;
    if history != [] {
      var blocks := Meter.MonthHistory(history);
      hot := Some(blocks);
    }
    var counts := store.CountUserTicketsGrouped(tg);
    card := Card(NameOrDash(u.name), ProfileAddress(u), ExportQueries.OrDash(u.phone), MonthName(now.month), now.year, hot, counts);
  }
}
