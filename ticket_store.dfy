// The ticket side of the database layer: users, tickets and attachments
// held in memory, with the operations the handlers call. Ticket ids are
// handed out in increasing order and created_at is taken at insertion, so
// "newest first" is descending id order.
module TicketStore {
  import opened Wrappers
  import opened Text
  import opened Models
  import Calendar

  /** What a listing selects. */
  datatype TicketFilter =
    | WithStatus(status: TicketStatus)                   // list_tickets, count_tickets
    | OwnedWithStatus(ownerTg: int, status: TicketStatus) // list_user_tickets, count_user_tickets
    | OwnedOpenOrWork(ownerTg: int)                      // get_active_ticket

  predicate Matches(t: Ticket, f: TicketFilter)
  {
    match f
    case WithStatus(s) => t.status == s
    case OwnedWithStatus(tg, s) => t.ownerTg == tg && t.status == s
    case OwnedOpenOrWork(tg) => t.ownerTg == tg && t.status != Cancelled
  }

  /** The tickets with ids in [lo, hi) that match `f`, newest (highest id) first. */
  function Between(tickets: map<nat, Ticket>, f: TicketFilter, lo: nat, hi: nat): seq<Ticket>
    decreases hi - lo
  {
    if lo >= hi then []
    else Between(tickets, f, lo + 1, hi)
         + (if lo in tickets && Matches(tickets[lo], f) then [tickets[lo]] else [])
  }

  /** Every element of a listing is a stored ticket that matches, with an id
    * in [lo, hi), and the ids strictly decrease along the listing. */
  predicate NewestFirstListing(tickets: map<nat, Ticket>, f: TicketFilter, lo: nat, hi: nat, s: seq<Ticket>)
  {
    && (forall i :: 0 <= i < |s| ==> s[i].id in tickets && tickets[s[i].id] == s[i]
                                     && Matches(s[i], f) && lo <= s[i].id < hi)
    && (forall i, j :: 0 <= i < j < |s| ==> s[i].id > s[j].id)
  }

  lemma {:induction false} BetweenShape(tickets: map<nat, Ticket>, f: TicketFilter, lo: nat, hi: nat)
    requires forall id :: id in tickets ==> tickets[id].id == id
    ensures NewestFirstListing(tickets, f, lo, hi, Between(tickets, f, lo, hi))
    decreases hi - lo
  {
    if lo < hi {
      BetweenShape(tickets, f, lo + 1, hi);
      var rest := Between(tickets, f, lo + 1, hi);
      assert NewestFirstListing(tickets, f, lo + 1, hi, rest);
      var tail := if lo in tickets && Matches(tickets[lo], f) then [tickets[lo]] else [];
      var s := Between(tickets, f, lo, hi);
      assert s == rest + tail;
      forall i | 0 <= i < |s|
        ensures s[i].id in tickets && tickets[s[i].id] == s[i] && Matches(s[i], f) && lo <= s[i].id < hi
      {
        if i < |rest| {
          assert s[i] == rest[i];
        } else {
          assert |tail| == 1 && s[i] == tickets[lo];
        }
      }
      forall i, j | 0 <= i < j < |s| ensures s[i].id > s[j].id {
        if j < |rest| {
          assert s[i] == rest[i] && s[j] == rest[j];
        } else {
          assert |tail| == 1 && s[i] == rest[i] && s[j] == tickets[lo];
        }
      }
    }
  }

  /** A stored matching ticket with an id in range is in the listing. */
  lemma {:induction false} BetweenComplete(tickets: map<nat, Ticket>, f: TicketFilter, lo: nat, hi: nat, id: nat)
    requires id in tickets && Matches(tickets[id], f) && lo <= id < hi
    ensures tickets[id] in Between(tickets, f, lo, hi)
    decreases hi - lo
  {
    if lo < id {
      BetweenComplete(tickets, f, lo + 1, hi, id);
    }
  }

  /** offset = max(0, (page - 1) * per_page). */
  function Offset(page: int, perPage: nat): nat
  {
    if (page - 1) * perPage < 0 then 0 else (page - 1) * perPage
  }

  /** OFFSET offset LIMIT n applied to an ordered result. */
  function Window<T>(s: seq<T>, offset: nat, n: nat): (r: seq<T>)
    ensures |r| <= n
  {
    var a := if offset < |s| then offset else |s|;
    var b := if offset + n < |s| then offset + n else |s|;
    s[a..b]
  }

  /** Paging partitions a listing: the item at position k of the full
    * listing is the (k mod n)-th item of page k/n + 1. */
  lemma PageOfItem<T>(s: seq<T>, perPage: nat, k: nat)
    requires perPage > 0 && k < |s|
    ensures var page := k / perPage + 1;
      k % perPage < |Window(s, Offset(page, perPage), perPage)|
      && Window(s, Offset(page, perPage), perPage)[k % perPage] == s[k]
  {
    var page := k / perPage + 1;
    assert (page - 1) * perPage == k / perPage * perPage;
    assert k / perPage * perPage + k % perPage == k;
  }

  /** count_user_tickets_grouped's dictionary. */
  datatype GroupedCounts = GroupedCounts(open: nat, work: nat, cancelled: nat, active: nat, total: nat)

  /** set_ticket_status / update_ticket_status result: (old, new, author). */
  datatype StatusChange = StatusChange(oldStatus: TicketStatus, newStatus: TicketStatus, authorTg: int)

  /** One NOT NULL column of update_user_profile: the stripped value when given. */
  function Given(current: string, v: Option<string>): string
  {
    if v.Some? then Strip(v.value) else current
  }

  /** One nullable column of update_user_profile: the stripped value when given. */
  function GivenColumn(current: Option<string>, v: Option<string>): Option<string>
  {
    if v.Some? then Some(Strip(v.value)) else current
  }

  /** update_user_profile applied to one row: every given field is stored
    * stripped; an empty apartment string is stored as NULL; a field given
    * as None is left as it was. */
  function ApplyProfile(u: User, status: Option<string>, name: Option<string>, phone: Option<string>,
                        street: Option<string>, house: Option<string>, apartment: Option<string>): (r: User)
    ensures status.Some? ==> r.status == Strip(status.value)
    ensures status.None? ==> r.status == u.status
    ensures name.Some? ==> r.name == Strip(name.value)
    ensures name.None? ==> r.name == u.name
    ensures phone.Some? ==> r.phone == Some(Strip(phone.value))
    ensures phone.None? ==> r.phone == u.phone
    ensures street.Some? ==> r.street == Some(Strip(street.value))
    ensures street.None? ==> r.street == u.street
    ensures house.Some? ==> r.house == Some(Strip(house.value))
    ensures house.None? ==> r.house == u.house
    ensures apartment.Some? && apartment.value != "" ==> r.apartment == Some(Strip(apartment.value))
    ensures apartment == Some("") ==> r.apartment.None?
    ensures apartment.None? ==> r.apartment == u.apartment
    ensures r.username == u.username
  {
    User(Given(u.status, status), u.username, Given(u.name, name), GivenColumn(u.phone, phone),
         GivenColumn(u.street, street), GivenColumn(u.house, house),
         if apartment == Some("") then None else GivenColumn(u.apartment, apartment))
  }

  /** Keep the attachments whose ticket is still present. */
  function AttachmentsOf(atts: seq<Attachment>, tickets: map<nat, Ticket>): (r: seq<Attachment>)
    ensures forall i :: 0 <= i < |r| ==> r[i] in atts && r[i].ticketId in tickets
    ensures forall a :: a in atts && a.ticketId in tickets ==> a in r
  {
    if |atts| == 0 then []
    else (if atts[0].ticketId in tickets then [atts[0]] else []) + AttachmentsOf(atts[1..], tickets)
  }

  /** The readings that survive deleting a user: the other owners', in order. */
  function ReadingsNotOwnedBy(rs: seq<MeterReading>, tg: int): (r: seq<MeterReading>)
    ensures forall x :: x in r <==> x in rs && x.ownerTg != tg
  {
    if |rs| == 0 then []
    else (if rs[0].ownerTg != tg then [rs[0]] else []) + ReadingsNotOwnedBy(rs[1..], tg)
  }

  // ---------- meter readings ----------

  /** One reading as get_meter_history_by_month and check_month_meters hand
    * it to the handlers; the date texts are left as dates. */
  datatype HistoryItem = HistoryItem(meterNumber: int, date: Calendar.Date, value: string, createdAt: Calendar.DateTime)

  /** `meter_number or 1`. */
  function MeterNumberOr1(n: Option<int>): (k: int)
    ensures k != 0
    ensures k == 1 <==> n.None? || n.value == 0 || n.value == 1
  {
    if n.Some? && n.value != 0 then n.value else 1
  }

  function ItemOf(r: MeterReading): HistoryItem
  {
    HistoryItem(MeterNumberOr1(r.meterNumber), r.readingDate, r.value, r.createdAt)
  }

  /** The WHERE clause: one owner, one meter type, one month of reading_date. */
  predicate OfMonth(r: MeterReading, tg: int, meterType: string, month: int, year: int)
  {
    r.ownerTg == tg && r.meterType == meterType && r.readingDate.month == month && r.readingDate.year == year
  }

  /** The matching rows as history items, in the order of `rows`. */
  function HistoryOf(rows: seq<MeterReading>, tg: int, meterType: string, month: int, year: int): (h: seq<HistoryItem>)
    ensures |h| <= |rows|
    ensures forall x :: x in h ==> exists r :: r in rows && OfMonth(r, tg, meterType, month, year) && x == ItemOf(r)
    ensures forall r :: r in rows && OfMonth(r, tg, meterType, month, year) ==> ItemOf(r) in h
  {
    if |rows| == 0 then []
    else
      var last := rows[|rows| - 1];
      var front := HistoryOf(rows[..|rows| - 1], tg, meterType, month, year);
      assert forall r :: r in rows ==> r in rows[..|rows| - 1] || r == last;
      if OfMonth(last, tg, meterType, month, year) then front + [ItemOf(last)] else front
  }

  /** get_meter_history_by_month over `rows`, the readings in the order they
    * were stored; [] for an unknown user. Every item's meter number is
    * non-zero. */
  function MeterHistoryByMonth(users: map<int, User>, rows: seq<MeterReading>, tg: int, meterType: string,
                               month: int, year: int): (h: seq<HistoryItem>)
    ensures tg !in users ==> h == []
    ensures forall x :: x in h ==> x.meterNumber != 0
  {
    if tg !in users then [] else HistoryOf(rows, tg, meterType, month, year)
  }

  /** The meter numbers COUNT(DISTINCT meter_number) sees: NULLs are skipped. */
  function SubmittedNumbers(rows: seq<MeterReading>, tg: int, month: int, year: int): set<int>
  {
    set r | r in rows && OfMonth(r, tg, "hot", month, year) && r.meterNumber.Some? :: r.meterNumber.value
  }

  /** get_user_meters_count_for_month: distinct meter numbers of the user's hot
    * readings of that month; 0 for an unknown user. */
  function MetersCountForMonth(users: map<int, User>, rows: seq<MeterReading>, tg: int, month: int, year: int): (n: nat)
    ensures tg !in users ==> n == 0
    ensures n <= |rows|
  {
    if tg !in users then 0 else SubmittedNumbersBound(rows, tg, month, year); |SubmittedNumbers(rows, tg, month, year)|
  }

  lemma {:induction false} SubmittedNumbersBound(rows: seq<MeterReading>, tg: int, month: int, year: int)
    ensures |SubmittedNumbers(rows, tg, month, year)| <= |rows|
  {
    if |rows| > 0 {
      var front := rows[..|rows| - 1];
      var last := rows[|rows| - 1];
      SubmittedNumbersBound(front, tg, month, year);
      SubmittedNumbersStep(front, last, tg, month, year);
      assert rows == front + [last];
    }
  }

  /** Appending one reading adds its number, if it is a hot numbered reading
    * of that month, and nothing else. */
  lemma SubmittedNumbersStep(rows: seq<MeterReading>, r: MeterReading, tg: int, month: int, year: int)
    ensures SubmittedNumbers(rows + [r], tg, month, year)
         == SubmittedNumbers(rows, tg, month, year)
          + (if OfMonth(r, tg, "hot", month, year) && r.meterNumber.Some? then {r.meterNumber.value} else {})
  {
    var a := SubmittedNumbers(rows + [r], tg, month, year);
    var b := SubmittedNumbers(rows, tg, month, year)
          + (if OfMonth(r, tg, "hot", month, year) && r.meterNumber.Some? then {r.meterNumber.value} else {});
    forall n | n in a ensures n in b {
      var x :| x in rows + [r] && OfMonth(x, tg, "hot", month, year) && x.meterNumber.Some? && x.meterNumber.value == n;
      if x != r {
        assert x in rows;
      }
    }
    forall n | n in b ensures n in a {
      if n in SubmittedNumbers(rows, tg, month, year) {
        var x :| x in rows && OfMonth(x, tg, "hot", month, year) && x.meterNumber.Some? && x.meterNumber.value == n;
        assert x in rows + [r];
      } else {
        assert r in rows + [r];
      }
    }
  }

  /** A saved hot reading of a known user is counted for its month: the count
    * grows by one exactly when its meter number is new for that month. */
  lemma SavedReadingCounted(users: map<int, User>, rows: seq<MeterReading>, r: MeterReading, n: int)
    requires r.ownerTg in users && r.meterType == "hot" && r.meterNumber == Some(n)
    ensures n in SubmittedNumbers(rows + [r], r.ownerTg, r.readingDate.month, r.readingDate.year)
    ensures MetersCountForMonth(users, rows + [r], r.ownerTg, r.readingDate.month, r.readingDate.year)
         == MetersCountForMonth(users, rows, r.ownerTg, r.readingDate.month, r.readingDate.year)
          + (if n in SubmittedNumbers(rows, r.ownerTg, r.readingDate.month, r.readingDate.year) then 0 else 1)
  {
    SubmittedNumbersStep(rows, r, r.ownerTg, r.readingDate.month, r.readingDate.year);
  }

  /** The admin-id cache: (result, new cache) of one list_admin_ids call.
    * A non-empty cache is returned as is; otherwise the table is read and
    * becomes the cache, even when it is empty. */
  function CachedAdminRead(cache: seq<int>, table: seq<int>): (seq<int>, seq<int>)
  {
    if cache != [] then (cache, cache) else (table, table)
  }

  /** The results of successive list_admin_ids calls while the admins table
    * holds `tables[0]`, then `tables[1]`, and so on. */
  function AdminReads(cache: seq<int>, tables: seq<seq<int>>): (r: seq<seq<int>>)
    ensures |r| == |tables|
    decreases |tables|
  {
    if |tables| == 0 then []
    else
      var (result, next) := CachedAdminRead(cache, tables[0]);
      [result] + AdminReads(next, tables[1..])
  }

  /** Once the cache holds a non-empty list, every later call returns that
    * list, whatever the admins table says. */
  lemma {:induction false} AdminCacheIsSticky(cache: seq<int>, tables: seq<seq<int>>)
    requires cache != []
    ensures forall i :: 0 <= i < |tables| ==> AdminReads(cache, tables)[i] == cache
  {
    if |tables| > 0 {
      AdminCacheIsSticky(cache, tables[1..]);
    }
  }

  /** From an empty cache, the first non-empty table read is returned by
    * every later call: later changes to the table are never seen. */
  lemma {:induction false} FirstNonEmptyReadWins(tables: seq<seq<int>>, k: nat)
    requires k < |tables| && tables[k] != []
    requires forall j :: 0 <= j < k ==> tables[j] == []
    ensures forall i :: k <= i < |tables| ==> AdminReads([], tables)[i] == tables[k]
  {
    if k == 0 {
      AdminCacheIsSticky(tables[0], tables[1..]);
    } else {
      FirstNonEmptyReadWins(tables[1..], k - 1);
    }
  }

  predicate BoundTo(t: Ticket, chatId: int, threadId: int)
  {
    t.groupChatId == Some(chatId) && t.threadId == Some(threadId)
  }

  /** The first ticket with an id in [lo, hi) bound to (chat, thread). */
  function FirstBound(tickets: map<nat, Ticket>, chatId: int, threadId: int, lo: nat, hi: nat): Option<Ticket>
    decreases hi - lo
  {
    if lo >= hi then None
    else if lo in tickets && BoundTo(tickets[lo], chatId, threadId) then Some(tickets[lo])
    else FirstBound(tickets, chatId, threadId, lo + 1, hi)
  }

  /** The thread lookup finds a ticket bound to the thread, with no bound
    * ticket before it, and finds nothing exactly when no ticket in range
    * is bound there. */
  lemma {:induction false} FirstBoundIsLowestBound(tickets: map<nat, Ticket>, chatId: int, threadId: int, lo: nat, hi: nat)
    requires forall id :: id in tickets ==> tickets[id].id == id
    ensures var r := FirstBound(tickets, chatId, threadId, lo, hi);
      && (r.Some? ==> r.value.id in tickets && tickets[r.value.id] == r.value && lo <= r.value.id < hi
                      && BoundTo(r.value, chatId, threadId))
      && (r.Some? ==> forall id :: id in tickets && lo <= id < r.value.id ==> !BoundTo(tickets[id], chatId, threadId))
      && (r.None? <==> forall id :: id in tickets && lo <= id < hi ==> !BoundTo(tickets[id], chatId, threadId))
    decreases hi - lo
  {
    if lo < hi {
      FirstBoundIsLowestBound(tickets, chatId, threadId, lo + 1, hi);
    }
  }

  class Store {
    var users: map<int, User>      // keyed by telegram_id (unique)
    var tickets: map<nat, Ticket>
    var attachments: seq<Attachment>
    var nextId: nat
    var adminTable: seq<int>       // the admins table's telegram ids
    var adminCache: seq<int>       // _admin_cache
    var readings: seq<MeterReading> // meter_readings, in insertion order
    var nextReadingId: nat          // the id the next meter_readings row gets

    /** Row ids match their keys, and foreign keys hold (PRAGMA foreign_keys=ON). */
    predicate Valid()
      reads this
    {
      nextId >= 1
      && (forall id :: id in tickets ==> tickets[id].id == id && 1 <= id < nextId
                                         && tickets[id].ownerTg in users)
      && (forall i :: 0 <= i < |attachments| ==> attachments[i].ticketId in tickets)
      && nextReadingId >= 1
      && (forall x :: x in readings ==> 1 <= x.id < nextReadingId)
    }

    constructor(admins: seq<int>)
      ensures Valid()
      ensures users == map[] && tickets == map[] && attachments == []
      ensures adminTable == admins && adminCache == [] && readings == []
    {
      users, tickets, attachments, nextId := map[], map[], [], 1;
      adminTable, adminCache := admins, [];
      readings, nextReadingId := [], 1;
    }

    /** The author id a status change reports: the owner's telegram_id, or 0 without a user row. */
    function AuthorOf(t: Ticket): int
      reads this
    {
      if t.ownerTg in users then t.ownerTg else 0
    }

    /** get_or_create_user: an existing row only picks up a new non-empty
      * username; otherwise a row is created with empty profile fields. */
    method GetOrCreateUser(tg: int, username: string, name: string, status: string) returns (u: User)
      requires Valid()
      modifies this`users
      ensures Valid()
      ensures tg in old(users) ==> u == (if username != "" then old(users)[tg].(username := username) else old(users)[tg])
      ensures tg !in old(users) ==> u == User(status, username, name, None, None, None, None)
      ensures users == old(users)[tg := u]
    {
      if tg in users {
        u := users[tg];
        if username != "" && u.username != username {
          u := u.(username := username);
        }
      } else {
        u := User(status, username, name, None, None, None, None);
      }
      users := users[tg := u];
    }

    /** update_user_profile: ValueError for an unknown user; otherwise the
      * row is updated field by field as ApplyProfile says. */
    method UpdateUserProfile(tg: int, status: Option<string>, name: Option<string>, phone: Option<string>,
                             street: Option<string>, house: Option<string>, apartment: Option<string>)
      returns (r: Result<User, string>)
      requires Valid()
      modifies this`users
      ensures Valid()
      ensures tg !in old(users) <==> r.Err?
      ensures tg !in old(users) ==> users == old(users)
      ensures tg in old(users) ==>
        r == Ok(ApplyProfile(old(users)[tg], status, name, phone, street, house, apartment))
        && users == old(users)[tg := r.value]
    {
      if tg !in users {
        return Err("User not found");
      }
      var u := ApplyProfile(users[tg], status, name, phone, street, house, apartment);
      users := users[tg := u];
      r := Ok(u);
    }

    /** create_ticket: ValueError("User not found") without a user row;
      * otherwise a new OPEN ticket with the stripped text and no topic. */
    method CreateTicket(tg: int, text: string, now: Calendar.DateTime) returns (r: Result<Ticket, string>)
      requires Valid()
      modifies this`tickets, this`nextId
      ensures Valid()
      ensures r.Err? <==> tg !in users
      ensures r.Err? ==> tickets == old(tickets) && nextId == old(nextId)
      ensures r.Ok? ==> r.value == NewTicket(old(nextId), tg, Strip(text), now)
                        && old(nextId) !in old(tickets)
                        && tickets == old(tickets)[old(nextId) := r.value]
                        && nextId == old(nextId) + 1
    {
      if tg !in users {
        return Err("User not found");
      }
      var t := NewTicket(nextId, tg, Strip(text), now);
      tickets := tickets[nextId := t];
      nextId := nextId + 1;
      r := Ok(t);
    }

    /** cancel_ticket: succeeds only for the caller's own OPEN or WORK ticket,
      * which becomes CANCELLED; otherwise nothing changes. */
    method CancelTicket(tg: int, id: nat) returns (ok: bool)
      requires Valid()
      modifies this`tickets
      ensures Valid()
      ensures ok <==> tg in users && id in old(tickets) && old(tickets)[id].ownerTg == tg
                      && old(tickets)[id].status in {Open, Work}
      ensures ok ==> tickets == old(tickets)[id := old(tickets)[id].(status := Cancelled)]
      ensures !ok ==> tickets == old(tickets)
    {
      ok := tg in users && id in tickets && tickets[id].ownerTg == tg && tickets[id].status in {Open, Work};
      if ok {
        tickets := tickets[id := tickets[id].(status := Cancelled)];
      }
    }

    /** set_ticket_status (and update_ticket_status): None for an unknown id;
      * otherwise the new status is written whatever the old one was. */
    method SetTicketStatus(id: nat, newStatus: TicketStatus) returns (r: Option<StatusChange>)
      requires Valid()
      modifies this`tickets
      ensures Valid()
      ensures r.None? <==> id !in old(tickets)
      ensures r.None? ==> tickets == old(tickets)
      ensures r.Some? ==> r.value == StatusChange(old(tickets)[id].status, newStatus, AuthorOf(old(tickets)[id]))
                          && tickets == old(tickets)[id := old(tickets)[id].(status := newStatus)]
    {
      if id !in tickets {
        return None;
      }
      var t := tickets[id];
      tickets := tickets[id := t.(status := newStatus)];
      r := Some(StatusChange(t.status, newStatus, AuthorOf(t)));
    }

    /** set_ticket_thread: nothing for a missing ticket; otherwise both
      * binding fields are overwritten, bound before or not. */
    method SetTicketThread(id: nat, groupChatId: int, threadId: int)
      requires Valid()
      modifies this`tickets
      ensures Valid()
      ensures id !in old(tickets) ==> tickets == old(tickets)
      ensures id in old(tickets) ==>
        tickets == old(tickets)[id := old(tickets)[id].(groupChatId := Some(groupChatId), threadId := Some(threadId))]
    {
      if id in tickets {
        tickets := tickets[id := tickets[id].(groupChatId := Some(groupChatId), threadId := Some(threadId))];
      }
    }

    /** add_ticket_attachment: the row is appended. The model keeps every
      * attachment tied to a stored ticket, so it refuses a missing one; the
      * only caller passes the ticket it has just created. */
    method AddTicketAttachment(a: Attachment) returns (ok: bool)
      requires Valid()
      modifies this`attachments
      ensures Valid()
      ensures ok <==> a.ticketId in tickets
      ensures attachments == if ok then old(attachments) + [a] else old(attachments)
    {
      ok := a.ticketId in tickets;
      if ok {
        attachments := attachments + [a];
      }
    }

    /** get_ticket_thread_info: the binding when both fields are set. */
    function TicketThreadInfo(id: nat): (r: Option<(int, int)>)
      reads this
      ensures r.Some? <==> id in tickets && tickets[id].groupChatId.Some? && tickets[id].threadId.Some?
      ensures r.Some? ==> r.value == (tickets[id].groupChatId.value, tickets[id].threadId.value)
    {
      if id !in tickets then None
      else
        var t := tickets[id];
        if t.groupChatId.None? || t.threadId.None? then None
        else Some((t.groupChatId.value, t.threadId.value))
    }

    /** get_ticket_by_thread: the first ticket bound to (chat, thread) in
      * id order, None when no ticket is bound there. */
    method GetTicketByThread(chatId: int, threadId: int) returns (r: Option<Ticket>)
      requires Valid()
      ensures r == FirstBound(tickets, chatId, threadId, 1, nextId)
    {
      var i: nat := 1;
      while i < nextId
        invariant 1 <= i <= nextId
        invariant FirstBound(tickets, chatId, threadId, 1, nextId) == FirstBound(tickets, chatId, threadId, i, nextId)
      {
        if i in tickets && BoundTo(tickets[i], chatId, threadId) {
          return Some(tickets[i]);
        }
        i := i + 1;
      }
      return None;
    }

    /** All stored tickets matching `f`, newest first. */
    method CollectMatching(f: TicketFilter) returns (all: seq<Ticket>)
      requires Valid()
      ensures all == Between(tickets, f, 0, nextId)
    {
      all := [];
      var i := nextId;
      while i > 0
        invariant 0 <= i <= nextId
        invariant all == Between(tickets, f, i, nextId)
      {
        i := i - 1;
        if i in tickets && Matches(tickets[i], f) {
          all := all + [tickets[i]];
        }
      }
    }

    /** list_tickets: one page of the tickets with `status`, newest first. */
    method ListTickets(status: TicketStatus, page: int, perPage: nat) returns (r: seq<Ticket>)
      requires Valid()
      ensures r == Window(Between(tickets, WithStatus(status), 0, nextId), Offset(page, perPage), perPage)
    {
      var all := CollectMatching(WithStatus(status));
      r := Window(all, Offset(page, perPage), perPage);
    }

    /** list_user_tickets: [] for an unknown user; otherwise one page of the
      * user's tickets with `status`, newest first. */
    method ListUserTickets(tg: int, status: TicketStatus, page: int, perPage: nat) returns (r: seq<Ticket>)
      requires Valid()
      ensures tg !in users ==> r == []
      ensures tg in users ==>
        r == Window(Between(tickets, OwnedWithStatus(tg, status), 0, nextId), Offset(page, perPage), perPage)
    {
      if tg !in users {
        return [];
      }
      var all := CollectMatching(OwnedWithStatus(tg, status));
      r := Window(all, Offset(page, perPage), perPage);
    }

    /** get_active_ticket: the user's newest ticket that is not CANCELLED;
      * None for an unknown user or when there is none. */
    method GetActiveTicket(tg: int) returns (r: Option<Ticket>)
      requires Valid()
      ensures tg !in users ==> r.None?
      ensures tg in users ==>
        var s := Between(tickets, OwnedOpenOrWork(tg), 0, nextId);
        r == if |s| == 0 then None else Some(s[0])
    {
      if tg !in users {
        return None;
      }
      var all := CollectMatching(OwnedOpenOrWork(tg));
      r := if |all| == 0 then None else Some(all[0]);
    }

    /** count_user_tickets_grouped: counts per status of the user's tickets,
      * active = OPEN + WORK, total = all three; all zero for an unknown user. */
    method CountUserTicketsGrouped(tg: int) returns (c: GroupedCounts)
      requires Valid()
      ensures tg !in users ==> c == GroupedCounts(0, 0, 0, 0, 0)
      ensures tg in users ==>
        && c.open == |Between(tickets, OwnedWithStatus(tg, Open), 0, nextId)|
        && c.work == |Between(tickets, OwnedWithStatus(tg, Work), 0, nextId)|
        && c.cancelled == |Between(tickets, OwnedWithStatus(tg, Cancelled), 0, nextId)|
        && c.active == c.open + c.work
        && c.total == c.open + c.work + c.cancelled
    {
      if tg !in users {
        return GroupedCounts(0, 0, 0, 0, 0);
      }
      var open, work, cancelled := 0, 0, 0;
      var i := nextId;
      while i > 0
        invariant 0 <= i <= nextId
        invariant open == |Between(tickets, OwnedWithStatus(tg, Open), i, nextId)|
        invariant work == |Between(tickets, OwnedWithStatus(tg, Work), i, nextId)|
        invariant cancelled == |Between(tickets, OwnedWithStatus(tg, Cancelled), i, nextId)|
      {
        i := i - 1;
        if i in tickets && tickets[i].ownerTg == tg {
          match tickets[i].status
          case Open => open := open + 1;
          case Work => work := work + 1;
          case Cancelled => cancelled := cancelled + 1;
        }
      }
      c := GroupedCounts(open, work, cancelled, open + work, open + work + cancelled);
    }

    /** list_admin_ids with its module-level cache. */
    method ListAdminIds() returns (r: seq<int>)
      modifies this`adminCache
      ensures (r, adminCache) == CachedAdminRead(old(adminCache), adminTable)
    {
      if adminCache != [] {
        return adminCache;
      }
      adminCache := adminTable;
      r := adminCache;
    }

    /** Deleting a users row: ON DELETE CASCADE removes the user's tickets,
      * and their attachments go with them; every foreign key still holds. */
    method DeleteUser(tg: int)
      requires Valid()
      modifies this`users, this`tickets, this`attachments, this`readings
      ensures Valid()
      ensures users == old(users) - {tg}
      ensures tickets == map id | id in old(tickets) && old(tickets)[id].ownerTg != tg :: old(tickets)[id]
      ensures attachments == AttachmentsOf(old(attachments), tickets)
      ensures readings == ReadingsNotOwnedBy(old(readings), tg)
    {
      users := users - {tg};
      tickets := map id | id in tickets && tickets[id].ownerTg != tg :: tickets[id];
      attachments := AttachmentsOf(attachments, tickets);
      readings := ReadingsNotOwnedBy(readings, tg);
    }

    /** save_meter_reading: always a new row under an id no stored row has,
      * never an overwrite; False (and no row) when the telegram id has no
      * user row. */
    method SaveMeterReading(tg: int, meterType: string, value: string, readingDate: Calendar.Date,
                            meterNumber: int, createdAt: Calendar.DateTime) returns (ok: bool)
      requires Valid()
      modifies this`readings, this`nextReadingId
      ensures Valid()
      ensures ok <==> tg in users
      ensures ok ==> && readings == old(readings) + [MeterReading(old(nextReadingId), tg, meterType, Some(meterNumber),
                                                                  value, readingDate, createdAt)]
                     && nextReadingId == old(nextReadingId) + 1
                     && (forall x :: x in old(readings) ==> x.id != old(nextReadingId))
      ensures !ok ==> readings == old(readings) && nextReadingId == old(nextReadingId)
    {
      ok := tg in users;
      if ok {
        readings := readings + [MeterReading(nextReadingId, tg, meterType, Some(meterNumber), value, readingDate, createdAt)];
        nextReadingId := nextReadingId + 1;
      }
    }
  }

  /** A user's tickets split over the three statuses: the grouped total
    * counts every ticket the user owns. */
  lemma {:induction false} GroupedTotalCountsAllOwned(tickets: map<nat, Ticket>, tg: int, lo: nat, hi: nat)
    ensures |Between(tickets, OwnedWithStatus(tg, Open), lo, hi)|
          + |Between(tickets, OwnedWithStatus(tg, Work), lo, hi)|
          + |Between(tickets, OwnedWithStatus(tg, Cancelled), lo, hi)|
          == |set id | id in tickets && tickets[id].ownerTg == tg && lo <= id < hi|
    decreases hi - lo
  {
    if lo < hi {
      GroupedTotalCountsAllOwned(tickets, tg, lo + 1, hi);
      var below := set id | id in tickets && tickets[id].ownerTg == tg && lo + 1 <= id < hi;
      var all := set id | id in tickets && tickets[id].ownerTg == tg && lo <= id < hi;
      if lo in tickets && tickets[lo].ownerTg == tg {
        assert all == below + {lo};
      } else {
        assert all == below;
      }
    } else {
      var all := set id | id in tickets && tickets[id].ownerTg == tg && lo <= id < hi;
      assert all == {};
    }
  }

  /** A user's active ticket is never CANCELLED, belongs to the user, and is
    * newer than every other non-cancelled ticket of theirs. */
  lemma ActiveTicketIsNewestOpenOrWork(tickets: map<nat, Ticket>, tg: int, hi: nat)
    requires forall id :: id in tickets ==> tickets[id].id == id
    requires |Between(tickets, OwnedOpenOrWork(tg), 0, hi)| > 0
    ensures var t := Between(tickets, OwnedOpenOrWork(tg), 0, hi)[0];
      && t.ownerTg == tg && t.status in {Open, Work} && t.id in tickets
      && (forall id :: id in tickets && id < hi && tickets[id].ownerTg == tg && tickets[id].status != Cancelled ==>
            id <= t.id)
  {
    var s := Between(tickets, OwnedOpenOrWork(tg), 0, hi);
    BetweenShape(tickets, OwnedOpenOrWork(tg), 0, hi);
    forall id | id in tickets && id < hi && tickets[id].ownerTg == tg && tickets[id].status != Cancelled
      ensures id <= s[0].id
    {
      BetweenComplete(tickets, OwnedOpenOrWork(tg), 0, hi, id);
      var k :| 0 <= k < |s| && s[k] == tickets[id];
    }
  }
}
