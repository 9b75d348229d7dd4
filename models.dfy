// The persistent entities: ticket status values with their labels and
// emoji, and the rows of the users, tickets and ticket_attachments tables.
module Models {
  import opened Wrappers
  import Calendar

  /** TicketStatus, a string enum. */
  datatype TicketStatus = Open | Work | Cancelled

  /** The stored string value of each status. */
  function StatusValue(s: TicketStatus): string
  {
    match s
    case Open => "open"
    case Work => "work"
    case Cancelled => "cancelled"
  }

  /** TicketStatus(v): the status whose value is `v`; `None` where Python raises ValueError. */
  function StatusOf(v: string): Option<TicketStatus>
  {
    if v == "open" then Some(Open)
    else if v == "work" then Some(Work)
    else if v == "cancelled" then Some(Cancelled)
    else None
  }

  /** The value codec is a bijection between the three statuses and the
    * three strings "open", "work", "cancelled". */
  lemma StatusCodec(s: TicketStatus, v: string)
    ensures StatusOf(StatusValue(s)) == Some(s)
    ensures StatusOf(v) == Some(s) <==> v == StatusValue(s)
    ensures StatusOf(v).Some? <==> v in {"open", "work", "cancelled"}
  {
  }

  /** TicketStatus.label: a known value gets its Russian label, anything else is returned as is. */
  function Label(v: string): (r: string)
    ensures StatusOf(v) == Some(Open) ==> r == "Открыта"
    ensures StatusOf(v) == Some(Work) ==> r == "В работе"
    ensures StatusOf(v) == Some(Cancelled) ==> r == "Завершена"
    ensures StatusOf(v).None? ==> r == v
  {
    if v == "open" then "Открыта"
    else if v == "work" then "В работе"
    else if v == "cancelled" then "Завершена"
    else v
  }

  /** TicketStatus.emoji: a colour per known value, white for anything else. */
  function Emoji(v: string): (r: string)
    ensures StatusOf(v) == Some(Open) ==> r == "🟢"
    ensures StatusOf(v) == Some(Work) ==> r == "🟡"
    ensures StatusOf(v) == Some(Cancelled) ==> r == "🟣"
    ensures StatusOf(v).None? ==> r == "⚪"
  {
    if v == "open" then "🟢"
    else if v == "work" then "🟡"
    else if v == "cancelled" then "🟣"
    else "⚪"
  }

  /** The three labels are distinct and no label is itself a status value,
    * so a label always tells its status apart. */
  lemma LabelsDistinguishStatuses(a: TicketStatus, b: TicketStatus)
    ensures Label(StatusValue(a)) == Label(StatusValue(b)) <==> a == b
    ensures Emoji(StatusValue(a)) == Emoji(StatusValue(b)) <==> a == b
    ensures StatusOf(Label(StatusValue(a))).None?
  {
  }

  /** The declared width of tickets.text. */
  const TicketTextWidth := 500

  /** AttachmentType. */
  datatype AttachmentKind = Photo | Video | Document | Audio | Voice

  /** A users row, keyed in the store by its unique telegram_id. */
  datatype User = User(
    status: string,
    username: string,
    name: string,
    phone: Option<string>,
    street: Option<string>,
    house: Option<string>,
    apartment: Option<string>)

  /** A tickets row. `ownerTg` is the telegram_id of the owning user row. */
  datatype Ticket = Ticket(
    id: nat,
    ownerTg: int,
    text: string,
    status: TicketStatus,
    createdAt: Calendar.DateTime,
    groupChatId: Option<int>,
    threadId: Option<int>)

  /** A ticket_attachments row. */
  datatype Attachment = Attachment(
    ticketId: nat,
    kind: AttachmentKind,
    fileId: string,
    fileUniqueId: Option<string>,
    caption: Option<string>)

  /** A meter_readings row. `ownerTg` is the telegram_id of the owning user
    * row; meter_number is nullable, with 1 filled in on insert; the value is
    * kept as the text that was stored. */
  datatype MeterReading = MeterReading(
    id: nat,
    ownerTg: int,
    meterType: string,
    meterNumber: Option<int>,
    value: string,
    readingDate: Calendar.Date,
    createdAt: Calendar.DateTime)

  /** A new ticket row as the table defaults fill it: status OPEN, no topic binding. */
  function NewTicket(id: nat, ownerTg: int, text: string, createdAt: Calendar.DateTime): (t: Ticket)
    ensures t.status == Open && t.groupChatId.None? && t.threadId.None?
    ensures t.id == id && t.ownerTg == ownerTg && t.text == text && t.createdAt == createdAt
  {
    Ticket(id, ownerTg, text, Open, createdAt, None, None)
  }
}
