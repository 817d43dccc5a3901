/** The ticket entity of the core app: the priority and status choices, the
    ticket record with its defaults, and the title-length constraint. */
module CoreModels {
  import opened Wrappers
  import opened AuthModels

  /** `Priority` choices, in declaration order. */
  datatype Priority = Low | Medium | High | Critical

  /** `TicketStatus` choices, in declaration order. */
  datatype Status = Open | InProgress | Resolved | Canceled

  type TicketId = nat

  /** A `(value, label)` pair of a choices list. */
  datatype Choice = Choice(value: string, display: string)

  const AllPriorities: seq<Priority> := [Low, Medium, High, Critical]
  const AllStatuses: seq<Status> := [Open, InProgress, Resolved, Canceled]

  const DefaultPriority: Priority := Medium
  const DefaultStatus: Status := Open

  /** `max_length` of `title`. */
  const MaxTitleLength: nat := 255

  function PriorityValue(p: Priority): string
  {
    match p
    case Low => "low"
    case Medium => "medium"
    case High => "high"
    case Critical => "critical"
  }

  function PriorityLabel(p: Priority): string
  {
    match p
    case Low => "Baixa"
    case Medium => "M\U{e9}dia"
    case High => "Alta"
    case Critical => "Cr\U{ed}tica"
  }

  function StatusValue(s: Status): string
  {
    match s
    case Open => "open"
    case InProgress => "in_progress"
    case Resolved => "resolved"
    case Canceled => "canceled"
  }

  function StatusLabel(s: Status): string
  {
    match s
    case Open => "Aberto"
    case InProgress => "Em Atendimento"
    case Resolved => "Resolvido"
    case Canceled => "Cancelado"
  }

  /** `TicketStatus.choices` */
  function StatusChoices(): (cs: seq<Choice>)
    ensures |cs| == |AllStatuses|
    ensures forall i :: 0 <= i < |cs| ==> cs[i] == Choice(StatusValue(AllStatuses[i]), StatusLabel(AllStatuses[i]))
  {
    [Choice("open", "Aberto"), Choice("in_progress", "Em Atendimento"),
     Choice("resolved", "Resolvido"), Choice("canceled", "Cancelado")]
  }

  /** `Priority.choices` */
  function PriorityChoices(): (cs: seq<Choice>)
    ensures |cs| == |AllPriorities|
    ensures forall i :: 0 <= i < |cs| ==> cs[i] == Choice(PriorityValue(AllPriorities[i]), PriorityLabel(AllPriorities[i]))
  {
    [Choice("low", "Baixa"), Choice("medium", "M\U{e9}dia"),
     Choice("high", "Alta"), Choice("critical", "Cr\U{ed}tica")]
  }

  /** Validation of a raw value against the status choices, as a choice field does it. */
  function ParseStatus(v: string): (r: Option<Status>)
    ensures r.Some? ==> StatusValue(r.value) == v
    ensures r.None? ==> forall s: Status :: StatusValue(s) != v
  {
    if v == "open" then Some(Open)
    else if v == "in_progress" then Some(InProgress)
    else if v == "resolved" then Some(Resolved)
    else if v == "canceled" then Some(Canceled)
    else None
  }

  function ParsePriority(v: string): (r: Option<Priority>)
    ensures r.Some? ==> PriorityValue(r.value) == v
    ensures r.None? ==> forall p: Priority :: PriorityValue(p) != v
  {
    if v == "low" then Some(Low)
    else if v == "medium" then Some(Medium)
    else if v == "high" then Some(High)
    else if v == "critical" then Some(Critical)
    else None
  }

  /** Each enumeration lists every member exactly once, and its stored values
      decode back to the member they came from. */
  lemma ChoicesRoundTrip(s: Status, p: Priority)
    ensures s in AllStatuses && p in AllPriorities
    ensures ParseStatus(StatusValue(s)) == Some(s)
    ensures ParsePriority(PriorityValue(p)) == Some(p)
    ensures forall i, j :: 0 <= i < j < |AllStatuses| ==> AllStatuses[i] != AllStatuses[j]
    ensures forall i, j :: 0 <= i < j < |AllPriorities| ==> AllPriorities[i] != AllPriorities[j]
  {
  }

  /** A stored ticket. `createdAt`/`updatedAt` are readings of an abstract clock. */
  datatype Ticket = Ticket(
    id: TicketId,
    title: string,
    priority: Priority,
    status: Status,
    description: Option<string>,
    attendant: UserId,
    createdAt: nat,
    updatedAt: nat)

  /** The column constraints a stored ticket satisfies. */
  predicate WellFormed(t: Ticket)
  {
    |t.title| <= MaxTitleLength
  }

  /** The keyword arguments of `Ticket.objects.create`; an absent one is `None`. */
  datatype TicketInput = TicketInput(
    title: Option<string>,
    priority: Option<Priority>,
    status: Option<Status>,
    description: Option<string>,
    attendant: Option<UserId>)

  datatype CreateError = AttendantRequired | TitleTooLong

  /** The row that `Ticket.objects.create` stores under primary key `id` at clock reading `now`,
      or the database error it raises. */
  function NewTicket(id: TicketId, input: TicketInput, now: nat): (r: Result<Ticket, CreateError>)
    ensures r.Ok? <==> input.attendant.Some? && |GetOr(input.title, "")| <= MaxTitleLength
    ensures input.attendant.None? ==> r == Err(AttendantRequired)
    ensures r.Ok? ==>
      var t := r.value;
      WellFormed(t) && t.id == id && t.attendant == input.attendant.value &&
      t.title == GetOr(input.title, "") &&
      t.priority == GetOr(input.priority, DefaultPriority) &&
      t.status == GetOr(input.status, DefaultStatus) &&
      t.description == input.description &&
      t.createdAt == now && t.updatedAt == now
  {
    var title := GetOr(input.title, "");
    if input.attendant.None? then Err(AttendantRequired)
    else if |title| > MaxTitleLength then Err(TitleTooLong)
    else Ok(Ticket(id, title, GetOr(input.priority, DefaultPriority), GetOr(input.status, DefaultStatus),
                   input.description, input.attendant.value, now, now))
  }

  /** A ticket created with only a title and an attendant is open, of medium priority,
      has no description, and a title of exactly 255 characters is accepted. */
  lemma CreationDefaults(id: TicketId, title: string, attendant: UserId, now: nat)
    requires |title| <= MaxTitleLength
    ensures var r := NewTicket(id, TicketInput(Some(title), None, None, None, Some(attendant)), now);
      r.Ok? && r.value.status == Open && r.value.priority == Medium && r.value.description == None
    ensures NewTicket(id, TicketInput(Some(seq(255, _ => 'A')), None, None, None, Some(attendant)), now).Ok?
    ensures NewTicket(id, TicketInput(Some(seq(256, _ => 'A')), None, None, None, Some(attendant)), now) == Err(TitleTooLong)
  {
  }
}
