/** The ticket table as the views and the admin see it: rows keyed by primary
    key, the auto-increment counter, and an abstract clock that stands for the
    wall-clock readings written into `created_at` and `updated_at`. */
module Store {
  import opened Wrappers
  import opened CoreModels

  /** A snapshot of the table. */
  datatype Db = Db(tickets: map<TicketId, Ticket>, clock: nat, nextId: TicketId)

  /** Every row is stored under its own key, below the next key to hand out,
      satisfies the column constraints and was written no later than now. */
  predicate ValidDb(db: Db)
  {
    forall id :: id in db.tickets ==>
      db.tickets[id].id == id && id < db.nextId && WellFormed(db.tickets[id]) &&
      db.tickets[id].updatedAt <= db.clock
  }

  /** `save()` of an existing row: `auto_now` stamps `updated_at` with a fresh clock reading. */
  function SaveRow(db: Db, t: Ticket): (r: Db)
    requires ValidDb(db) && t.id in db.tickets && WellFormed(t)
    ensures ValidDb(r)
    ensures r.tickets == db.tickets[t.id := t.(updatedAt := r.clock)]
    ensures r.clock > db.clock && r.nextId == db.nextId
  {
    Db(db.tickets[t.id := t.(updatedAt := db.clock + 1)], db.clock + 1, db.nextId)
  }

  /** `save()` of a row without a primary key: it gets the next key, and `auto_now_add`
      and `auto_now` stamp both timestamps; no existing row is touched. */
  function InsertRow(db: Db, t: Ticket): (r: (TicketId, Db))
    requires ValidDb(db) && WellFormed(t)
    ensures ValidDb(r.1)
    ensures r.0 !in db.tickets && r.0 == db.nextId
    ensures r.1.tickets == db.tickets[r.0 := t.(id := r.0, createdAt := r.1.clock, updatedAt := r.1.clock)]
    ensures r.1.clock > db.clock && r.1.nextId > db.nextId
  {
    var id := db.nextId;
    var now := db.clock + 1;
    (id, Db(db.tickets[id := t.(id := id, createdAt := now, updatedAt := now)], now, id + 1))
  }

  /** `Ticket.objects.create(**input)`: a new row with the field defaults, or the error
      the database raises, in which case nothing is stored. */
  function CreateResult(db: Db, input: TicketInput): (r: (Result<TicketId, CreateError>, Db))
    requires ValidDb(db)
    ensures ValidDb(r.1)
    ensures r.0.Err? ==> r.1 == db
    ensures r.0.Err? <==> NewTicket(db.nextId, input, db.clock + 1).Err?
    ensures r.0.Ok? ==>
      && r.0.value !in db.tickets
      && r.1.tickets.Keys == db.tickets.Keys + {r.0.value}
      && r.1.tickets[r.0.value] == NewTicket(r.0.value, input, r.1.clock).value
      && forall id :: id in db.tickets ==> r.1.tickets[id] == db.tickets[id]
  {
    match NewTicket(db.nextId, input, db.clock + 1)
    case Err(e) => (Err(e), db)
    case Ok(t) =>
      var (id, db') := InsertRow(db, t);
      (Ok(id), db')
  }

  class TicketStore {
    var tickets: map<TicketId, Ticket>
    var clock: nat
    var nextId: TicketId

    function State(): Db
      reads this
    {
      Db(tickets, clock, nextId)
    }

    predicate Valid()
      reads this
    {
      ValidDb(State())
    }

    constructor ()
      ensures Valid() && tickets == map[] && clock == 0 && nextId == 0
    {
      tickets, clock, nextId := map[], 0, 0;
    }

    /** `save()` on a row that already exists. */
    method Save(t: Ticket) returns (saved: Ticket)
      requires Valid() && t.id in tickets && WellFormed(t)
      modifies this
      ensures Valid()
      ensures State() == SaveRow(old(State()), t)
      ensures saved == tickets[t.id] && saved == t.(updatedAt := clock)
    {
      clock := clock + 1;
      saved := t.(updatedAt := clock);
      tickets := tickets[t.id := saved];
    }

    /** `save()` on a new object: the row gets the next primary key. */
    method Insert(t: Ticket) returns (id: TicketId)
      requires Valid() && WellFormed(t)
      modifies this
      ensures Valid()
      ensures (id, State()) == InsertRow(old(State()), t)
    {
      id := nextId;
      clock := clock + 1;
      tickets := tickets[id := t.(id := id, createdAt := clock, updatedAt := clock)];
      nextId := nextId + 1;
    }

    /** `Ticket.objects.create`. */
    method Create(input: TicketInput) returns (r: Result<TicketId, CreateError>)
      requires Valid()
      modifies this
      ensures Valid()
      ensures (r, State()) == CreateResult(old(State()), input)
    {
      var t := NewTicket(nextId, input, clock + 1);
      if t.Err? {
        return Err(t.error);
      }
      var id := Insert(t.value);
      r := Ok(id);
    }
  }
}
