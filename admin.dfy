/** The ticket admin: its list scope, the add/change/delete permissions, the
    fieldsets shown on creation, the status choices offered to attendant-profile
    users, and the save-time guard against attendants resolving tickets. */
module Admin {
  import opened Wrappers
  import opened AuthModels
  import opened CoreModels
  import opened Store
  import Views

  // ---------------------------------------------------------------- scope

  /** Whether the admin list shows ticket `t` to user `u`: superusers see every
      ticket, everyone else, technicians included, only their own. */
  predicate AdminSees(u: User, t: Ticket)
  {
    u.isSuperuser || t.attendant == u.id
  }

  /** `TicketAdmin.get_queryset` */
  function AdminQueryset(u: User, tickets: map<TicketId, Ticket>): (qs: map<TicketId, Ticket>)
    ensures forall id :: id in qs <==> id in tickets && AdminSees(u, tickets[id])
    ensures forall id :: id in qs ==> qs[id] == tickets[id]
  {
    map id | id in tickets && AdminSees(u, tickets[id]) :: tickets[id]
  }

  /** The admin never lists more than the API does, lists the same for everyone but
      non-superuser technicians, and for them lists exactly their own tickets. */
  lemma AdminScopeWithinApiScope(u: User, tickets: map<TicketId, Ticket>)
    ensures AdminQueryset(u, tickets).Keys <= Views.ApiQueryset(u, tickets).Keys
    ensures u.isSuperuser || u.profile == Attendant ==> AdminQueryset(u, tickets) == Views.ApiQueryset(u, tickets)
    ensures !u.isSuperuser ==> forall id :: id in AdminQueryset(u, tickets) <==> id in tickets && tickets[id].attendant == u.id
  {
  }

  /** The two scopes differ: a technician sees another attendant's ticket through the
      API but not in the admin. */
  lemma ScopesDifferForTechnicians(tech: User, t: Ticket)
    requires tech.profile == Technician && !tech.isSuperuser && t.attendant != tech.id
    ensures var tickets := map[t.id := t];
      t.id in Views.ApiQueryset(tech, tickets) && t.id !in AdminQueryset(tech, tickets)
  {
  }

  // ---------------------------------------------------------- permissions

  /** `has_add_permission`: any authenticated user, active or not. */
  predicate HasAddPermission(r: Requester)
    ensures HasAddPermission(r) <==> r.Authenticated?
    ensures r.Authenticated? && !r.user.isActive && !r.user.isSuperuser ==> HasAddPermission(r)
  {
    r.Authenticated?
  }

  /** `has_change_permission`: superusers always; with no object, anyone; otherwise
      only the ticket's attendant. */
  function HasChangePermission(u: User, obj: Option<Ticket>): (ok: bool)
    ensures ok <==> u.isSuperuser || obj.None? || obj.value.attendant == u.id
    ensures obj.Some? ==> (ok <==> AdminSees(u, obj.value))
  {
    if u.isSuperuser then true
    else if obj.None? then true
    else obj.value.attendant == u.id
  }

  /** `has_delete_permission`: superusers always; with no object, nobody else; otherwise
      the ticket's attendant. */
  function HasDeletePermission(u: User, obj: Option<Ticket>): (ok: bool)
    ensures ok <==> u.isSuperuser || (obj.Some? && obj.value.attendant == u.id)
    ensures obj.Some? ==> (ok <==> HasChangePermission(u, obj))
  {
    if u.isSuperuser then true
    else if obj.None? then false
    else obj.value.attendant == u.id
  }

  // ------------------------------------------------------------ fieldsets

  /** A fieldset: its title, its field names and its CSS classes. */
  datatype Fieldset = Fieldset(name: string, fields: seq<string>, classes: seq<string>)

  const BasicSection: string := "Informa\U{e7}\U{f5}es B\U{e1}sicas"
  const SystemSection: string := "Informa\U{e7}\U{f5}es do Sistema"

  /** `TicketAdmin.fieldsets` */
  const DeclaredFieldsets: seq<Fieldset> := [
    Fieldset(BasicSection, ["title", "priority", "status", "description"], []),
    Fieldset(SystemSection, ["attendant", "created_at", "updated_at"], ["collapse"])]

  /** Position `i` holds the first occurrence of `x` in `xs`. */
  predicate IsFirstOccurrence(xs: seq<string>, x: string, i: int)
  {
    0 <= i < |xs| && xs[i] == x && forall k :: 0 <= k < i ==> xs[k] != x
  }

  /** The position of the first occurrence of `x`, found by scanning from the left. */
  function FirstIndex(xs: seq<string>, x: string): (i: nat)
    requires x in xs
    ensures IsFirstOccurrence(xs, x, i)
  {
    if xs[0] == x then 0 else FirstIndex(xs[1..], x) + 1
  }

  /** `list.remove`: drops the first occurrence of `x` and keeps the rest in order. */
  function RemoveFirst(xs: seq<string>, x: string): (r: seq<string>)
    requires x in xs
    ensures exists i :: IsFirstOccurrence(xs, x, i) && r == xs[..i] + xs[i + 1..]
    ensures |r| == |xs| - 1 && multiset(r) == multiset(xs) - multiset{x}
  {
    var i := FirstIndex(xs, x);
    assert xs == xs[..i] + [x] + xs[i + 1..];
    xs[..i] + xs[i + 1..]
  }

  /** `TicketAdmin.get_fieldsets`: on creation (no object) `attendant` is taken out of
      the basic fields and the system section shows only the timestamps. */
  function GetFieldsets(obj: Option<Ticket>): (fs: seq<Fieldset>)
    ensures obj.Some? ==> fs == DeclaredFieldsets
    ensures obj.None? ==> |fs| == 2 && forall k :: 0 <= k < 2 ==> "attendant" !in fs[k].fields
  {
    if obj.Some? then DeclaredFieldsets
    else
      var basic := DeclaredFieldsets[0].fields;
      var basic' := if "attendant" in basic then RemoveFirst(basic, "attendant") else basic;
      [Fieldset(BasicSection, basic', []),
       Fieldset(SystemSection, ["created_at", "updated_at"], ["collapse"])]
  }

  /** On creation the basic fields are exactly title, priority, status, description and
      the system section exactly created_at, updated_at. */
  lemma CreationFieldsets()
    ensures GetFieldsets(None) == [
      Fieldset(BasicSection, ["title", "priority", "status", "description"], []),
      Fieldset(SystemSection, ["created_at", "updated_at"], ["collapse"])]
  {
  }

  // ------------------------------------------------------- status choices

  /** The list comprehension of `get_form`: every choice whose value is not `resolved`,
      in the original order. */
  function WithoutResolved(cs: seq<Choice>): (r: seq<Choice>)
    ensures forall c :: c in r <==> c in cs && c.value != StatusValue(Resolved)
    ensures |r| <= |cs|
  {
    if cs == [] then []
    else if cs[0].value == StatusValue(Resolved) then WithoutResolved(cs[1..])
    else [cs[0]] + WithoutResolved(cs[1..])
  }

  /** Filtering distributes over concatenation, so the order of the kept choices is the
      original order. */
  lemma {:induction false} WithoutResolvedAppend(a: seq<Choice>, b: seq<Choice>)
    ensures WithoutResolved(a + b) == WithoutResolved(a) + WithoutResolved(b)
    decreases |a|
  {
    if a == [] {
      assert a + b == b;
    } else {
      assert (a + b)[0] == a[0] && (a + b)[1..] == a[1..] + b;
      WithoutResolvedAppend(a[1..], b);
      if a[0].value != StatusValue(Resolved) {
        assert WithoutResolved(a + b) == [a[0]] + (WithoutResolved(a[1..]) + WithoutResolved(b));
      }
    }
  }

  /** The status choices `get_form` leaves on the form: for an attendant-profile user
      editing an existing ticket, all but `resolved`; otherwise all of them. */
  function FormStatusChoices(u: User, obj: Option<Ticket>, choices: seq<Choice>): (r: seq<Choice>)
    ensures obj.Some? && u.profile == Attendant ==> r == WithoutResolved(choices)
    ensures obj.None? || u.profile != Attendant ==> r == choices
  {
    if obj.Some? && u.profile == Attendant then WithoutResolved(choices) else choices
  }

  /** Applied to the model's choices, the restriction leaves open, in progress and
      canceled, in that order. */
  lemma RestrictedStatusChoices(u: User, t: Ticket)
    requires u.profile == Attendant
    ensures FormStatusChoices(u, Some(t), StatusChoices()) ==
      [Choice("open", "Aberto"), Choice("in_progress", "Em Atendimento"), Choice("canceled", "Cancelado")]
  {
  }

  /** The `status` form field, whose choices `get_form` overwrites. */
  class StatusField {
    var choices: seq<Choice>

    constructor (choices: seq<Choice>)
      ensures this.choices == choices
    {
      this.choices := choices;
    }
  }

  /** The form class `get_form` receives from the framework; it may lack a `status` field. */
  class TicketForm {
    var statusField: StatusField?

    constructor (statusField: StatusField?)
      ensures this.statusField == statusField
    {
      this.statusField := statusField;
    }
  }

  /** `TicketAdmin.get_form`, acting on the form the framework built. */
  method GetForm(u: User, obj: Option<Ticket>, form: TicketForm)
    modifies form.statusField
    ensures form.statusField == old(form.statusField)
    ensures form.statusField != null ==>
      form.statusField.choices == FormStatusChoices(u, obj, old(form.statusField.choices))
  {
    if obj.Some? && u.profile == Attendant {
      var field := form.statusField;
      if field != null {
        field.choices := WithoutResolved(field.choices);
      }
    }
  }

  // ----------------------------------------------------------- save_model

  datatype SaveOutcome =
    | Saved(id: TicketId)
    | RejectedResolve   // the error message for attendants; nothing is written

  /** The save-time guard: an attendant-profile user may not move a ticket into
      `resolved` unless its stored status is already `resolved`. */
  predicate AttendantResolveBlocked(u: User, obj: Ticket, persisted: Ticket)
  {
    u.profile == Attendant && obj.status == Resolved && persisted.status != Resolved
  }

  /** What `save_model` does with the form's object `obj`. */
  function SaveModelResult(db: Db, u: User, obj: Ticket, change: bool): (r: (SaveOutcome, Db))
    requires ValidDb(db) && WellFormed(obj)
    requires change ==> obj.id in db.tickets
    ensures ValidDb(r.1)
    ensures !change ==>
      && r.0 == Saved(db.nextId) && db.nextId !in db.tickets
      && r.1.tickets == db.tickets[db.nextId := obj.(id := db.nextId, attendant := u.id,
                                                     createdAt := r.1.clock, updatedAt := r.1.clock)]
    ensures change ==> (r.0 == RejectedResolve <==> AttendantResolveBlocked(u, obj, db.tickets[obj.id]))
    ensures r.0 == RejectedResolve ==> r.1 == db
    ensures change && r.0.Saved? ==> r.0.id == obj.id && r.1 == SaveRow(db, obj)
  {
    if !change then
      var (id, db') := InsertRow(db, obj.(attendant := u.id));
      (Saved(id), db')
    else if AttendantResolveBlocked(u, obj, db.tickets[obj.id]) then
      (RejectedResolve, db)
    else
      (Saved(obj.id), SaveRow(db, obj))
  }

  /** `TicketAdmin.save_model` */
  method SaveModel(store: TicketStore, u: User, obj: Ticket, change: bool) returns (outcome: SaveOutcome)
    requires store.Valid() && WellFormed(obj)
    requires change ==> obj.id in store.tickets
    modifies store
    ensures store.Valid()
    ensures (outcome, store.State()) == SaveModelResult(old(store.State()), u, obj, change)
  {
    var o := obj;
    if !change {
      o := o.(attendant := u.id);
    } else {
      if u.profile == Attendant {
        if o.status == Resolved {
          var original := store.tickets[o.id];
          if original.status != Resolved {
            return RejectedResolve;
          }
        }
      }
    }
    if !change {
      var id := store.Insert(o);
      outcome := Saved(id);
    } else {
      var _ := store.Save(o);
      outcome := Saved(o.id);
    }
  }

  /** `create_superuser` leaves the profile at `attendant`, so a default superuser is
      offered no `resolved` choice and is refused a move into `resolved` like any attendant. */
  lemma DefaultSuperuserIsRestricted(id: UserId, db: Db, obj: Ticket)
    requires ValidDb(db) && WellFormed(obj) && obj.id in db.tickets
    requires obj.status == Resolved && db.tickets[obj.id].status != Resolved
    ensures var su := CreateSuperuser(id, NoExtraFields);
      su.isSuperuser &&
      Choice("resolved", "Resolvido") !in FormStatusChoices(su, Some(obj), StatusChoices()) &&
      SaveModelResult(db, su, obj, true) == (RejectedResolve, db)
  {
  }

  /** The admin does not go through the transition table: a technician can save an open
      ticket straight as resolved, a move the API rejects. */
  lemma AdminEditBypassesWorkflow(db: Db, tech: User, obj: Ticket)
    requires ValidDb(db) && WellFormed(obj) && obj.id in db.tickets
    requires tech.profile == Technician && db.tickets[obj.id].status == Open && obj.status == Resolved
    ensures SaveModelResult(db, tech, obj, true).0 == Saved(obj.id)
    ensures SaveModelResult(db, tech, obj, true).1.tickets[obj.id].status == Resolved
    ensures !Views.IsValidStatusTransition(Open, Resolved)
  {
  }
}
