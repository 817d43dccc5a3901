/** The ticket API: the list scope, the search filter, and the `update_status`
    action with its role check and fixed status-transition table. */
module Views {
  import opened Wrappers
  import opened AuthModels
  import opened CoreModels
  import opened Store

  /** The error responses of the API, by kind. */
  datatype ApiError =
    | Unauthorized       // no authenticated user
    | NotFound           // the ticket is absent or outside the caller's scope
    | Forbidden          // the caller's role may not change status
    | InvalidPayload     // `status` missing or not one of the four values
    | InvalidTransition  // a well-formed status that is not a successor of the current one
    | InvalidFilter      // a query parameter the filter set's form refuses

  function HttpStatus(e: ApiError): (code: nat)
    ensures 400 <= code < 500
    ensures code == 400 <==> e == InvalidPayload || e == InvalidTransition || e == InvalidFilter
    ensures code == 401 <==> e == Unauthorized
    ensures code == 403 <==> e == Forbidden
    ensures code == 404 <==> e == NotFound
  {
    match e
    case Unauthorized => 401
    case NotFound => 404
    case Forbidden => 403
    case InvalidPayload => 400
    case InvalidTransition => 400
    case InvalidFilter => 400
  }

  // ---------------------------------------------------------------- scope

  /** Whether the API lists ticket `t` to user `u`: superusers and technicians
      see every ticket, anyone else only the tickets they are attendant of. */
  predicate ApiSees(u: User, t: Ticket)
  {
    if u.isSuperuser then true
    else if u.profile == Technician then true
    else t.attendant == u.id
  }

  /** `TicketViewSet.get_queryset` */
  function ApiQueryset(u: User, tickets: map<TicketId, Ticket>): (qs: map<TicketId, Ticket>)
    ensures forall id :: id in qs <==> id in tickets && ApiSees(u, tickets[id])
    ensures forall id :: id in qs ==> qs[id] == tickets[id]
  {
    map id | id in tickets && ApiSees(u, tickets[id]) :: tickets[id]
  }

  /** Superusers and technicians see the whole table; any other user sees exactly
      the tickets whose attendant is that user. */
  lemma ApiScopeByRole(u: User, tickets: map<TicketId, Ticket>)
    ensures u.isSuperuser || u.profile == Technician ==> ApiQueryset(u, tickets) == tickets
    ensures !u.isSuperuser && u.profile == Attendant ==>
      ApiQueryset(u, tickets) == map id | id in tickets && tickets[id].attendant == u.id :: tickets[id]
  {
  }

  /** `get_object`: the ticket with primary key `pk` looked up inside the caller's scope. */
  function GetObject(u: User, tickets: map<TicketId, Ticket>, pk: TicketId): (r: Result<Ticket, ApiError>)
    ensures r.Ok? <==> pk in tickets && ApiSees(u, tickets[pk])
    ensures r.Ok? ==> r.value == tickets[pk]
    ensures r.Err? ==> r.error == NotFound
  {
    var qs := ApiQueryset(u, tickets);
    if pk in qs then Ok(qs[pk]) else Err(NotFound)
  }

  // ---------------------------------------------------------- transitions

  /** `_can_update_status`: only attendant-profile users who are not superusers are refused. */
  predicate CanUpdateStatus(u: User)
    ensures CanUpdateStatus(u) <==> u.isSuperuser || u.profile != Attendant
  {
    u.isSuperuser || u.profile == Technician
  }

  /** The successor lists of `_is_valid_status_transition`. */
  const ValidTransitions: map<Status, seq<Status>> := map[
    Open := [InProgress, Canceled],
    InProgress := [Resolved, Canceled],
    Resolved := [InProgress],
    Canceled := [Open]]

  /** The successor list of a status; a status missing from the table has none. */
  function Successors(s: Status): seq<Status>
  {
    if s in ValidTransitions then ValidTransitions[s] else []
  }

  /** `_is_valid_status_transition`: accepted exactly on the six edges of the workflow
      graph, so never from a status to itself. */
  predicate IsValidStatusTransition(current: Status, requested: Status)
    ensures IsValidStatusTransition(current, requested) ==> current != requested
    ensures IsValidStatusTransition(current, requested) <==>
      || (current == Open && (requested == InProgress || requested == Canceled))
      || (current == InProgress && (requested == Resolved || requested == Canceled))
      || (current == Resolved && requested == InProgress)
      || (current == Canceled && requested == Open)
  {
    requested in Successors(current)
  }

  /** The request body of `update_status` is validated by a choice field over the status values. */
  function ParsePayload(payload: Option<string>): (r: Option<Status>)
    ensures r.Some? <==> payload.Some? && exists s :: StatusValue(s) == payload.value
    ensures r.Some? ==> StatusValue(r.value) == payload.value
  {
    match payload
    case None => None
    case Some(v) => ParseStatus(v)
  }

  /** What `update_status` answers for `pk` at clock reading `now`, checking in the
      source's order: authentication, scoped lookup, role, payload, transition. */
  function UpdateStatusResult(r: Requester, tickets: map<TicketId, Ticket>, pk: TicketId,
                              payload: Option<string>, now: nat): (res: Result<Ticket, ApiError>)
    ensures r.Anonymous? ==> res == Err(Unauthorized)
    ensures r.Authenticated? && !(pk in tickets && ApiSees(r.user, tickets[pk])) ==> res == Err(NotFound)
    ensures r.Authenticated? && pk in tickets && ApiSees(r.user, tickets[pk]) && !CanUpdateStatus(r.user) ==>
      res == Err(Forbidden)
    ensures res == Err(InvalidPayload) <==>
      r.Authenticated? && pk in tickets && ApiSees(r.user, tickets[pk]) && CanUpdateStatus(r.user) &&
      ParsePayload(payload).None?
    ensures res == Err(InvalidTransition) <==>
      r.Authenticated? && pk in tickets && CanUpdateStatus(r.user) && ParsePayload(payload).Some? &&
      !IsValidStatusTransition(tickets[pk].status, ParsePayload(payload).value)
    ensures res.Ok? <==>
      r.Authenticated? && pk in tickets && CanUpdateStatus(r.user) && ParsePayload(payload).Some? &&
      IsValidStatusTransition(tickets[pk].status, ParsePayload(payload).value)
    ensures res.Ok? ==> res.value == tickets[pk].(status := ParsePayload(payload).value, updatedAt := now)
  {
    match r
    case Anonymous => Err(Unauthorized)
    case Authenticated(u) =>
      match GetObject(u, tickets, pk)
      case Err(e) => Err(e)
      case Ok(t) =>
        if !CanUpdateStatus(u) then Err(Forbidden)
        else match ParsePayload(payload)
          case None => Err(InvalidPayload)
          case Some(s) =>
            if !IsValidStatusTransition(t.status, s) then Err(InvalidTransition)
            else Ok(t.(status := s, updatedAt := now))
  }

  /** One `PATCH .../update_status/` call. */
  datatype StatusRequest = StatusRequest(requester: Requester, pk: TicketId, payload: Option<string>)

  /** The response to `req` and the table afterwards: only a successful call writes,
      and it writes the one row it answers with. */
  function ApplyUpdateStatus(db: Db, req: StatusRequest): (r: (Result<Ticket, ApiError>, Db))
    requires ValidDb(db)
    ensures ValidDb(r.1)
    ensures r.0 == UpdateStatusResult(req.requester, db.tickets, req.pk, req.payload, db.clock + 1)
    ensures r.0.Err? ==> r.1 == db
    ensures r.0.Ok? ==> r.1.tickets == db.tickets[req.pk := r.0.value] && r.1.nextId == db.nextId
  {
    var res := UpdateStatusResult(req.requester, db.tickets, req.pk, req.payload, db.clock + 1);
    match res
    case Err(_) => (res, db)
    case Ok(t) => (res, SaveRow(db, t))
  }

  /** `TicketViewSet.update_status` */
  method UpdateStatus(store: TicketStore, r: Requester, pk: TicketId, payload: Option<string>)
    returns (resp: Result<Ticket, ApiError>)
    requires store.Valid()
    modifies store
    ensures store.Valid()
    ensures (resp, store.State()) == ApplyUpdateStatus(old(store.State()), StatusRequest(r, pk, payload))
  {
    if r.Anonymous? {
      return Err(Unauthorized);
    }
    var user := r.user;
    var found := GetObject(user, store.tickets, pk);
    if found.Err? {
      return Err(found.error);
    }
    var ticket := found.value;
    if !CanUpdateStatus(user) {
      return Err(Forbidden);
    }
    var newStatus := ParsePayload(payload);
    if newStatus.None? {
      return Err(InvalidPayload);
    }
    if !IsValidStatusTransition(ticket.status, newStatus.value) {
      return Err(InvalidTransition);
    }
    ticket := ticket.(status := newStatus.value);
    var saved := store.Save(ticket);
    resp := Ok(saved);
  }

  // --------------------------------------------------- the workflow graph

  /** A sequence of statuses each of which is a legal successor of the one before. */
  predicate IsRun(path: seq<Status>)
  {
    forall i :: 0 <= i < |path| - 1 ==> IsValidStatusTransition(path[i], path[i + 1])
  }

  /** No status is terminal: each has a legal successor. */
  lemma NoTerminalStatus(s: Status)
    ensures exists n :: IsValidStatusTransition(s, n)
  {
    var n := Successors(s)[0];
    assert IsValidStatusTransition(s, n);
  }

  /** The workflow is one cycle-connected graph: every status reaches every status
      (itself included) by a run of at most four transitions. */
  lemma EveryStatusReachable(from: Status, to: Status)
    ensures exists path :: 2 <= |path| <= 5 && path[0] == from && path[|path| - 1] == to && IsRun(path)
  {
    var path: seq<Status>;
    match (from, to)
    case (Open, Open) => path := [Open, Canceled, Open];
    case (Open, InProgress) => path := [Open, InProgress];
    case (Open, Resolved) => path := [Open, InProgress, Resolved];
    case (Open, Canceled) => path := [Open, Canceled];
    case (InProgress, Open) => path := [InProgress, Canceled, Open];
    case (InProgress, InProgress) => path := [InProgress, Resolved, InProgress];
    case (InProgress, Resolved) => path := [InProgress, Resolved];
    case (InProgress, Canceled) => path := [InProgress, Canceled];
    case (Resolved, Open) => path := [Resolved, InProgress, Canceled, Open];
    case (Resolved, InProgress) => path := [Resolved, InProgress];
    case (Resolved, Resolved) => path := [Resolved, InProgress, Resolved];
    case (Resolved, Canceled) => path := [Resolved, InProgress, Canceled];
    case (Canceled, Open) => path := [Canceled, Open];
    case (Canceled, InProgress) => path := [Canceled, Open, InProgress];
    case (Canceled, Resolved) => path := [Canceled, Open, InProgress, Resolved];
    case (Canceled, Canceled) => path := [Canceled, Open, Canceled];
    assert IsRun(path);
  }

  /** A ticket can only become resolved from in progress: in any run, the status
      just before a `Resolved` is `InProgress`. */
  lemma ResolvedOnlyFromInProgress(path: seq<Status>, k: nat)
    requires IsRun(path) && 0 < k < |path| && path[k] == Resolved
    ensures path[k - 1] == InProgress
  {
    assert IsValidStatusTransition(path[k - 1], path[k]);
  }

  // ----------------------------------------------- successive status calls

  /** The table after answering `reqs` in order. */
  function Replay(db: Db, reqs: seq<StatusRequest>): (r: Db)
    requires ValidDb(db)
    ensures ValidDb(r)
    decreases |reqs|
  {
    if reqs == [] then db else Replay(ApplyUpdateStatus(db, reqs[0]).1, reqs[1..])
  }

  /** The statuses ticket `pk` has before and after each request. */
  function StatusHistory(db: Db, reqs: seq<StatusRequest>, pk: TicketId): (h: seq<Status>)
    requires ValidDb(db) && pk in db.tickets
    ensures |h| == |reqs| + 1 && h[0] == db.tickets[pk].status
    decreases |reqs|
  {
    if reqs == [] then [db.tickets[pk].status]
    else
      var next := ApplyUpdateStatus(db, reqs[0]).1;
      assert pk in next.tickets;
      [db.tickets[pk].status] + StatusHistory(next, reqs[1..], pk)
  }

  /** Requests from users who are neither superusers nor technicians never change
      the table, whatever they ask for. */
  lemma {:induction false} OnlyStaffRolesChangeTickets(db: Db, reqs: seq<StatusRequest>)
    requires ValidDb(db)
    requires forall i :: 0 <= i < |reqs| && reqs[i].requester.Authenticated? ==> !CanUpdateStatus(reqs[i].requester.user)
    ensures Replay(db, reqs) == db
    decreases |reqs|
  {
    if reqs != [] {
      assert ApplyUpdateStatus(db, reqs[0]).1 == db;
      OnlyStaffRolesChangeTickets(db, reqs[1..]);
    }
  }

  /** Each status in `h` is the one before it or a legal successor of it. */
  predicate FollowsWorkflow(h: seq<Status>)
  {
    forall i :: 0 <= i < |h| - 1 ==> h[i] == h[i + 1] || IsValidStatusTransition(h[i], h[i + 1])
  }

  /** Through the API a ticket's status moves only along the workflow graph (or stays),
      and every other field except `updated_at` keeps its value. */
  lemma {:induction false} ReplayFollowsWorkflow(db: Db, reqs: seq<StatusRequest>, pk: TicketId)
    requires ValidDb(db) && pk in db.tickets
    ensures FollowsWorkflow(StatusHistory(db, reqs, pk))
    ensures var after := Replay(db, reqs);
      pk in after.tickets &&
      after.tickets[pk].(status := Open, updatedAt := 0) == db.tickets[pk].(status := Open, updatedAt := 0)
    decreases |reqs|
  {
    if reqs != [] {
      var next := ApplyUpdateStatus(db, reqs[0]).1;
      ReplayFollowsWorkflow(next, reqs[1..], pk);
      var h := StatusHistory(db, reqs, pk);
      var h' := StatusHistory(next, reqs[1..], pk);
      assert h == [db.tickets[pk].status] + h';
      assert h[0] == h[1] || IsValidStatusTransition(h[0], h[1]);
      forall i | 1 <= i < |h| - 1
        ensures h[i] == h[i + 1] || IsValidStatusTransition(h[i], h[i + 1])
      {
        assert h[i] == h'[i - 1] && h[i + 1] == h'[i];
      }
    }
  }

  /** A refused call changes nothing, so repeating it gets the same refusal again. */
  lemma RejectionIsRepeatable(db: Db, req: StatusRequest)
    requires ValidDb(db) && ApplyUpdateStatus(db, req).0.Err?
    ensures ApplyUpdateStatus(db, req).1 == db
    ensures ApplyUpdateStatus(ApplyUpdateStatus(db, req).1, req) == ApplyUpdateStatus(db, req)
  {
  }

  /** The walk `open, in progress, resolved, in progress, resolved` is a run, and
      `resolved -> open`, `resolved -> canceled` and `open -> resolved` are not transitions. */
  lemma ReopenAndResolveAgain()
    ensures IsRun([Open, InProgress, Resolved, InProgress, Resolved])
    ensures !IsValidStatusTransition(Resolved, Open)
    ensures !IsValidStatusTransition(Resolved, Canceled)
    ensures !IsValidStatusTransition(Open, Resolved)
  {
  }

  // --------------------------------------------------------------- search

  /** ASCII case folding, as the database's case-insensitive match does it. */
  function Lower(c: char): (r: char)
    ensures 'A' <= c <= 'Z' ==> r != c && 'a' <= r <= 'z'
    ensures !('A' <= c <= 'Z') ==> r == c
  {
    if 'A' <= c <= 'Z' then (c as int + 32) as char else c
  }

  function LowerString(s: string): (r: string)
    ensures |r| == |s| && forall i :: 0 <= i < |s| ==> r[i] == Lower(s[i])
  {
    seq(|s|, i requires 0 <= i < |s| => Lower(s[i]))
  }

  /** `needle` occurs in `hay` starting at position `i`. */
  predicate OccursAt(needle: string, hay: string, i: nat)
  {
    i + |needle| <= |hay| && hay[i..i + |needle|] == needle
  }

  /** An occurrence one position further on in `hay` is an occurrence in its tail. */
  lemma OccursShifted(needle: string, hay: string, i: nat)
    requires |hay| > 0
    ensures OccursAt(needle, hay, i + 1) <==> OccursAt(needle, hay[1..], i)
  {
  }

  /** Substring search by scanning from the left. */
  function Contains(hay: string, needle: string): (r: bool)
    ensures r <==> exists i: nat :: OccursAt(needle, hay, i)
    decreases |hay|
  {
    if |needle| > |hay| then
      assert forall i: nat :: !OccursAt(needle, hay, i);
      false
    else if hay[..|needle|] == needle then
      assert OccursAt(needle, hay, 0);
      true
    else if Contains(hay[1..], needle) then
      var j: nat :| OccursAt(needle, hay[1..], j);
      OccursShifted(needle, hay, j);
      true
    else
      assert forall i: nat :: !OccursAt(needle, hay, i) by {
        forall i: nat
          ensures !OccursAt(needle, hay, i)
        {
          if i > 0 {
            OccursShifted(needle, hay, i - 1);
          }
        }
      }
      false
  }

  /** `icontains` */
  predicate ContainsIgnoreCase(hay: string, needle: string)
  {
    Contains(LowerString(hay), LowerString(needle))
  }

  /** The `search` lookup of `TicketFilter.search_filter`: the value in the title, or in
      a non-null description, ignoring case. */
  predicate SearchMatches(t: Ticket, value: string)
  {
    ContainsIgnoreCase(t.title, value) ||
    (t.description.Some? && ContainsIgnoreCase(t.description.value, value))
  }

  /** `TicketFilter.search_filter` */
  function SearchFilter(qs: map<TicketId, Ticket>, value: string): (r: map<TicketId, Ticket>)
    ensures forall id :: id in r <==> id in qs && SearchMatches(qs[id], value)
    ensures forall id :: id in r ==> r[id] == qs[id]
  {
    map id | id in qs && SearchMatches(qs[id], value) :: qs[id]
  }

  /** Folding case twice is folding it once. */
  lemma LowerStringIdempotent(s: string)
    ensures LowerString(LowerString(s)) == LowerString(s)
  {
  }

  /** The search ignores the case of the value typed. */
  lemma SearchIgnoresCase(qs: map<TicketId, Ticket>, value: string)
    ensures SearchFilter(qs, value) == SearchFilter(qs, LowerString(value))
  {
    LowerStringIdempotent(value);
  }

  /** An empty search value keeps every ticket. */
  lemma EmptySearchKeepsAll(qs: map<TicketId, Ticket>)
    ensures SearchFilter(qs, "") == qs
  {
    forall id | id in qs
      ensures SearchMatches(qs[id], "")
    {
      assert OccursAt("", LowerString(qs[id].title), 0);
    }
  }

  /** The characters Python's `str.isspace` accepts below 128. */
  predicate IsSpace(c: char)
  {
    c == ' ' || '\t' <= c <= '\r' || '\U{1c}' <= c <= '\U{1f}'
  }

  /** `s` with its leading whitespace removed. */
  function TrimStart(s: string): (r: string)
    ensures |r| <= |s| && r == s[|s| - |r|..]
    ensures forall k :: 0 <= k < |s| - |r| ==> IsSpace(s[k])
    ensures r != [] ==> !IsSpace(r[0])
  {
    if s != [] && IsSpace(s[0]) then TrimStart(s[1..]) else s
  }

  /** `s` with its trailing whitespace removed. */
  function TrimEnd(s: string): (r: string)
    ensures |r| <= |s| && r == s[..|r|]
    ensures forall k :: |r| <= k < |s| ==> IsSpace(s[k])
    ensures r != [] ==> !IsSpace(r[|r| - 1])
  {
    if s != [] && IsSpace(s[|s| - 1]) then TrimEnd(s[..|s| - 1]) else s
  }

  /** `str.strip()`, which the `CharFilter`'s form field applies to the raw value. */
  function Strip(s: string): (r: string)
    ensures exists i, j ::
              && 0 <= i <= j <= |s| && r == s[i..j]
              && (forall k :: 0 <= k < i ==> IsSpace(s[k]))
              && (forall k :: j <= k < |s| ==> IsSpace(s[k]))
    ensures r != [] ==> !IsSpace(r[0]) && !IsSpace(r[|r| - 1])
  {
    var t := TrimStart(s);
    var u := TrimEnd(t);
    assert u == s[|s| - |t|..|s| - |t| + |u|];
    u
  }

  /** A value is blank exactly when every character of it is whitespace. */
  lemma StripBlank(s: string)
    ensures Strip(s) == [] <==> forall k :: 0 <= k < |s| ==> IsSpace(s[k])
  {
    var t := TrimStart(s);
    assert t != [] ==> t[0] == s[|s| - |t|];
  }

  /** Leading whitespace in front of a value that does not start with any is cut. */
  lemma {:induction false} TrimStartPadded(pad: string, w: string)
    requires forall k :: 0 <= k < |pad| ==> IsSpace(pad[k])
    requires w != [] ==> !IsSpace(w[0])
    ensures TrimStart(pad + w) == w
    decreases |pad|
  {
    if pad == [] {
      assert pad + w == w;
    } else {
      assert (pad + w)[0] == pad[0];
      assert (pad + w)[1..] == pad[1..] + w;
      TrimStartPadded(pad[1..], w);
    }
  }

  /** Trailing whitespace after a value that does not end with any is cut. */
  lemma {:induction false} TrimEndPadded(w: string, pad: string)
    requires forall k :: 0 <= k < |pad| ==> IsSpace(pad[k])
    requires w != [] ==> !IsSpace(w[|w| - 1])
    ensures TrimEnd(w + pad) == w
    decreases |pad|
  {
    if pad == [] {
      assert w + pad == w;
    } else {
      var n := |w + pad|;
      assert (w + pad)[n - 1] == pad[|pad| - 1];
      assert (w + pad)[..n - 1] == w + pad[..|pad| - 1];
      TrimEndPadded(w, pad[..|pad| - 1]);
    }
  }

  /** Whitespace around a value without any of its own is dropped again. */
  lemma StripPadded(pad: string, v: string, pad2: string)
    requires forall k :: 0 <= k < |pad| ==> IsSpace(pad[k])
    requires forall k :: 0 <= k < |pad2| ==> IsSpace(pad2[k])
    requires v != [] ==> !IsSpace(v[0]) && !IsSpace(v[|v| - 1])
    ensures Strip(pad + v + pad2) == v
  {
    if v == [] {
      var blank := pad + pad2;
      assert pad + v + pad2 == blank + v;
      assert forall k :: 0 <= k < |blank| ==> IsSpace(blank[k]) by {
        forall k | 0 <= k < |blank|
          ensures IsSpace(blank[k])
        {
          if k < |pad| {
            assert blank[k] == pad[k];
          } else {
            assert blank[k] == pad2[k - |pad|];
          }
        }
      }
      TrimStartPadded(blank, v);
    } else {
      assert pad + v + pad2 == pad + (v + pad2);
      assert (v + pad2)[0] == v[0];
      TrimStartPadded(pad, v + pad2);
      TrimEndPadded(v, pad2);
    }
  }

  /** The value `search_filter` receives: the raw parameter stripped, and `None` when
      the parameter is absent or blank, since the filter then is not applied. */
  function CleanedSearch(search: Option<string>): (r: Option<string>)
    ensures r.Some? <==> search.Some? && exists k :: 0 <= k < |search.value| && !IsSpace(search.value[k])
    ensures r.Some? ==> r.value == Strip(search.value) && r.value != ""
  {
    match search
    case None => None
    case Some(raw) =>
      StripBlank(raw);
      var v := Strip(raw);
      if v == "" then None else Some(v)
  }

  /** The form field's validator refuses a cleaned value holding a null character. */
  predicate SearchRefused(search: Option<string>)
  {
    CleanedSearch(search).Some? && '\0' in CleanedSearch(search).value
  }

  /** The list action: the caller's scope narrowed by the cleaned `search` value;
      a value the filter set's form refuses answers 400. */
  function ListTickets(r: Requester, tickets: map<TicketId, Ticket>, search: Option<string>)
    : (res: Result<map<TicketId, Ticket>, ApiError>)
    ensures r.Anonymous? <==> res == Err(Unauthorized)
    ensures r.Authenticated? ==> (res == Err(InvalidFilter) <==> SearchRefused(search))
    ensures r.Authenticated? ==> (res.Ok? <==> !SearchRefused(search))
    ensures res.Ok? ==> forall id :: id in res.value <==>
      && id in tickets && ApiSees(r.user, tickets[id])
      && (CleanedSearch(search).Some? ==> SearchMatches(tickets[id], CleanedSearch(search).value))
    ensures res.Ok? ==> forall id :: id in res.value ==> res.value[id] == tickets[id]
  {
    match r
    case Anonymous => Err(Unauthorized)
    case Authenticated(u) =>
      var qs := ApiQueryset(u, tickets);
      match CleanedSearch(search)
      case None => Ok(qs)
      case Some(v) => if '\0' in v then Err(InvalidFilter) else Ok(SearchFilter(qs, v))
  }

  /** Stripping never removes a character that is not whitespace. */
  lemma StripKeeps(raw: string, k: nat)
    requires k < |raw| && !IsSpace(raw[k])
    ensures raw[k] in Strip(raw)
  {
    var i, j :| && 0 <= i <= j <= |raw| && Strip(raw) == raw[i..j]
                && (forall k :: 0 <= k < i ==> IsSpace(raw[k]))
                && (forall k :: j <= k < |raw| ==> IsSpace(raw[k]));
    assert Strip(raw)[k - i] == raw[k];
  }

  /** A null character anywhere in the raw value survives stripping, so the list
      answers 400. */
  lemma NullCharSearchRefused(u: User, tickets: map<TicketId, Ticket>, raw: string)
    requires '\0' in raw
    ensures ListTickets(Authenticated(u), tickets, Some(raw)) == Err(InvalidFilter)
  {
    var k :| 0 <= k < |raw| && raw[k] == '\0';
    StripKeeps(raw, k);
    assert SearchRefused(Some(raw));
  }

  /** A search made of whitespace only is not applied: the whole scope is listed. */
  lemma BlankSearchListsScope(u: User, tickets: map<TicketId, Ticket>, raw: string)
    requires forall k :: 0 <= k < |raw| ==> IsSpace(raw[k])
    ensures ListTickets(Authenticated(u), tickets, Some(raw)) == Ok(ApiQueryset(u, tickets))
  {
  }

  /** The cleaned value depends on the raw one only through `Strip`. */
  lemma CleanedSearchOfStrip(a: string, b: string)
    requires Strip(a) == Strip(b)
    ensures CleanedSearch(Some(a)) == CleanedSearch(Some(b))
  {
  }

  /** The cleaned value of a padded search is that of the bare value. */
  lemma PaddedSearchSameValue(pad: string, v: string, pad2: string)
    requires forall k :: 0 <= k < |pad| ==> IsSpace(pad[k])
    requires forall k :: 0 <= k < |pad2| ==> IsSpace(pad2[k])
    requires v != [] ==> !IsSpace(v[0]) && !IsSpace(v[|v| - 1])
    ensures CleanedSearch(Some(pad + v + pad2)) == CleanedSearch(Some(v))
  {
    StripPadded(pad, v, pad2);
    TrimStartPadded([], v);
    TrimEndPadded(v, []);
    CleanedSearchOfStrip(pad + v + pad2, v);
  }

  /** Whitespace typed around a search value does not change the list. */
  lemma PaddedSearchSameList(r: Requester, tickets: map<TicketId, Ticket>, pad: string, v: string, pad2: string)
    requires forall k :: 0 <= k < |pad| ==> IsSpace(pad[k])
    requires forall k :: 0 <= k < |pad2| ==> IsSpace(pad2[k])
    requires v != [] ==> !IsSpace(v[0]) && !IsSpace(v[|v| - 1])
    ensures ListTickets(r, tickets, Some(pad + v + pad2)) == ListTickets(r, tickets, Some(v))
  {
    PaddedSearchSameValue(pad, v, pad2);
  }
}
