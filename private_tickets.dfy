/**
  The admin router of backend/app/routers/private/tickets.py: the listing
  filters and the per-ticket enrichment, the field rules of the edit, agent
  message and assignment endpoints, and the ticket timeline. What
  `storage.get_ticket` and `storage.list_tickets` gave are parameters; the
  writes, including those through `storage.add_message` and
  `storage.update_ticket` (which no store defines), and the broadcasts are
  recorded `Effect`s. The clock and `uuid4` are read values, and the user
  the token check returns is a parameter.
*/
module PrivateTickets {
  import opened Wrappers
  import opened JsonValue
  import opened Http
  import Seqs
  import StrOrder

  /** The signed-in user, as the token check returns it. */
  datatype Agent = Agent(name: string, email: string)

  const TicketNotFound := HttpError(404, JStr("Ticket non trouvé"))

  /** The status of a closed ticket. */
  const ClosedStatus := "fermé"

  /** The ticket `storage.get_ticket` gave, or the 404 of an empty record. */
  function Found(read: Result<Json, HttpError>): Result<Json, HttpError> {
    match read
    case Err(e) => Err(e)
    case Ok(t) => if Truthy(t) then Ok(t) else Err(TicketNotFound)
  }

  // ================================================================ list_all_tickets

  /** Python's `if s:` on an optional query parameter. */
  predicate Given(s: Option<string>) {
    s.Some? && s.value != ""
  }

  /** `t.get("assigned_to") == assigned_to`. */
  predicate AssignedTo(t: Json, agent: string) {
    Get(t, "assigned_to") == JStr(agent)
  }

  /** `t.get("analytics", {}).get("urgency")`; `None` when the analytics
      value is not a dict, so that `.get` raises. */
  function UrgencyOf(t: Json): Option<Json> {
    var a := GetOr(t, "analytics", JObj([]));
    if a.JObj? then Some(Get(a, "urgency")) else None
  }

  /** The urgency test of the comprehension, which may raise. */
  function UrgencyTest(urgency: string): Json -> Option<bool> {
    t => match UrgencyOf(t) case None => None case Some(u) => Some(u == JStr(urgency))
  }

  /** The same test on tickets whose analytics can be read. */
  predicate HasUrgency(t: Json, urgency: string) {
    UrgencyOf(t) == Some(JStr(urgency))
  }

  /** The `assigned_to` and `urgency` filters, in that order; `None` when
      reading a ticket's urgency raises. */
  function Filtered(listed: seq<Json>, assignedTo: Option<string>, urgency: Option<string>): Option<seq<Json>> {
    var byAgent := if Given(assignedTo) then Seqs.Filter(listed, t => AssignedTo(t, assignedTo.value)) else listed;
    if Given(urgency) then Seqs.FilterSome(byAgent, UrgencyTest(urgency.value)) else Some(byAgent)
  }

  /** Each active filter keeps exactly the tickets with the requested value:
      a ticket is kept if and only if it was listed and matches every active
      filter; an inactive filter keeps everything. The urgency filter fails
      exactly when some ticket's analytics cannot be read. */
  lemma FilteredExactly(listed: seq<Json>, assignedTo: Option<string>, urgency: Option<string>)
    ensures var byAgent := if Given(assignedTo) then Seqs.Filter(listed, t => AssignedTo(t, assignedTo.value)) else listed;
      var r := Filtered(listed, assignedTo, urgency);
      && (r.None? <==> Given(urgency) && exists k :: 0 <= k < |byAgent| && UrgencyOf(byAgent[k]).None?)
      && (r.Some? ==> forall t :: t in r.value <==>
            t in listed && (Given(assignedTo) ==> AssignedTo(t, assignedTo.value))
                        && (Given(urgency) ==> HasUrgency(t, urgency.value)))
  {
    var byAgent := if Given(assignedTo) then Seqs.Filter(listed, t => AssignedTo(t, assignedTo.value)) else listed;
    if Given(assignedTo) {
      FilterMembers(listed, t => AssignedTo(t, assignedTo.value));
    }
    if Given(urgency) {
      var q := t => HasUrgency(t, urgency.value);
      Seqs.FilterSomeIsFilter(byAgent, UrgencyTest(urgency.value), q);
      FilterMembers(byAgent, q);
    }
  }

  lemma FilterMembers(s: seq<Json>, p: Json -> bool)
    ensures forall t :: t in Seqs.Filter(s, p) <==> t in s && p(t)
  {
    forall t | t in s && p(t) ensures t in Seqs.Filter(s, p) {
      var i :| 0 <= i < |s| && s[i] == t;
    }
  }

  /** Python's `len(v)`; `None` for a value without a length. */
  function Len(v: Json): Option<nat> {
    match v
    case JArr(items) => Some(|items|)
    case JStr(s) => Some(|s|)
    case JObj(members) => Some(|members|)
    case _ => None
  }

  /** Python's `v[-1]` on a non-empty value: the last item of a list, the
      last character of a string; `None` when it raises (a dict has no key
      -1). */
  function LastOf(v: Json): Option<Json> {
    match v
    case JArr(items) => if items != [] then Some(items[|items| - 1]) else None
    case JStr(s) => if s != [] then Some(JStr([s[|s| - 1]])) else None
    case _ => None
  }

  /** One ticket of the listing with the admin fields added: `age_hours`
      (given by `age` from the `created_at` value, `None` when parsing it
      raises), `message_count`, and `last_message` when the messages are not
      empty; `None` when a step raises. */
  function Enriched(t: Json, age: Json -> Option<Json>): Option<Json> {
    match Subscript(t, "created_at")
    case None => None
    case Some(createdAt) =>
      match age(createdAt)
      case None => None
      case Some(hours) =>
        var messages := GetOr(t, "messages", JArr([]));
        match Len(messages)
        case None => None
        case Some(n) =>
          if !Truthy(messages) then Some(JObj(AdminFields(t.members, hours, n, None)))
          else match LastOf(messages)
            case None => None
            case Some(last) => Some(JObj(AdminFields(t.members, hours, n, Some(last))))
  }

  /** The three assignments of the enrichment, in order. */
  function AdminFields(members: seq<Member>, hours: Json, n: nat, last: Option<Json>): seq<Member> {
    var counted := SetKey(SetKey(members, "age_hours", hours), "message_count", JInt(n));
    if last.Some? then SetKey(counted, "last_message", last.value) else counted
  }

  /** The enrichment sets the count, sets the last message when there is one
      and leaves every other field as it was. */
  lemma AdminFieldsRead(members: seq<Member>, hours: Json, n: nat, last: Option<Json>, k: string)
    ensures var r := AdminFields(members, hours, n, last);
      && Lookup(r, "age_hours") == Some(hours)
      && Lookup(r, "message_count") == Some(JInt(n))
      && Lookup(r, "last_message") == (if last.Some? then last else Lookup(members, "last_message"))
      && (k != "age_hours" && k != "message_count" && k != "last_message" ==> Lookup(r, k) == Lookup(members, k))
  {
  }

  /** What an enriched ticket holds: its fields with the three assignments,
      `last_message` set exactly when the messages are truthy. */
  lemma EnrichedForm(t: Json, age: Json -> Option<Json>)
    requires Enriched(t, age).Some?
    ensures var messages := GetOr(t, "messages", JArr([]));
      && t.JObj? && Subscript(t, "created_at").Some? && age(Subscript(t, "created_at").value).Some?
      && Len(messages).Some? && (Truthy(messages) ==> LastOf(messages).Some?)
      && Enriched(t, age).value ==
           JObj(AdminFields(t.members, age(Subscript(t, "created_at").value).value, Len(messages).value,
                            if Truthy(messages) then LastOf(messages) else None))
  {
  }

  function EnrichWith(age: Json -> Option<Json>): Json -> Option<Json> {
    t => Enriched(t, age)
  }

  /** An enriched ticket counts its messages... */
  lemma EnrichedCount(t: Json, age: Json -> Option<Json>, items: seq<Json>)
    requires Enriched(t, age).Some?
    requires GetOr(t, "messages", JArr([])) == JArr(items)
    ensures Subscript(Enriched(t, age).value, "message_count") == Some(JInt(|items|))
  {
    EnrichedForm(t, age);
    var messages := GetOr(t, "messages", JArr([]));
    AdminFieldsRead(t.members, age(Subscript(t, "created_at").value).value, |items|,
                    if Truthy(messages) then LastOf(messages) else None, "message_count");
  }

  /** ...carries the last one when there are any... */
  lemma EnrichedLast(t: Json, age: Json -> Option<Json>, items: seq<Json>)
    requires Enriched(t, age).Some?
    requires GetOr(t, "messages", JArr([])) == JArr(items) && items != []
    ensures Subscript(Enriched(t, age).value, "last_message") == Some(items[|items| - 1])
  {
    EnrichedForm(t, age);
    AdminFieldsRead(t.members, age(Subscript(t, "created_at").value).value, |items|,
                    Some(items[|items| - 1]), "last_message");
  }

  /** ...and adds no last message when there are none. */
  lemma EnrichedNoLast(t: Json, age: Json -> Option<Json>)
    requires Enriched(t, age).Some?
    requires !Truthy(GetOr(t, "messages", JArr([])))
    ensures Subscript(Enriched(t, age).value, "last_message") == Subscript(t, "last_message")
  {
    EnrichedForm(t, age);
    AdminFieldsRead(t.members, age(Subscript(t, "created_at").value).value,
                    Len(GetOr(t, "messages", JArr([]))).value, None, "last_message");
  }

  /** Enriching leaves every field but the three it adds unchanged. */
  lemma EnrichedKeeps(t: Json, age: Json -> Option<Json>, k: string)
    requires Enriched(t, age).Some?
    requires k != "age_hours" && k != "message_count" && k != "last_message"
    ensures Enriched(t, age).value.JObj? && Subscript(Enriched(t, age).value, k) == Subscript(t, k)
  {
    EnrichedForm(t, age);
    var messages := GetOr(t, "messages", JArr([]));
    AdminFieldsRead(t.members, age(Subscript(t, "created_at").value).value, Len(messages).value,
                    if Truthy(messages) then LastOf(messages) else None, k);
  }

  /** `ts[:limit]`: the first `limit` tickets of a listing, with Python's
      slice meaning for a negative `limit` (that many dropped from the end). */
  function Capped(ts: seq<Json>, limit: int): (r: seq<Json>)
    ensures |r| <= |ts| && r == ts[..|r|]
    ensures limit >= 0 ==> |r| <= limit
    ensures limit >= |ts| ==> r == ts
  {
    if limit >= |ts| then ts
    else if limit >= 0 then ts[..limit]
    else if -limit < |ts| then ts[..|ts| + limit]
    else []
  }

  /** Filtering a prefix of a listing keeps a prefix of what filtering the
      whole listing keeps, and fails only if filtering the whole fails. */
  lemma FilteredPrefix(ts: seq<Json>, assignedTo: Option<string>, urgency: Option<string>, m: nat)
    requires m <= |ts| && Filtered(ts, assignedTo, urgency).Some?
    ensures Filtered(ts[..m], assignedTo, urgency).Some?
    ensures var r := Filtered(ts[..m], assignedTo, urgency).value;
      |r| <= |Filtered(ts, assignedTo, urgency).value| && r == Filtered(ts, assignedTo, urgency).value[..|r|]
  {
    if Given(assignedTo) {
      var p := t => AssignedTo(t, assignedTo.value);
      Seqs.FilterPrefix(ts, p, m);
      if Given(urgency) {
        var k := |Seqs.Filter(ts[..m], p)|;
        Seqs.FilterSomePrefix(Seqs.Filter(ts, p), UrgencyTest(urgency.value), k);
      }
    } else if Given(urgency) {
      Seqs.FilterSomePrefix(ts, UrgencyTest(urgency.value), m);
    }
  }

  /** The listing as `list_all_tickets` intends it, given what the store's
      `list_tickets` gave for the status and channel filters: the store keeps
      its first `limit` tickets, and the router filters and enriches those. */
  function ListAll(listed: Result<seq<Json>, HttpError>, assignedTo: Option<string>, urgency: Option<string>,
                   limit: int, age: Json -> Option<Json>): Result<Json, HttpError>
  {
    match listed
    case Err(e) => Err(e)
    case Ok(ts) =>
      match Filtered(Capped(ts, limit), assignedTo, urgency)
      case None => Err(InternalError)
      case Some(kept) =>
        match Seqs.MapAll(kept, EnrichWith(age))
        case None => Err(InternalError)
        case Some(enriched) => Ok(JArr(enriched))
  }

  /** An answer lists the kept tickets among the first `limit`, in order,
      each enriched. */
  lemma ListAllShape(listed: Result<seq<Json>, HttpError>, assignedTo: Option<string>, urgency: Option<string>,
                     limit: int, age: Json -> Option<Json>)
    requires ListAll(listed, assignedTo, urgency, limit, age).Ok?
    ensures var kept := Filtered(Capped(listed.value, limit), assignedTo, urgency);
      var r := ListAll(listed, assignedTo, urgency, limit, age).value;
      && kept.Some? && r.JArr? && |r.items| == |kept.value|
      && forall k :: 0 <= k < |r.items| ==> Some(r.items[k]) == Enriched(kept.value[k], age)
  {
    var kept := Filtered(Capped(listed.value, limit), assignedTo, urgency).value;
    Seqs.MapAllAt(kept, EnrichWith(age));
  }

  /** A non-negative `limit` bounds the number of tickets answered. */
  lemma ListAllAtMost(listed: Result<seq<Json>, HttpError>, assignedTo: Option<string>, urgency: Option<string>,
                      limit: int, age: Json -> Option<Json>)
    requires limit >= 0 && ListAll(listed, assignedTo, urgency, limit, age).Ok?
    ensures |ListAll(listed, assignedTo, urgency, limit, age).value.items| <= limit
  {
    var kept := Filtered(Capped(listed.value, limit), assignedTo, urgency).value;
    Seqs.MapAllAt(kept, EnrichWith(age));
  }

  /** Whenever the whole listing can be answered, the answer under any
      `limit` succeeds too and is a prefix of it: the cap drops tickets from
      the end and never reorders or changes the ones it keeps. */
  lemma ListAllPrefix(listed: Result<seq<Json>, HttpError>, assignedTo: Option<string>, urgency: Option<string>,
                      limit: int, age: Json -> Option<Json>)
    requires listed.Ok? && ListAll(listed, assignedTo, urgency, |listed.value|, age).Ok?
    ensures ListAll(listed, assignedTo, urgency, limit, age).Ok?
    ensures ListAll(listed, assignedTo, urgency, limit, age).value.items <=
            ListAll(listed, assignedTo, urgency, |listed.value|, age).value.items
  {
    var ts := listed.value;
    var capped := Capped(ts, limit);
    var kept := Filtered(ts, assignedTo, urgency).value;
    FilteredPrefix(ts, assignedTo, urgency, |capped|);
    var keptCapped := Filtered(capped, assignedTo, urgency).value;
    Seqs.MapAllPrefix(kept, EnrichWith(age), |keptCapped|);
  }

  /** `list_all_tickets` as written: `storage.list_tickets` takes no `limit`
      argument, so the call raises `TypeError` whatever the query. */
  function ListAllAsWritten(listed: Result<seq<Json>, HttpError>, assignedTo: Option<string>, urgency: Option<string>,
                            limit: int, age: Json -> Option<Json>): (r: Result<Json, HttpError>)
    ensures r == Err(InternalError)
  {
    Err(InternalError)
  }

  /** Even an empty store with no filter gets a 500 as written, where the
      intended listing answers with an empty list. */
  lemma ListAllAsWrittenFails(age: Json -> Option<Json>)
    ensures ListAllAsWritten(Ok([]), None, None, 100, age).Err?
    ensures ListAll(Ok([]), None, None, 100, age) == Ok(JArr([]))
  {
  }

  /** The enrichment loop of `list_all_tickets`. */
  method EnrichAll(tickets: seq<Json>, age: Json -> Option<Json>) returns (r: Option<seq<Json>>)
    ensures r == Seqs.MapAll(tickets, EnrichWith(age))
  {
    var out: seq<Json> := [];
    var i: nat := 0;
    while i < |tickets|
      invariant i <= |tickets|
      invariant Seqs.MapAll(tickets[..i], EnrichWith(age)) == Some(out)
    {
      var e := EnrichWith(age)(tickets[i]);
      Seqs.MapAllStep(tickets, i, EnrichWith(age));
      if e.None? {
        Seqs.MapAllAt(tickets, EnrichWith(age));
        return None;
      }
      out := out + [e.value];
      i := i + 1;
    }
    assert tickets[..i] == tickets;
    r := Some(out);
  }

  /** `list_all_tickets`, with the call to the store as intended. */
  method ListAllTickets(listed: Result<seq<Json>, HttpError>, assignedTo: Option<string>, urgency: Option<string>,
                        limit: int, age: Json -> Option<Json>) returns (r: Result<Json, HttpError>)
    ensures r == ListAll(listed, assignedTo, urgency, limit, age)
  {
    if listed.Err? {
      return Err(listed.error);
    }
    var kept := Filtered(Capped(listed.value, limit), assignedTo, urgency);
    if kept.None? {
      return Err(InternalError);
    }
    var enriched := EnrichAll(kept.value, age);
    if enriched.None? {
      return Err(InternalError);
    }
    r := Ok(JArr(enriched.value));
  }

  // ================================================================ update_ticket

  /** The request takes a ticket that is not yet closed into "fermé". */
  predicate Closing(updates: seq<Member>, ticket: Json) {
    && Lookup(updates, "status") == Some(JStr(ClosedStatus))
    && Subscript(ticket, "status").Some?
    && Subscript(ticket, "status") != Some(JStr(ClosedStatus))
  }

  /** The clock readings of an edit: `updated_at`, `closed_at`, and the
      seconds since creation (given the `created_at` value; `None` when
      parsing it raises). */
  datatype EditReadings = EditReadings(updatedAt: string, closedAt: string, resolution: Json -> Option<int>)

  /** The body stamped with the time and the user. */
  function Stamped(updates: seq<Member>, user: Agent, r: EditReadings): seq<Member> {
    SetKey(SetKey(updates, "updated_at", JStr(r.updatedAt)), "updated_by", JStr(user.email))
  }

  /** The close fields set on `m`. */
  function WithCloseFields(m: seq<Member>, user: Agent, closedAt: string, seconds: int): seq<Member> {
    SetKey(SetKey(SetKey(m, "closed_at", JStr(closedAt)), "closed_by", JStr(user.email)),
           "resolution_time_seconds", JInt(seconds))
  }

  /** The fields `update_ticket` passes on: the body, stamped with the time
      and the user, plus the close fields on a transition into "fermé";
      `None` when reading the ticket's status or creation time raises. */
  function EditUpdates(updates: seq<Member>, ticket: Json, user: Agent, r: EditReadings): Option<seq<Member>> {
    var stamped := Stamped(updates, user, r);
    if Lookup(stamped, "status") != Some(JStr(ClosedStatus)) then Some(stamped)
    else match Subscript(ticket, "status")
      case None => None
      case Some(current) =>
        if current == JStr(ClosedStatus) then Some(stamped)
        else match Subscript(ticket, "created_at")
          case None => None
          case Some(createdAt) =>
            match r.resolution(createdAt)
            case None => None
            case Some(seconds) => Some(WithCloseFields(stamped, user, r.closedAt, seconds))
  }

  /** Stamping sets the two stamps and keeps every other field of the body. */
  lemma StampedFields(updates: seq<Member>, user: Agent, r: EditReadings, k: string)
    ensures Lookup(Stamped(updates, user, r), "updated_at") == Some(JStr(r.updatedAt))
    ensures Lookup(Stamped(updates, user, r), "updated_by") == Some(JStr(user.email))
    ensures k != "updated_at" && k != "updated_by" ==> Lookup(Stamped(updates, user, r), k) == Lookup(updates, k)
  {
    var once := SetKey(updates, "updated_at", JStr(r.updatedAt));
    assert Lookup(Stamped(updates, user, r), "updated_at") == Lookup(once, "updated_at");
  }

  /** The close fields are set and every other field is kept. */
  lemma CloseFieldsSet(m: seq<Member>, user: Agent, closedAt: string, seconds: int, k: string)
    ensures var c := WithCloseFields(m, user, closedAt, seconds);
      && Lookup(c, "closed_at") == Some(JStr(closedAt))
      && Lookup(c, "closed_by") == Some(JStr(user.email))
      && Lookup(c, "resolution_time_seconds") == Some(JInt(seconds))
      && (k != "closed_at" && k != "closed_by" && k != "resolution_time_seconds" ==> Lookup(c, k) == Lookup(m, k))
  {
    var one := SetKey(m, "closed_at", JStr(closedAt));
    var two := SetKey(one, "closed_by", JStr(user.email));
    assert Lookup(two, "closed_at") == Lookup(one, "closed_at");
    assert Lookup(WithCloseFields(m, user, closedAt, seconds), "closed_at") == Lookup(two, "closed_at");
    assert Lookup(WithCloseFields(m, user, closedAt, seconds), "closed_by") == Lookup(two, "closed_by");
  }

  /** The stamps are always set; the close fields are set to this edit's
      time, user and resolution time exactly on a transition into "fermé",
      and otherwise keep whatever the body held, as every other field does. */
  lemma EditCloseFields(updates: seq<Member>, ticket: Json, user: Agent, r: EditReadings, k: string)
    requires EditUpdates(updates, ticket, user, r).Some?
    requires k != "updated_at" && k != "updated_by"
    ensures var u := EditUpdates(updates, ticket, user, r).value;
      && Lookup(u, "updated_at") == Some(JStr(r.updatedAt))
      && Lookup(u, "updated_by") == Some(JStr(user.email))
      && (Closing(updates, ticket) ==>
            && Lookup(u, "closed_at") == Some(JStr(r.closedAt))
            && Lookup(u, "closed_by") == Some(JStr(user.email))
            && Lookup(u, "resolution_time_seconds") == Some(JInt(r.resolution(Subscript(ticket, "created_at").value).value)))
      && ((!Closing(updates, ticket) || (k != "closed_at" && k != "closed_by" && k != "resolution_time_seconds")) ==>
            Lookup(u, k) == Lookup(updates, k))
  {
    var stamped := Stamped(updates, user, r);
    StampedFields(updates, user, r, k);
    StampedFields(updates, user, r, "status");
    if Closing(updates, ticket) {
      var seconds := r.resolution(Subscript(ticket, "created_at").value).value;
      CloseFieldsSet(stamped, user, r.closedAt, seconds, k);
      CloseFieldsSet(stamped, user, r.closedAt, seconds, "updated_at");
      CloseFieldsSet(stamped, user, r.closedAt, seconds, "updated_by");
    }
  }

  function TicketUpdateEvent(stored: Json): Json {
    JObj([Member("type", JStr("ticket_update")), Member("ticket", stored)])
  }

  /** `update_ticket`, given what `storage.update_ticket` returns. */
  function EditOutcome(ticketId: string, updates: seq<Member>, read: Result<Json, HttpError>, user: Agent,
                       r: EditReadings, stored: Json): Outcome
  {
    match Found(read)
    case Err(e) => Outcome(Err(e), [])
    case Ok(ticket) =>
      match EditUpdates(updates, ticket, user, r)
      case None => Outcome(Err(InternalError), [])
      case Some(u) => Outcome(Ok(stored), [UpdateTicket(ticketId, u), Broadcast(ticketId, TicketUpdateEvent(stored))])
  }

  /** An edit of a found ticket writes once and broadcasts what the store
      returned, which is also the answer; a missing ticket changes nothing. */
  lemma EditWritesOnce(ticketId: string, updates: seq<Member>, read: Result<Json, HttpError>, user: Agent,
                       r: EditReadings, stored: Json)
    ensures var o := EditOutcome(ticketId, updates, read, user, r, stored);
      && (Found(read).Err? ==> o == Outcome(Err(Found(read).error), []))
      && (o.result.Ok? <==> Found(read).Ok? && EditUpdates(updates, read.value, user, r).Some?)
      && (o.result.Ok? ==>
            && o.result.value == stored
            && |o.effects| == 2
            && o.effects[0] == UpdateTicket(ticketId, EditUpdates(updates, read.value, user, r).value)
            && o.effects[1] == Broadcast(ticketId, TicketUpdateEvent(stored)))
      && (o.result.Err? ==> o.effects == [])
  {
  }

  // ================================================================ add_agent_message

  datatype AgentMessageCreate = AgentMessageCreate(content: string, internal: bool)

  /** The readings of `uuid4` and of the clock an agent message makes. */
  datatype AgentReadings = AgentReadings(messageUuid: string, messageAt: string, updatedAt: string)

  /** The message an agent adds. */
  function AgentMessage(request: AgentMessageCreate, user: Agent, r: AgentReadings): Json {
    JObj([Member("message_id", JStr(r.messageUuid)), Member("content", JStr(request.content)),
          Member("author", JStr(user.name)), Member("author_email", JStr(user.email)),
          Member("timestamp", JStr(r.messageAt)),
          Member("type", JStr(if request.internal then "internal" else "agent")),
          Member("internal", JBool(request.internal))])
  }

  /** The type of an agent message says whether it is internal. */
  lemma AgentMessageType(request: AgentMessageCreate, user: Agent, r: AgentReadings)
    ensures Subscript(AgentMessage(request, user, r), "type") == Some(JStr(if request.internal then "internal" else "agent"))
    ensures Subscript(AgentMessage(request, user, r), "type") == Some(JStr("internal")) <==> request.internal
  {
    LookupAt(AgentMessage(request, user, r).members, "type", 5);
  }

  /** The event announcing an agent's message to the client. */
  function AgentMessageEvent(request: AgentMessageCreate, user: Agent, r: AgentReadings): Json {
    JObj([Member("type", JStr("new_message")),
          Member("message", JObj([Member("id", JStr(r.messageUuid)), Member("content", JStr(request.content)),
                                  Member("role", JStr("agent")), Member("timestamp", JStr(r.messageAt)),
                                  Member("author", JStr(user.name))]))])
  }

  /** The write that takes a "nouveau" ticket into "en cours" under the agent. */
  function TakeOver(user: Agent, r: AgentReadings): seq<Member> {
    [Member("status", JStr("en cours")), Member("assigned_to", JStr(user.email)),
     Member("updated_at", JStr(r.updatedAt))]
  }

  /** `add_agent_message`. The message is stored before the status is read,
      so a ticket without a status still gets the message, and then a 500. */
  function AgentOutcome(ticketId: string, request: AgentMessageCreate, read: Result<Json, HttpError>, user: Agent,
                        r: AgentReadings): Outcome
  {
    match Found(read)
    case Err(e) => Outcome(Err(e), [])
    case Ok(ticket) =>
      var stored := StoreMessage(ticketId, AgentMessage(request, user, r));
      match Subscript(ticket, "status")
      case None => Outcome(Err(InternalError), [stored])
      case Some(status) =>
        var isNew := status == JStr("nouveau");
        var takeOver := if isNew then [UpdateTicket(ticketId, TakeOver(user, r))] else [];
        var broadcast := if request.internal then [] else [Broadcast(ticketId, AgentMessageEvent(request, user, r))];
        Outcome(Ok(JObj([Member("message", JStr("Message ajouté avec succès")),
                         Member("message_id", JStr(r.messageUuid)),
                         Member("ticket_status_updated", JBool(isNew))])),
                [stored] + takeOver + broadcast)
  }

  /** An agent message is stored first; a "nouveau" ticket, and only such a
      ticket, is then taken into "en cours"; the client is told of the
      message exactly when it is not internal, after any status write. */
  lemma AgentMessageRules(ticketId: string, request: AgentMessageCreate, read: Result<Json, HttpError>, user: Agent,
                          r: AgentReadings)
    requires Found(read).Ok? && Subscript(read.value, "status").Some?
    ensures AgentOutcome(ticketId, request, read, user, r).result.Ok?
    ensures AgentOutcome(ticketId, request, read, user, r).effects[0] == StoreMessage(ticketId, AgentMessage(request, user, r))
    ensures |AgentOutcome(ticketId, request, read, user, r).effects| ==
      1 + (if Subscript(read.value, "status") == Some(JStr("nouveau")) then 1 else 0) + (if request.internal then 0 else 1)
    ensures Subscript(read.value, "status") == Some(JStr("nouveau")) ==>
      AgentOutcome(ticketId, request, read, user, r).effects[1] == UpdateTicket(ticketId, TakeOver(user, r))
    ensures var e := AgentOutcome(ticketId, request, read, user, r).effects;
      forall k :: 0 <= k < |e| ==> e[k].UpdateTicket? ==> Subscript(read.value, "status") == Some(JStr("nouveau"))
    ensures var e := AgentOutcome(ticketId, request, read, user, r).effects;
      forall k :: 0 <= k < |e| ==> (e[k].Broadcast? <==> !request.internal && k == |e| - 1)
  {
    var o := AgentOutcome(ticketId, request, read, user, r);
    var stored := StoreMessage(ticketId, AgentMessage(request, user, r));
    var isNew := Subscript(read.value, "status") == Some(JStr("nouveau"));
    var takeOver := if isNew then [UpdateTicket(ticketId, TakeOver(user, r))] else [];
    var broadcast := if request.internal then [] else [Broadcast(ticketId, AgentMessageEvent(request, user, r))];
    assert o.effects == [stored] + takeOver + broadcast;
  }

  /** The status the take-over writes. */
  lemma TakeOverStatus(user: Agent, r: AgentReadings)
    ensures Lookup(TakeOver(user, r), "status") == Some(JStr("en cours"))
  {
  }

  // ================================================================ assign_ticket

  /** The readings of the clock an assignment makes. */
  datatype AssignReadings = AssignReadings(assignedAt: string, updatedAt: string)

  /** The status after a ticket is handled: "nouveau" becomes "en cours",
      any other status stays. */
  function Advance(status: Json): (r: Json)
    ensures status == JStr("nouveau") ==> r == JStr("en cours")
    ensures status != JStr("nouveau") ==> r == status
  {
    if status == JStr("nouveau") then JStr("en cours") else status
  }

  /** Advancing twice is advancing once. */
  lemma AdvanceIdempotent(status: Json)
    ensures Advance(Advance(status)) == Advance(status)
  {
    assert "en cours" != "nouveau";
  }

  function AssignFields(agentEmail: string, user: Agent, status: Json, r: AssignReadings): seq<Member> {
    [Member("assigned_to", JStr(agentEmail)), Member("assigned_at", JStr(r.assignedAt)),
     Member("assigned_by", JStr(user.email)), Member("status", Advance(status)),
     Member("updated_at", JStr(r.updatedAt))]
  }

  /** `assign_ticket`; the status is read before anything is written. */
  function AssignOutcome(ticketId: string, agentEmail: string, read: Result<Json, HttpError>, user: Agent,
                         r: AssignReadings): Outcome
  {
    match Found(read)
    case Err(e) => Outcome(Err(e), [])
    case Ok(ticket) =>
      match Subscript(ticket, "status")
      case None => Outcome(Err(InternalError), [])
      case Some(status) =>
        Outcome(Ok(JObj([Member("message", JStr("Ticket assigné à " + agentEmail)),
                         Member("ticket_id", JStr(ticketId)), Member("assigned_to", JStr(agentEmail))])),
                [UpdateTicket(ticketId, AssignFields(agentEmail, user, status, r)),
                 Broadcast(ticketId, JObj([Member("type", JStr("ticket_assigned")),
                                           Member("assigned_to", JStr(agentEmail))]))])
  }

  /** An assignment writes the assignee and the advanced status: "nouveau"
      becomes "en cours" and any other status is written back unchanged. */
  lemma AssignStatus(ticketId: string, agentEmail: string, read: Result<Json, HttpError>, user: Agent, r: AssignReadings)
    requires Found(read).Ok? && Subscript(read.value, "status").Some?
    ensures var o := AssignOutcome(ticketId, agentEmail, read, user, r);
      var status := Subscript(read.value, "status").value;
      && o.result.Ok? && |o.effects| == 2 && o.effects[0].UpdateTicket?
      && Lookup(o.effects[0].updates, "assigned_to") == Some(JStr(agentEmail))
      && Lookup(o.effects[0].updates, "status") == Some(if status == JStr("nouveau") then JStr("en cours") else status)
  {
    var status := Subscript(read.value, "status").value;
    LookupAt(AssignFields(agentEmail, user, status, r), "status", 3);
  }

  /** An agent message and an assignment agree on the status they leave a
      ticket in: "en cours" for a "nouveau" ticket, the same status otherwise. */
  lemma HandlingAgrees(ticketId: string, agentEmail: string, request: AgentMessageCreate, read: Result<Json, HttpError>,
                       user: Agent, ra: AgentReadings, rs: AssignReadings)
    requires Found(read).Ok? && Subscript(read.value, "status").Some?
    ensures var status := Subscript(read.value, "status").value;
      var agent := AgentOutcome(ticketId, request, read, user, ra).effects;
      var assign := AssignOutcome(ticketId, agentEmail, read, user, rs).effects;
      && (status == JStr("nouveau") ==> Lookup(agent[1].updates, "status") == Lookup(assign[0].updates, "status"))
      && (status != JStr("nouveau") ==>
            Lookup(assign[0].updates, "status") == Some(status) && forall k :: 0 <= k < |agent| ==> !agent[k].UpdateTicket?)
  {
    AgentMessageRules(ticketId, request, read, user, ra);
    AssignStatus(ticketId, agentEmail, read, user, rs);
    TakeOverStatus(user, ra);
  }

  // ================================================================ get_ticket_history

  /** One entry of the timeline. */
  datatype Event = Event(kind: string, timestamp: Json, description: string, data: Json)

  function EventJson(e: Event): Json {
    JObj([Member("type", JStr(e.kind)), Member("timestamp", e.timestamp),
          Member("description", JStr(e.description)), Member("data", e.data)])
  }

  /** Python's iteration over a value: the items of a list, the characters
      of a string, the keys of a dict; `None` for a value that cannot be
      iterated. */
  function Iterated(v: Json): Option<seq<Json>> {
    match v
    case JArr(items) => Some(items)
    case JStr(s) => Some(seq(|s|, i requires 0 <= i < |s| => JStr([s[i]])))
    case JObj(members) => Some(seq(|members|, i requires 0 <= i < |members| => JStr(members[i].key)))
    case _ => None
  }

  function CreatedEntry(ticket: Json, createdAt: Json): Event {
    Event("created", createdAt, "Ticket créé par " + PyStr(GetOr(ticket, "customer_name", JStr("Anonyme"))),
          JObj([Member("channel", Get(ticket, "channel")), Member("initial_message", Get(ticket, "initial_message"))]))
  }

  /** The entry of one stored message; `None` unless it is a dict holding a
      timestamp, an author, a content and a type. */
  function MessageEntry(msg: Json): Option<Event> {
    match (Subscript(msg, "timestamp"), Subscript(msg, "author"), Subscript(msg, "content"), Subscript(msg, "type"))
    case (Some(at), Some(author), Some(content), Some(kind)) =>
      Some(Event("message", at, "Message de " + PyStr(author),
                 JObj([Member("content", content), Member("type", kind),
                       Member("internal", GetOr(msg, "internal", JBool(false)))])))
    case _ => None
  }

  function AssignedEntry(ticket: Json, createdAt: Json): Event {
    Event("assigned", GetOr(ticket, "assigned_at", createdAt), "Assigné à " + PyStr(Get(ticket, "assigned_to")),
          JObj([Member("assigned_by", Get(ticket, "assigned_by"))]))
  }

  function ClosedEntry(ticket: Json): Event {
    Event("closed", Get(ticket, "closed_at"), "Fermé par " + PyStr(GetOr(ticket, "closed_by", JStr("Système"))),
          JObj([Member("resolution_time", Get(ticket, "resolution_time_seconds"))]))
  }

  /** The entries appended after the messages: the assignment when there
      is an assignee, then the close when there is a close time. */
  function ClosingEntries(ticket: Json, createdAt: Json): seq<Event> {
    (if Truthy(Get(ticket, "assigned_to")) then [AssignedEntry(ticket, createdAt)] else [])
    + (if Truthy(Get(ticket, "closed_at")) then [ClosedEntry(ticket)] else [])
  }

  function Assembled(ticket: Json, createdAt: Json, entries: seq<Event>): seq<Event> {
    [CreatedEntry(ticket, createdAt)] + entries + ClosingEntries(ticket, createdAt)
  }

  /** The entries in the order they are appended: the creation, one per
      stored message, then the closing entries; `None` when a read raises. */
  function Timeline(ticket: Json): Option<seq<Event>> {
    match Subscript(ticket, "created_at")
    case None => None
    case Some(createdAt) =>
      match Iterated(GetOr(ticket, "messages", JArr([])))
      case None => None
      case Some(msgs) =>
        match Seqs.MapAll(msgs, MessageEntry)
        case None => None
        case Some(entries) => Some(Assembled(ticket, createdAt, entries))
  }

  /** The assignment entry comes before the close entry, each present
      exactly when it happened. */
  lemma ClosingShape(ticket: Json, createdAt: Json)
    ensures var c := ClosingEntries(ticket, createdAt);
      var isAssigned := Truthy(Get(ticket, "assigned_to"));
      var isClosed := Truthy(Get(ticket, "closed_at"));
      && |c| == (if isAssigned then 1 else 0) + (if isClosed then 1 else 0)
      && (isAssigned ==> c[0].kind == "assigned")
      && (isClosed ==> c[|c| - 1].kind == "closed")
  {
  }

  /** The timeline has one entry for the creation, one per stored message,
      in stored order, and then the closing entries. */
  lemma TimelineCount(ticket: Json)
    requires Timeline(ticket).Some?
    ensures var es := Timeline(ticket).value;
      var msgs := Iterated(GetOr(ticket, "messages", JArr([]))).value;
      var createdAt := Subscript(ticket, "created_at").value;
      && |es| == 1 + |msgs| + |ClosingEntries(ticket, createdAt)|
      && es[0] == CreatedEntry(ticket, createdAt)
      && (forall k :: 1 <= k <= |msgs| ==> Some(es[k]) == MessageEntry(msgs[k - 1]))
      && es[1 + |msgs|..] == ClosingEntries(ticket, createdAt)
  {
    var msgs := Iterated(GetOr(ticket, "messages", JArr([]))).value;
    var createdAt := Subscript(ticket, "created_at").value;
    var entries := Seqs.MapAll(msgs, MessageEntry).value;
    Seqs.MapAllAt(msgs, MessageEntry);
    AssembledShape(ticket, createdAt, entries);
  }

  /** The assembled list is the creation entry, the given entries in order,
      then the closing entries. */
  lemma AssembledShape(ticket: Json, createdAt: Json, entries: seq<Event>)
    ensures var es := Assembled(ticket, createdAt, entries);
      && |es| == 1 + |entries| + |ClosingEntries(ticket, createdAt)|
      && es[0] == CreatedEntry(ticket, createdAt)
      && (forall k :: 1 <= k <= |entries| ==> es[k] == entries[k - 1])
      && es[1 + |entries|..] == ClosingEntries(ticket, createdAt)
  {
    Seqs.ConsConcat(CreatedEntry(ticket, createdAt), entries, ClosingEntries(ticket, createdAt));
  }

  /** The sort key: the entry's timestamp string. */
  function TimestampKey(e: Event): string {
    if e.timestamp.JStr? then e.timestamp.s else ""
  }

  predicate StringStamps(es: seq<Event>) {
    forall k :: 0 <= k < |es| ==> es[k].timestamp.JStr?
  }

  /** `history.sort(key=lambda x: x["timestamp"])`: a stable ascending sort
      on the timestamp strings; `None` when at least two entries are to be
      compared and one of the timestamps is not a string. */
  function SortedTimeline(es: seq<Event>): Option<seq<Event>> {
    if |es| < 2 then Some(es)
    else if StringStamps(es) then Some(StrOrder.SortBy(es, TimestampKey, false))
    else None
  }

  /** `get_ticket_history`. */
  function HistoryResult(read: Result<Json, HttpError>): Result<Json, HttpError> {
    match Found(read)
    case Err(e) => Err(e)
    case Ok(ticket) =>
      match Timeline(ticket)
      case None => Err(InternalError)
      case Some(es) =>
        match SortedTimeline(es)
        case None => Err(InternalError)
        case Some(sorted) => Ok(JArr(Seqs.Map(sorted, EventJson)))
  }

  /** A sort that succeeds orders the entries by ascending timestamp,
      keeps each entry as often as it occurs, and keeps entries with the
      same timestamp in the order they were appended. */
  lemma SortedTimelineOrders(es: seq<Event>)
    requires SortedTimeline(es).Some?
    ensures var sorted := SortedTimeline(es).value;
      && StrOrder.SortedBy(sorted, TimestampKey, false)
      && multiset(sorted) == multiset(es)
      && forall key :: StrOrder.WithKey(sorted, TimestampKey, key) == StrOrder.WithKey(es, TimestampKey, key)
  {
    if |es| >= 2 {
      StrOrder.SortBySorted(es, TimestampKey, false);
    }
  }

  /** When there are at least two entries, the sort fails exactly when one
      timestamp is not a string. */
  lemma SortedTimelineFails(es: seq<Event>)
    requires |es| >= 2
    ensures SortedTimeline(es).None? <==> exists k :: 0 <= k < |es| && !es[k].timestamp.JStr?
  {
  }

  /** The answer of a history that succeeds is the sorted timeline. */
  lemma HistorySorted(read: Result<Json, HttpError>)
    requires HistoryResult(read).Ok?
    ensures read.Ok? && Timeline(read.value).Some? && SortedTimeline(Timeline(read.value).value).Some?
    ensures HistoryResult(read).value == JArr(Seqs.Map(SortedTimeline(Timeline(read.value).value).value, EventJson))
  {
  }

  /** The loop of `get_ticket_history` over the stored messages: one entry
      per message, in order; `None` as soon as one message cannot be read. */
  method MessageEntries(msgs: seq<Json>) returns (entries: Option<seq<Event>>)
    ensures entries == Seqs.MapAll(msgs, MessageEntry)
  {
    var out: seq<Event> := [];
    var i: nat := 0;
    assert msgs[..0] == [];
    while i < |msgs|
      invariant i <= |msgs|
      invariant Seqs.MapAll(msgs[..i], MessageEntry) == Some(out)
    {
      var e := MessageEntry(msgs[i]);
      Seqs.MapAllStep(msgs, i, MessageEntry);
      if e.None? {
        Seqs.MapAllAt(msgs, MessageEntry);
        return None;
      }
      out := out + [e.value];
      i := i + 1;
    }
    assert msgs[..i] == msgs;
    return Some(out);
  }

  /** `get_ticket_history`: the timeline is built by appends, then sorted. */
  method TicketHistory(read: Result<Json, HttpError>) returns (r: Result<Json, HttpError>)
    ensures r == HistoryResult(read)
  {
    var found := Found(read);
    if found.Err? {
      return Err(found.error);
    }
    var ticket := found.value;
    var createdAt := Subscript(ticket, "created_at");
    if createdAt.None? {
      return Err(InternalError);
    }
    var msgs := Iterated(GetOr(ticket, "messages", JArr([])));
    if msgs.None? {
      return Err(InternalError);
    }
    var entries := MessageEntries(msgs.value);
    if entries.None? {
      return Err(InternalError);
    }
    var history := [CreatedEntry(ticket, createdAt.value)] + entries.value;
    if Truthy(Get(ticket, "assigned_to")) {
      history := history + [AssignedEntry(ticket, createdAt.value)];
    }
    if Truthy(Get(ticket, "closed_at")) {
      history := history + [ClosedEntry(ticket)];
    }
    assert history == Assembled(ticket, createdAt.value, entries.value);
    var sorted := SortedTimeline(history);
    if sorted.None? {
      return Err(InternalError);
    }
    r := Ok(JArr(Seqs.Map(sorted.value, EventJson)));
  }

  // ================================================================ the router

  /** The router, with the storage writes and broadcasts it has asked for. */
  class PrivateRouter {
    var effects: seq<Effect>

    constructor ()
      ensures effects == []
    {
      effects := [];
    }

    /** `update_ticket`. */
    method Edit(ticketId: string, updates: seq<Member>, read: Result<Json, HttpError>, user: Agent,
                r: EditReadings, stored: Json) returns (result: Result<Json, HttpError>)
      modifies this
      ensures effects == old(effects) + EditOutcome(ticketId, updates, read, user, r, stored).effects
      ensures result == EditOutcome(ticketId, updates, read, user, r, stored).result
    {
      var found := Found(read);
      if found.Err? {
        return Err(found.error);
      }
      var u := EditUpdates(updates, found.value, user, r);
      if u.None? {
        return Err(InternalError);
      }
      effects := effects + [UpdateTicket(ticketId, u.value)];
      effects := effects + [Broadcast(ticketId, TicketUpdateEvent(stored))];
      Seqs.AppendTwo(old(effects), UpdateTicket(ticketId, u.value), Broadcast(ticketId, TicketUpdateEvent(stored)));
      result := Ok(stored);
    }

    /** `add_agent_message`. */
    method AddAgentMessage(ticketId: string, request: AgentMessageCreate, read: Result<Json, HttpError>, user: Agent,
                           r: AgentReadings) returns (result: Result<Json, HttpError>)
      modifies this
      ensures effects == old(effects) + AgentOutcome(ticketId, request, read, user, r).effects
      ensures result == AgentOutcome(ticketId, request, read, user, r).result
    {
      var found := Found(read);
      if found.Err? {
        return Err(found.error);
      }
      var message := AgentMessage(request, user, r);
      effects := effects + [StoreMessage(ticketId, message)];
      var status := Subscript(found.value, "status");
      if status.None? {
        return Err(InternalError);
      }
      var isNew := status.value == JStr("nouveau");
      if isNew {
        effects := effects + [UpdateTicket(ticketId, TakeOver(user, r))];
      }
      if !request.internal {
        effects := effects + [Broadcast(ticketId, AgentMessageEvent(request, user, r))];
      }
      result := Ok(JObj([Member("message", JStr("Message ajouté avec succès")),
                         Member("message_id", JStr(r.messageUuid)),
                         Member("ticket_status_updated", JBool(isNew))]));
    }

    /** `assign_ticket`. */
    method Assign(ticketId: string, agentEmail: string, read: Result<Json, HttpError>, user: Agent,
                  r: AssignReadings) returns (result: Result<Json, HttpError>)
      modifies this
      ensures effects == old(effects) + AssignOutcome(ticketId, agentEmail, read, user, r).effects
      ensures result == AssignOutcome(ticketId, agentEmail, read, user, r).result
    {
      var found := Found(read);
      if found.Err? {
        return Err(found.error);
      }
      var status := Subscript(found.value, "status");
      if status.None? {
        return Err(InternalError);
      }
      var update := UpdateTicket(ticketId, AssignFields(agentEmail, user, status.value, r));
      var event := Broadcast(ticketId, JObj([Member("type", JStr("ticket_assigned")), Member("assigned_to", JStr(agentEmail))]));
      effects := effects + [update];
      effects := effects + [event];
      Seqs.AppendTwo(old(effects), update, event);
      result := Ok(JObj([Member("message", JStr("Ticket assigné à " + agentEmail)),
                         Member("ticket_id", JStr(ticketId)), Member("assigned_to", JStr(agentEmail))]));
    }
  }
}
