/**
  The file-backed ticket store of backend/app/services/storage/json_store.py.
  The file holds one JSON object from ticket id to ticket; every operation
  loads it, works on the loaded dict and writes it back, so the model keeps
  that object as the store's state (an ordered member list, as Python's
  dict keeps insertion order). Timestamp parsing is an oracle `parseTime`
  giving microseconds.
*/
module JsonStore {
  import opened Wrappers
  import opened JsonValue
  import opened Http
  import StrOrder
  import Seqs

  const NotFound := HttpError(404, JStr("Ticket non trouvé"))

  // ================================================================ tickets

  /** `created_at` is absent or a string, so that listing can compare it. */
  predicate CreatedAtOk(t: Json) {
    t.JObj? && (Lookup(t.members, "created_at").None? || Lookup(t.members, "created_at").value.JStr?)
  }

  ghost predicate WellFormed(t: Json) {
    t.JObj? && DistinctKeys(t.members) && CreatedAtOk(t)
  }

  /** `ticket["ticket_id"]`, when it is a string. */
  function TicketId(t: Json): Option<string> {
    if t.JObj? && Lookup(t.members, "ticket_id").Some? && Lookup(t.members, "ticket_id").value.JStr?
    then Some(Lookup(t.members, "ticket_id").value.s)
    else None
  }

  /** The sort key `t.get("created_at", "")`. */
  function CreatedKey(t: Json): string {
    match GetOr(t, "created_at", JStr(""))
    case JStr(s) => s
    case _ => ""
  }

  ghost predicate StoreInv(ts: seq<Member>) {
    DistinctKeys(ts) && forall i :: 0 <= i < |ts| ==> WellFormed(ts[i].value)
  }

  // ================================================================ get, exists

  function GetSpec(ts: seq<Member>, id: string): (r: Result<Json, HttpError>)
    ensures r.Err? <==> id !in KeysOf(ts)
    ensures r.Err? ==> r.error == NotFound
  {
    LookupKeys(ts, id);
    match Lookup(ts, id)
    case None => Err(NotFound)
    case Some(t) => Ok(t)
  }

  /** A saved ticket is read back; other ids read as before; saving the same
      id again overwrites. */
  lemma SaveThenGet(ts: seq<Member>, id: string, t: Json, other: string, t2: Json)
    ensures GetSpec(SetKey(ts, id, t), id) == Ok(t)
    ensures other != id ==> GetSpec(SetKey(ts, id, t), other) == GetSpec(ts, other)
    ensures SetKey(SetKey(ts, id, t), id, t2) == SetKey(ts, id, t2)
  {
    SetKeyTwice(ts, id, t, t2);
  }

  lemma SaveKeepsInv(ts: seq<Member>, id: string, t: Json)
    requires StoreInv(ts) && WellFormed(t)
    ensures StoreInv(SetKey(ts, id, t))
  {
    SetKeyDistinct(ts, id, t);
    var r := SetKey(ts, id, t);
    forall i | 0 <= i < |r| ensures WellFormed(r[i].value) {
      LookupDistinct(r, i);
      if r[i].key != id {
        LookupFound(ts, r[i].key);
        var j :| 0 <= j < |ts| && ts[j].key == r[i].key && ts[j].value == Lookup(ts, r[i].key).value;
      }
    }
  }

  // ================================================================ list

  datatype Filters = Filters(status: Option<string>, channel: Option<string>,
                             dateFrom: Option<string>, dateTo: Option<string>)

  /** `if f:` on an optional string: set and non-empty. */
  predicate Active(f: Option<string>) {
    f.Some? && f.value != ""
  }

  predicate StatusIs(t: Json, s: string) { Get(t, "status") == JStr(s) }
  predicate ChannelIs(t: Json, c: string) { Get(t, "channel") == JStr(c) }
  predicate CreatedFrom(t: Json, d: string) { StrOrder.LessEq(d, CreatedKey(t)) }
  predicate CreatedTo(t: Json, d: string) { StrOrder.LessEq(CreatedKey(t), d) }

  predicate StatusOk(t: Json, f: Filters) { Active(f.status) ==> StatusIs(t, f.status.value) }
  predicate ChannelOk(t: Json, f: Filters) { Active(f.channel) ==> ChannelIs(t, f.channel.value) }
  predicate FromOk(t: Json, f: Filters) { Active(f.dateFrom) ==> CreatedFrom(t, f.dateFrom.value) }
  predicate ToOk(t: Json, f: Filters) { Active(f.dateTo) ==> CreatedTo(t, f.dateTo.value) }

  /** The ticket passes every active filter. */
  predicate Matches(t: Json, f: Filters) {
    StatusOk(t, f) && ChannelOk(t, f) && FromOk(t, f) && ToOk(t, f)
  }

  // The four successive comprehensions of `list_tickets`, each applied only
  // when its filter is active.
  function ByStatus(s: seq<Json>, f: Filters): seq<Json> {
    if Active(f.status) then Seqs.Filter(s, t => StatusOk(t, f)) else s
  }
  function ByChannel(s: seq<Json>, f: Filters): seq<Json> {
    if Active(f.channel) then Seqs.Filter(s, t => ChannelOk(t, f)) else s
  }
  function ByDateFrom(s: seq<Json>, f: Filters): seq<Json> {
    if Active(f.dateFrom) then Seqs.Filter(s, t => FromOk(t, f)) else s
  }
  function ByDateTo(s: seq<Json>, f: Filters): seq<Json> {
    if Active(f.dateTo) then Seqs.Filter(s, t => ToOk(t, f)) else s
  }

  function FilterAll(all: seq<Json>, f: Filters): seq<Json> {
    ByDateTo(ByDateFrom(ByChannel(ByStatus(all, f), f), f), f)
  }

  /** `list_tickets(status, channel, date_from, date_to)`. */
  function ListSpec(ts: seq<Member>, f: Filters): seq<Json> {
    StrOrder.SortBy(FilterAll(ValuesOf(ts), f), CreatedKey, true)
  }

  /** One more comprehension on an already filtered list is one filter by the
      conjunction (an inactive filter lets everything through). */
  lemma FilterStep(s: seq<Json>, on: bool, p: Json -> bool, acc: Json -> bool, next: Json -> bool)
    requires forall t :: next(t) == (acc(t) && p(t))
    requires !on ==> forall t :: p(t)
    ensures (if on then Seqs.Filter(Seqs.Filter(s, acc), p) else Seqs.Filter(s, acc)) == Seqs.Filter(s, next)
  {
    Seqs.FilterFilter(s, acc, p, next);
    if !on {
      Seqs.FilterAll(Seqs.Filter(s, acc), p);
    }
  }

  /** The successive comprehensions are one filter by `Matches`. */
  lemma FilterAllIsMatches(all: seq<Json>, f: Filters)
    ensures FilterAll(all, f) == Seqs.Filter(all, t => Matches(t, f))
  {
    var p0: Json -> bool := t => true;
    var p1: Json -> bool := t => StatusOk(t, f);
    var p2: Json -> bool := t => StatusOk(t, f) && ChannelOk(t, f);
    var p3: Json -> bool := t => StatusOk(t, f) && ChannelOk(t, f) && FromOk(t, f);
    var p4: Json -> bool := t => Matches(t, f);
    Seqs.FilterAll(all, p0);
    FilterStep(all, Active(f.status), t => StatusOk(t, f), p0, p1);
    FilterStep(all, Active(f.channel), t => ChannelOk(t, f), p1, p2);
    FilterStep(all, Active(f.dateFrom), t => FromOk(t, f), p2, p3);
    FilterStep(all, Active(f.dateTo), t => ToOk(t, f), p3, p4);
  }

  /** Every listed ticket passes every active filter; every stored ticket that
      passes them is listed, as many times as it is stored; the list is sorted
      by `created_at`, most recent first, ties in storage order. */
  lemma ListCorrect(ts: seq<Member>, f: Filters)
    ensures var r := ListSpec(ts, f);
      && (forall i :: 0 <= i < |r| ==> Matches(r[i], f) && r[i] in ValuesOf(ts))
      && (forall t :: multiset(r)[t] == if Matches(t, f) then multiset(ValuesOf(ts))[t] else 0)
      && StrOrder.SortedBy(r, CreatedKey, true)
      && (forall k :: StrOrder.WithKey(r, CreatedKey, k) == StrOrder.WithKey(FilterAll(ValuesOf(ts), f), CreatedKey, k))
  {
    var all := ValuesOf(ts);
    var kept := FilterAll(all, f);
    FilterAllIsMatches(all, f);
    StrOrder.SortBySorted(kept, CreatedKey, true);
    var r := ListSpec(ts, f);
    forall t ensures multiset(r)[t] == if Matches(t, f) then multiset(all)[t] else 0 {
      Seqs.FilterMultiset(all, t => Matches(t, f), t);
    }
    forall i | 0 <= i < |r| ensures Matches(r[i], f) && r[i] in all {
      assert r[i] in multiset(r);
      assert r[i] in multiset(kept);
      assert r[i] in kept;
    }
  }

  // ================================================================ status update

  /** `int((closed - created).total_seconds())` for a difference in
      microseconds: truncation toward zero. */
  function TruncSeconds(micros: int): (r: int)
    ensures micros >= 0 ==> 0 <= r * 1_000_000 <= micros < (r + 1) * 1_000_000
    ensures micros < 0 ==> (r - 1) * 1_000_000 < micros <= r * 1_000_000 <= 0
  {
    if micros >= 0 then micros / 1_000_000 else -((-micros) / 1_000_000)
  }

  /** The resolution time, when `created_at` is a string and both times parse. */
  function Duration(m: seq<Member>, closedAt: string, parseTime: string -> Option<int>): Option<int> {
    match Lookup(m, "created_at")
    case Some(JStr(c)) =>
      if parseTime(c).Some? && parseTime(closedAt).Some?
      then Some(TruncSeconds(parseTime(closedAt).value - parseTime(c).value))
      else None
    case _ => None
  }

  predicate Closing(status: string, closedAt: Option<string>) {
    status == "fermé" && closedAt.Some? && closedAt.value != ""
  }

  predicate Reopening(m: seq<Member>, status: string) {
    status == "en cours" && Lookup(m, "status").GetOr(JNull) == JStr("fermé")
  }

  /** The close step: `closed_at` is recorded, and the duration when known. */
  function CloseStep(m: seq<Member>, closedAt: string, d: Option<int>): (r: seq<Member>)
    ensures Lookup(r, "closed_at") == Some(JStr(closedAt))
    ensures Lookup(r, "resolution_duration") == if d.Some? then Some(JInt(d.value)) else Lookup(m, "resolution_duration")
    ensures forall k :: k != "closed_at" && k != "resolution_duration" ==> Lookup(r, k) == Lookup(m, k)
  {
    var c := SetKey(m, "closed_at", JStr(closedAt));
    if d.Some? then SetKey(c, "resolution_duration", JInt(d.value)) else c
  }

  /** The reopen step: `closed_at` and `resolution_duration` become null. */
  function ReopenStep(m: seq<Member>): (r: seq<Member>)
    ensures Lookup(r, "closed_at") == Some(JNull) && Lookup(r, "resolution_duration") == Some(JNull)
    ensures forall k :: k != "closed_at" && k != "resolution_duration" ==> Lookup(r, k) == Lookup(m, k)
  {
    SetKey(SetKey(m, "closed_at", JNull), "resolution_duration", JNull)
  }

  /** The ticket after `update_ticket_status` has worked on it. */
  function UpdateTicket(m: seq<Member>, status: string, closedAt: Option<string>,
                        parseTime: string -> Option<int>): seq<Member>
  {
    var m1 := SetKey(m, "status", JStr(status));
    var m2 := if Closing(status, closedAt) then CloseStep(m1, closedAt.value, Duration(m, closedAt.value, parseTime)) else m1;
    if Reopening(m, status) then ReopenStep(m2) else m2
  }

  /** What the update does to each field: the status is set; a close with a
      timestamp records it and, when both times parse, the duration; a reopen
      of a closed ticket clears both; nothing else changes. The two branches
      cannot both apply, as they ask for different statuses. */
  lemma UpdateFields(m: seq<Member>, status: string, closedAt: Option<string>,
                     parseTime: string -> Option<int>, k: string)
    ensures var r := UpdateTicket(m, status, closedAt, parseTime);
      && Lookup(r, "status") == Some(JStr(status))
      && (Closing(status, closedAt) ==>
            Lookup(r, "closed_at") == Some(JStr(closedAt.value))
            && Lookup(r, "resolution_duration") ==
                 match Duration(m, closedAt.value, parseTime)
                 case Some(d) => Some(JInt(d))
                 case None => Lookup(m, "resolution_duration"))
      && (Reopening(m, status) ==>
            Lookup(r, "closed_at") == Some(JNull) && Lookup(r, "resolution_duration") == Some(JNull))
      && (!Closing(status, closedAt) && !Reopening(m, status) ==>
            Lookup(r, "closed_at") == Lookup(m, "closed_at")
            && Lookup(r, "resolution_duration") == Lookup(m, "resolution_duration"))
      && (k != "status" && k != "closed_at" && k != "resolution_duration" ==> Lookup(r, k) == Lookup(m, k))
  {
  }

  lemma UpdateKeepsWellFormed(m: seq<Member>, status: string, closedAt: Option<string>,
                              parseTime: string -> Option<int>)
    requires WellFormed(JObj(m))
    ensures WellFormed(JObj(UpdateTicket(m, status, closedAt, parseTime)))
  {
    var m1 := SetKey(m, "status", JStr(status));
    SetKeyDistinct(m, "status", JStr(status));
    var m2 := m1;
    if Closing(status, closedAt) {
      var c := SetKey(m1, "closed_at", JStr(closedAt.value));
      SetKeyDistinct(m1, "closed_at", JStr(closedAt.value));
      var d := Duration(m, closedAt.value, parseTime);
      if d.Some? {
        SetKeyDistinct(c, "resolution_duration", JInt(d.value));
      }
      m2 := CloseStep(m1, closedAt.value, d);
    }
    if Reopening(m, status) {
      SetKeyDistinct(m2, "closed_at", JNull);
      SetKeyDistinct(SetKey(m2, "closed_at", JNull), "resolution_duration", JNull);
    }
    UpdateFields(m, status, closedAt, parseTime, "created_at");
  }

  datatype UpdateOut = UpdateOut(result: Result<Json, HttpError>, tickets: seq<Member>)

  /** `update_ticket_status(ticket_id, status, closed_at)` on the stored object. */
  function UpdateSpec(ts: seq<Member>, id: string, status: string, closedAt: Option<string>,
                      parseTime: string -> Option<int>): (out: UpdateOut)
    ensures id !in KeysOf(ts) ==> out == UpdateOut(Err(NotFound), ts)
  {
    LookupKeys(ts, id);
    match Lookup(ts, id)
    case None => UpdateOut(Err(NotFound), ts)
    case Some(t) =>
      var u := JObj(UpdateTicket(if t.JObj? then t.members else [], status, closedAt, parseTime));
      UpdateOut(Ok(u), SetKey(ts, id, u))
  }

  lemma UpdateKeepsInv(ts: seq<Member>, id: string, status: string, closedAt: Option<string>,
                       parseTime: string -> Option<int>)
    requires StoreInv(ts)
    ensures StoreInv(UpdateSpec(ts, id, status, closedAt, parseTime).tickets)
  {
    if Lookup(ts, id).Some? {
      LookupFound(ts, id);
      var j :| 0 <= j < |ts| && ts[j].key == id && ts[j].value == Lookup(ts, id).value;
      var t := ts[j].value;
      UpdateKeepsWellFormed(t.members, status, closedAt, parseTime);
      SaveKeepsInv(ts, id, JObj(UpdateTicket(t.members, status, closedAt, parseTime)));
    }
  }

  // ================================================================ the store

  class JsonStorage {
    /** The object in the tickets file (empty while the file does not exist). */
    var tickets: seq<Member>

    ghost predicate Valid()
      reads this
    {
      StoreInv(tickets)
    }

    constructor ()
      ensures Valid() && tickets == []
    {
      tickets := [];
    }

    /** `save_ticket(ticket)`. */
    method SaveTicket(ticket: Json)
      requires Valid() && WellFormed(ticket) && TicketId(ticket).Some?
      modifies this
      ensures Valid() && tickets == SetKey(old(tickets), TicketId(ticket).value, ticket)
    {
      SaveKeepsInv(tickets, TicketId(ticket).value, ticket);
      tickets := SetKey(tickets, TicketId(ticket).value, ticket);
    }

    /** `get_ticket(ticket_id)`. */
    method GetTicket(id: string) returns (r: Result<Json, HttpError>)
      ensures r == GetSpec(tickets, id)
    {
      var found := Lookup(tickets, id);
      if found.None? {
        return Err(NotFound);
      }
      return Ok(found.value);
    }

    /** `list_tickets(...)`: the filters one after another, then the sort. */
    method ListTickets(f: Filters) returns (r: seq<Json>)
      ensures r == ListSpec(tickets, f)
      ensures forall i :: 0 <= i < |r| ==> Matches(r[i], f)
      ensures StrOrder.SortedBy(r, CreatedKey, true)
    {
      r := ValuesOf(tickets);
      r := ByStatus(r, f);
      r := ByChannel(r, f);
      r := ByDateFrom(r, f);
      r := ByDateTo(r, f);
      r := StrOrder.SortBy(r, CreatedKey, true);
      ListCorrect(tickets, f);
    }

    /** `update_ticket_status(ticket_id, status, closed_at)`. */
    method UpdateTicketStatus(id: string, status: string, closedAt: Option<string>, parseTime: string -> Option<int>)
      returns (r: Result<Json, HttpError>)
      requires Valid()
      modifies this
      ensures Valid()
      ensures var out := UpdateSpec(old(tickets), id, status, closedAt, parseTime);
        r == out.result && tickets == out.tickets
    {
      UpdateKeepsInv(tickets, id, status, closedAt, parseTime);
      var found := Lookup(tickets, id);
      if found.None? {
        return Err(NotFound);
      }
      var m := if found.value.JObj? then found.value.members else [];
      var oldStatus := Lookup(m, "status").GetOr(JNull);
      var u := SetKey(m, "status", JStr(status));
      if status == "fermé" && closedAt.Some? && closedAt.value != "" {
        u := CloseStep(u, closedAt.value, Duration(m, closedAt.value, parseTime));
      }
      if status == "en cours" && oldStatus == JStr("fermé") {
        u := ReopenStep(u);
      }
      tickets := SetKey(tickets, id, JObj(u));
      return Ok(JObj(u));
    }

    /** `ticket_exists(ticket_id)`. */
    method TicketExists(id: string) returns (b: bool)
      ensures b <==> id in KeysOf(tickets)
    {
      LookupKeys(tickets, id);
      b := Lookup(tickets, id).Some?;
    }
  }
}
