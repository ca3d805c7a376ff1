/**
  The DynamoDB ticket store of backend/app/services/storage/dynamodb_store.py.
  The table is kept in memory as an ordered list of items keyed by ticket id.
  Every boto3 call is an oracle `outcomes` that says, attempt by attempt,
  whether the call goes through or which error it raises; a call that goes
  through reads or changes the in-memory table. Read back through
  `decimal_to_float`, the table is a JSON store's object, and every
  operation then agrees with the same operation of the JSON store.
*/
module DynamoStore {
  import opened Wrappers
  import opened JsonValue
  import opened Http
  import StrOrder
  import Seqs
  import Text
  import JsonStore

  // ================================================================ items and conversions

  /** A value as boto3 stores it: numbers are `Decimal`, of which only the
      integral ones are modelled. */
  datatype Item =
    | INull
    | IBool(b: bool)
    | IDecimal(n: int)
    | IStr(s: string)
    | IList(items: seq<Item>)
    | IMap(attrs: seq<Attr>)

  datatype Attr = Attr(name: string, value: Item)

  /** `float_to_decimal`: every `int` becomes a `Decimal`, and a `bool`
      (which Python counts as an `int`) stays a `bool`. */
  function FloatToDecimal(v: Json): (r: Item)
    ensures r.IDecimal? <==> v.JInt?
    ensures r.IBool? <==> v.JBool?
    decreases v
  {
    match v
    case JNull => INull
    case JBool(b) => IBool(b)
    case JInt(i) => IDecimal(i)
    case JStr(s) => IStr(s)
    case JArr(items) => IList(seq(|items|, k requires 0 <= k < |items| => FloatToDecimal(items[k])))
    case JObj(members) =>
      IMap(seq(|members|, k requires 0 <= k < |members| => Attr(members[k].key, FloatToDecimal(members[k].value))))
  }

  /** `decimal_to_float`: an integral `Decimal` becomes an `int`. */
  function DecimalToFloat(x: Item): (r: Json)
    decreases x
  {
    match x
    case INull => JNull
    case IBool(b) => JBool(b)
    case IDecimal(n) => JInt(n)
    case IStr(s) => JStr(s)
    case IList(items) => JArr(seq(|items|, k requires 0 <= k < |items| => DecimalToFloat(items[k])))
    case IMap(attrs) =>
      JObj(seq(|attrs|, k requires 0 <= k < |attrs| => Member(attrs[k].name, DecimalToFloat(attrs[k].value))))
  }

  /** A float-free value comes back unchanged from the table. */
  lemma {:induction false} DecimalRoundTrip(v: Json)
    ensures DecimalToFloat(FloatToDecimal(v)) == v
    decreases v
  {
    match v
    case JArr(items) =>
      forall k | 0 <= k < |items| ensures DecimalToFloat(FloatToDecimal(items[k])) == items[k] {
        DecimalRoundTrip(items[k]);
      }
    case JObj(members) =>
      forall k | 0 <= k < |members| ensures DecimalToFloat(FloatToDecimal(members[k].value)) == members[k].value {
        DecimalRoundTrip(members[k].value);
      }
    case _ =>
  }

  /** An integral item survives the way back to the table unchanged. */
  lemma {:induction false} ItemRoundTrip(x: Item)
    ensures FloatToDecimal(DecimalToFloat(x)) == x
    decreases x
  {
    match x
    case IList(items) =>
      forall k | 0 <= k < |items| ensures FloatToDecimal(DecimalToFloat(items[k])) == items[k] {
        ItemRoundTrip(items[k]);
      }
    case IMap(attrs) =>
      forall k | 0 <= k < |attrs| ensures FloatToDecimal(DecimalToFloat(attrs[k].value)) == attrs[k].value {
        ItemRoundTrip(attrs[k].value);
      }
    case _ =>
  }

  /** The members of an item's attribute list, read back. */
  function Members(attrs: seq<Attr>): seq<Member> {
    DecimalToFloat(IMap(attrs)).members
  }

  // ================================================================ attribute lists

  /** The value stored under `k`, if any. */
  function AttrLookup(attrs: seq<Attr>, k: string): Option<Item> {
    if attrs == [] then None
    else if attrs[0].name == k then Some(attrs[0].value)
    else AttrLookup(attrs[1..], k)
  }

  /** Put `k` to `x`: an existing attribute keeps its place, a new one goes last. */
  function SetAttr(attrs: seq<Attr>, k: string, x: Item): seq<Attr> {
    if attrs == [] then [Attr(k, x)]
    else if attrs[0].name == k then [Attr(k, x)] + attrs[1..]
    else [attrs[0]] + SetAttr(attrs[1..], k, x)
  }

  /** Reading back commutes with lookup. */
  lemma {:induction false} LookupConverted(attrs: seq<Attr>, k: string)
    ensures Lookup(Members(attrs), k) == match AttrLookup(attrs, k)
                                         case None => None
                                         case Some(x) => Some(DecimalToFloat(x))
  {
    if attrs != [] && attrs[0].name != k {
      LookupConverted(attrs[1..], k);
      assert Members(attrs)[1..] == Members(attrs[1..]);
    }
  }

  /** Reading back commutes with assignment. */
  lemma {:induction false} SetAttrConverted(attrs: seq<Attr>, k: string, x: Item)
    ensures Members(SetAttr(attrs, k, x)) == SetKey(Members(attrs), k, DecimalToFloat(x))
  {
    if attrs != [] {
      var a, rest := attrs[0], attrs[1..];
      assert attrs == [a] + rest;
      MembersCons(a, rest);
      if a.name == k {
        MembersCons(Attr(k, x), rest);
      } else {
        SetAttrConverted(rest, k, x);
        MembersCons(a, SetAttr(rest, k, x));
      }
    }
  }

  /** Reading back an attribute list one attribute at a time. */
  lemma MembersCons(a: Attr, rest: seq<Attr>)
    ensures Members([a] + rest) == [Member(a.name, DecimalToFloat(a.value))] + Members(rest)
  {
    assert Members([a] + rest)[1..] == Members(rest);
  }

  /** Storing a converted value is storing the value. */
  lemma SaveConverted(table: seq<Attr>, id: string, t: Json)
    ensures Members(SetAttr(table, id, FloatToDecimal(t))) == SetKey(Members(table), id, t)
  {
    SetAttrConverted(table, id, FloatToDecimal(t));
    DecimalRoundTrip(t);
  }

  /** `item.get(k)`, for an item that is a map. */
  function ItemAttr(x: Item, k: string): Option<Item> {
    if x.IMap? then AttrLookup(x.attrs, k) else None
  }

  // ================================================================ _retry_operation

  /** What one boto3 call does: return a value, or raise. */
  datatype OpOutcome<T> = Success(value: T) | ClientError(code: string) | BotoCoreError | OtherError

  /** How `_retry_operation` fails: the `ClientError` itself re-raised, an
      `HTTPException`, or an exception of another kind left uncaught. */
  datatype Failure = Reraised(code: string) | Raised(error: HttpError) | Uncaught

  /** The throttling errors that are retried. */
  predicate Throttled<T>(o: OpOutcome<T>) {
    o.ClientError? && (o.code == "ProvisionedThroughputExceededException" || o.code == "ThrottlingException")
  }

  /** The result of a call that is not retried. */
  function Verdict<T>(o: OpOutcome<T>): Result<T, Failure>
    requires !Throttled(o)
  {
    match o
    case Success(v) => Ok(v)
    case ClientError(code) =>
      if code == "ResourceNotFoundException" || code == "ValidationException" then Err(Reraised(code))
      else Err(Raised(HttpError(500, JStr("Database error: " + code))))
    case BotoCoreError => Err(Raised(HttpError(500, JStr("Database connection error"))))
    case OtherError => Err(Uncaught)
  }

  const FailedAfterRetries := HttpError(500, JStr("Database operation failed after retries"))

  /** The result and the number of calls made. */
  datatype RetryOut<T> = RetryOut(result: Result<T, Failure>, calls: nat)

  /** `_retry_operation` from attempt `attempt` on. */
  function RetryFrom<T>(maxRetries: int, outcomes: nat -> OpOutcome<T>, attempt: nat): (r: RetryOut<T>)
    ensures r.calls <= (if attempt < maxRetries then maxRetries else attempt)
    ensures r.result.Ok? ==> attempt < r.calls && outcomes(r.calls - 1) == Success(r.result.value)
    decreases maxRetries - attempt
  {
    if attempt >= maxRetries then RetryOut(Err(Raised(FailedAfterRetries)), attempt)
    else if Throttled(outcomes(attempt)) then RetryFrom(maxRetries, outcomes, attempt + 1)
    else RetryOut(Verdict(outcomes(attempt)), attempt + 1)
  }

  /** The first outcome that is not a throttle decides the result, after
      exactly that many calls; when all `max_retries` calls are throttled,
      the operation fails after retries. */
  lemma {:induction false} RetryDecided<T>(maxRetries: int, outcomes: nat -> OpOutcome<T>, attempt: nat)
    ensures (forall j :: attempt <= j < maxRetries ==> Throttled(outcomes(j))) ==>
      RetryFrom(maxRetries, outcomes, attempt)
        == RetryOut(Err(Raised(FailedAfterRetries)), if attempt < maxRetries then maxRetries else attempt)
    ensures forall j :: attempt <= j < maxRetries && !Throttled(outcomes(j))
                        && (forall l :: attempt <= l < j ==> Throttled(outcomes(l))) ==>
      RetryFrom(maxRetries, outcomes, attempt) == RetryOut(Verdict(outcomes(j)), j + 1)
    decreases maxRetries - attempt
  {
    if attempt < maxRetries {
      RetryDecided(maxRetries, outcomes, attempt + 1);
      forall j | attempt <= j < maxRetries && !Throttled(outcomes(j))
                 && (forall l :: attempt <= l < j ==> Throttled(outcomes(l)))
        ensures RetryFrom(maxRetries, outcomes, attempt) == RetryOut(Verdict(outcomes(j)), j + 1)
      {
        if j > attempt {
          assert Throttled(outcomes(attempt));
        }
      }
    }
  }

  /** The `HTTPException` an operation raises for a failed call: an
      `HTTPException` passes through, anything else becomes a 500 with the
      operation's own message. */
  function Surface(f: Failure, detail: string): HttpError {
    match f
    case Raised(e) => e
    case _ => HttpError(500, JStr(detail))
  }

  // ================================================================ get

  /** `get_ticket(ticket_id)`, given how its `get_item` call went. */
  function GetSpec(table: seq<Attr>, id: string, got: Result<(), Failure>): Result<Json, HttpError> {
    if got.Err? then Err(Surface(got.error, "Failed to retrieve ticket"))
    else match AttrLookup(table, id)
      case None => Err(JsonStore.NotFound)
      case Some(x) => Ok(DecimalToFloat(x))
  }

  /** When the call goes through, reading a ticket is reading it from the
      JSON store the table reads back as. */
  lemma GetAgrees(table: seq<Attr>, id: string)
    ensures GetSpec(table, id, Ok(())) == JsonStore.GetSpec(Members(table), id)
  {
    LookupConverted(table, id);
  }

  /** A ticket exists exactly when the JSON store has its id. */
  lemma ExistsAgrees(table: seq<Attr>, id: string)
    ensures AttrLookup(table, id).Some? <==> id in KeysOf(Members(table))
  {
    LookupConverted(table, id);
    LookupKeys(Members(table), id);
  }

  // ================================================================ list

  /** The item's string attribute `k` is `s`. */
  predicate HasStr(x: Item, k: string, s: string) {
    ItemAttr(x, k) == Some(IStr(s))
  }

  /** The sort key `t.get("created_at", "")`. */
  function CreatedKey(x: Item): string {
    match ItemAttr(x, "created_at")
    case Some(IStr(c)) => c
    case _ => ""
  }

  predicate StatusOk(x: Item, f: JsonStore.Filters) {
    JsonStore.Active(f.status) ==> HasStr(x, "status", f.status.value)
  }
  predicate ChannelOk(x: Item, f: JsonStore.Filters) {
    JsonStore.Active(f.channel) ==> HasStr(x, "channel", f.channel.value)
  }
  predicate FromOk(x: Item, f: JsonStore.Filters) {
    JsonStore.Active(f.dateFrom) ==> StrOrder.LessEq(f.dateFrom.value, CreatedKey(x))
  }
  predicate ToOk(x: Item, f: JsonStore.Filters) {
    JsonStore.Active(f.dateTo) ==> StrOrder.LessEq(CreatedKey(x), f.dateTo.value)
  }

  function AttrValue(a: Attr): Item { a.value }

  /** The index query (by status, else by channel) or the full scan. */
  function Query(table: seq<Attr>, f: JsonStore.Filters): seq<Item> {
    var all := Seqs.Map(table, AttrValue);
    if JsonStore.Active(f.status) then Seqs.Filter(all, x => StatusOk(x, f))
    else if JsonStore.Active(f.channel) then Seqs.Filter(all, x => ChannelOk(x, f))
    else all
  }

  /** The filters applied in memory to the query's items: the channel when
      the query was by status, then the two dates. */
  function InMemory(items: seq<Item>, f: JsonStore.Filters): seq<Item> {
    var r1 := if JsonStore.Active(f.channel) && JsonStore.Active(f.status)
              then Seqs.Filter(items, x => ChannelOk(x, f)) else items;
    var r2 := if JsonStore.Active(f.dateFrom) then Seqs.Filter(r1, x => FromOk(x, f)) else r1;
    if JsonStore.Active(f.dateTo) then Seqs.Filter(r2, x => ToOk(x, f)) else r2
  }

  /** `list_tickets(...)` when its call goes through: filter, sort by
      `created_at` descending, then convert. */
  function Listed(table: seq<Attr>, f: JsonStore.Filters): seq<Json> {
    Seqs.Map(StrOrder.SortBy(InMemory(Query(table, f), f), CreatedKey, true), DecimalToFloat)
  }

  lemma StrConverted(y: Item, s: string)
    ensures DecimalToFloat(y) == JStr(s) <==> y == IStr(s)
  {
  }

  /** Each filter reads on an item what the JSON store's reads on it
      converted. */
  lemma FiltersAgree(x: Item, f: JsonStore.Filters)
    ensures StatusOk(x, f) == JsonStore.StatusOk(DecimalToFloat(x), f)
    ensures ChannelOk(x, f) == JsonStore.ChannelOk(DecimalToFloat(x), f)
    ensures CreatedKey(x) == JsonStore.CreatedKey(DecimalToFloat(x))
    ensures FromOk(x, f) == JsonStore.FromOk(DecimalToFloat(x), f)
    ensures ToOk(x, f) == JsonStore.ToOk(DecimalToFloat(x), f)
  {
    if x.IMap? {
      LookupConverted(x.attrs, "status");
      LookupConverted(x.attrs, "channel");
      LookupConverted(x.attrs, "created_at");
      if ItemAttr(x, "status").Some? {
        StrConverted(ItemAttr(x, "status").value, if f.status.Some? then f.status.value else "");
      }
      if ItemAttr(x, "channel").Some? {
        StrConverted(ItemAttr(x, "channel").value, if f.channel.Some? then f.channel.value else "");
      }
    }
  }

  /** Up to the channel filter, the query and the in-memory filter keep what
      the JSON store's status and channel filters keep. */
  lemma FirstFiltersAgree(table: seq<Attr>, f: JsonStore.Filters)
    requires forall x :: StatusOk(x, f) == JsonStore.StatusOk(DecimalToFloat(x), f)
    requires forall x :: ChannelOk(x, f) == JsonStore.ChannelOk(DecimalToFloat(x), f)
    ensures var q := Query(table, f);
      var r1 := if JsonStore.Active(f.channel) && JsonStore.Active(f.status)
                then Seqs.Filter(q, x => ChannelOk(x, f)) else q;
      Seqs.Map(r1, DecimalToFloat)
        == JsonStore.ByChannel(JsonStore.ByStatus(Seqs.Map(Seqs.Map(table, AttrValue), DecimalToFloat), f), f)
  {
    var all := Seqs.Map(table, AttrValue);
    if JsonStore.Active(f.status) {
      Seqs.MapFilter(all, x => StatusOk(x, f), DecimalToFloat, t => JsonStore.StatusOk(t, f));
      if JsonStore.Active(f.channel) {
        Seqs.MapFilter(Seqs.Filter(all, x => StatusOk(x, f)), x => ChannelOk(x, f), DecimalToFloat,
                       t => JsonStore.ChannelOk(t, f));
      }
    } else if JsonStore.Active(f.channel) {
      Seqs.MapFilter(all, x => ChannelOk(x, f), DecimalToFloat, t => JsonStore.ChannelOk(t, f));
    }
  }

  /** Listing the table is listing the JSON store it reads back as: the same
      filters and the same stable sort by `created_at`, most recent first. */
  lemma ListAgrees(table: seq<Attr>, f: JsonStore.Filters)
    ensures Listed(table, f) == JsonStore.ListSpec(Members(table), f)
  {
    forall x ensures StatusOk(x, f) == JsonStore.StatusOk(DecimalToFloat(x), f)
      && ChannelOk(x, f) == JsonStore.ChannelOk(DecimalToFloat(x), f)
      && FromOk(x, f) == JsonStore.FromOk(DecimalToFloat(x), f)
      && ToOk(x, f) == JsonStore.ToOk(DecimalToFloat(x), f)
      && CreatedKey(x) == JsonStore.CreatedKey(DecimalToFloat(x))
    {
      FiltersAgree(x, f);
    }
    var q := Query(table, f);
    var r1 := if JsonStore.Active(f.channel) && JsonStore.Active(f.status)
              then Seqs.Filter(q, x => ChannelOk(x, f)) else q;
    var r2 := if JsonStore.Active(f.dateFrom) then Seqs.Filter(r1, x => FromOk(x, f)) else r1;
    var r3 := InMemory(q, f);
    var values := ValuesOf(Members(table));
    assert Seqs.Map(Seqs.Map(table, AttrValue), DecimalToFloat) == values;
    FirstFiltersAgree(table, f);
    var j2 := JsonStore.ByChannel(JsonStore.ByStatus(values, f), f);
    if JsonStore.Active(f.dateFrom) {
      Seqs.MapFilter(r1, x => FromOk(x, f), DecimalToFloat, t => JsonStore.FromOk(t, f));
    }
    assert Seqs.Map(r2, DecimalToFloat) == JsonStore.ByDateFrom(j2, f);
    if JsonStore.Active(f.dateTo) {
      Seqs.MapFilter(r2, x => ToOk(x, f), DecimalToFloat, t => JsonStore.ToOk(t, f));
    }
    assert Seqs.Map(r3, DecimalToFloat) == JsonStore.FilterAll(values, f);
    StrOrder.MapSortBy(r3, CreatedKey, DecimalToFloat, JsonStore.CreatedKey, true);
  }

  // ================================================================ update_ticket_status

  /** One `path = :placeholder` action of a `SET` update expression. */
  datatype Clause = Clause(path: string, placeholder: string)

  const SetStatus := Clause("#status", ":status")
  const SetClosedAt := Clause("closed_at", ":closed_at")
  const SetDuration := Clause("resolution_duration", ":duration")
  const ClearClosedAt := Clause("closed_at", ":null_closed")
  const ClearDuration := Clause("resolution_duration", ":null_duration")

  const StatusNames: map<string, string> := map["#status" := "status"]

  function ClauseText(c: Clause): string {
    c.path + " = " + c.placeholder
  }

  /** The `UpdateExpression` text for a list of clauses. */
  function Render(cls: seq<Clause>): string {
    "SET " + Text.Join(", ", Seqs.Map(cls, ClauseText))
  }

  lemma RenderSnoc(cls: seq<Clause>, c: Clause)
    requires cls != []
    ensures Render(cls + [c]) == Render(cls) + ", " + ClauseText(c)
  {
    Seqs.MapSnoc(cls, c, ClauseText);
  }

  /** The clauses a close adds: `closed_at`, and the duration when known. */
  function CloseClauses(ticket: seq<Member>, status: string, closedAt: Option<string>,
                        parseTime: string -> Option<int>): seq<Clause>
  {
    if !JsonStore.Closing(status, closedAt) then []
    else if JsonStore.Duration(ticket, closedAt.value, parseTime).Some? then [SetClosedAt, SetDuration]
    else [SetClosedAt]
  }

  /** The clauses a reopen adds: both closing fields cleared. */
  function ReopenClauses(ticket: seq<Member>, status: string): seq<Clause> {
    if JsonStore.Reopening(ticket, status) then [ClearClosedAt, ClearDuration] else []
  }

  /** The clauses of the update, in the order the expression lists them. */
  function UpdateClauses(ticket: seq<Member>, status: string, closedAt: Option<string>,
                         parseTime: string -> Option<int>): seq<Clause>
  {
    [SetStatus] + CloseClauses(ticket, status, closedAt, parseTime) + ReopenClauses(ticket, status)
  }

  function CloseValues(v: map<string, Json>, ticket: seq<Member>, status: string, closedAt: Option<string>,
                       parseTime: string -> Option<int>): map<string, Json>
  {
    if !JsonStore.Closing(status, closedAt) then v
    else
      var c := v[":closed_at" := JStr(closedAt.value)];
      var d := JsonStore.Duration(ticket, closedAt.value, parseTime);
      if d.Some? then c[":duration" := JInt(d.value)] else c
  }

  function ReopenValues(v: map<string, Json>, ticket: seq<Member>, status: string): map<string, Json> {
    if JsonStore.Reopening(ticket, status) then v[":null_closed" := JNull][":null_duration" := JNull] else v
  }

  /** The `ExpressionAttributeValues` before conversion. */
  function UpdateValues(ticket: seq<Member>, status: string, closedAt: Option<string>,
                        parseTime: string -> Option<int>): map<string, Json>
  {
    ReopenValues(CloseValues(map[":status" := JStr(status)], ticket, status, closedAt, parseTime), ticket, status)
  }

  // The text of each clause, as the expression spells it.

  lemma StatusText()
    ensures ClauseText(SetStatus) == "#status = :status"
  {
  }

  lemma ClosedAtText()
    ensures ClauseText(SetClosedAt) == "closed_at = :closed_at"
  {
  }

  lemma DurationText()
    ensures ClauseText(SetDuration) == "resolution_duration = :duration"
  {
  }

  lemma ClearClosedAtText()
    ensures ClauseText(ClearClosedAt) == "closed_at = :null_closed"
  {
  }

  lemma ClearDurationText()
    ensures ClauseText(ClearDuration) == "resolution_duration = :null_duration"
  {
  }

  /** `float_to_decimal(expression_values)`. */
  function ToItems(values: map<string, Json>): map<string, Item> {
    map p | p in values :: FloatToDecimal(values[p])
  }

  /** The attribute a path names: `#alias` through the name map. */
  function PathName(path: string, names: map<string, string>): Option<string> {
    if |path| > 0 && path[0] == '#' then (if path in names then Some(names[path]) else None)
    else Some(path)
  }

  /** DynamoDB applying the `SET` clauses left to right; an unknown alias or
      placeholder is a `ValidationException`, here `None`. */
  function ApplyClauses(attrs: seq<Attr>, cls: seq<Clause>, names: map<string, string>,
                        values: map<string, Item>): Option<seq<Attr>>
    decreases |cls|
  {
    if cls == [] then Some(attrs)
    else
      var name := PathName(cls[0].path, names);
      if name.None? || cls[0].placeholder !in values then None
      else ApplyClauses(SetAttr(attrs, name.value, values[cls[0].placeholder]), cls[1..], names, values)
  }

  /** The same clauses read as `d[name] = value` on a dict. */
  function ApplyToMembers(m: seq<Member>, cls: seq<Clause>, names: map<string, string>,
                          values: map<string, Json>): Option<seq<Member>>
    decreases |cls|
  {
    if cls == [] then Some(m)
    else
      var name := PathName(cls[0].path, names);
      if name.None? || cls[0].placeholder !in values then None
      else ApplyToMembers(SetKey(m, name.value, values[cls[0].placeholder]), cls[1..], names, values)
  }

  /** Applying converted values to an item, then reading it back, is applying
      the values to the read-back dict. */
  lemma {:induction false} ApplyConverted(attrs: seq<Attr>, cls: seq<Clause>, names: map<string, string>,
                                          values: map<string, Json>)
    ensures ApplyToMembers(Members(attrs), cls, names, values)
      == match ApplyClauses(attrs, cls, names, ToItems(values))
         case None => None
         case Some(n) => Some(Members(n))
    decreases |cls|
  {
    if cls != [] {
      var name := PathName(cls[0].path, names);
      var ph := cls[0].placeholder;
      if name.Some? && ph in values {
        SaveConverted(attrs, name.value, values[ph]);
        ApplyConverted(SetAttr(attrs, name.value, FloatToDecimal(values[ph])), cls[1..], names, values);
      }
    }
  }

  /** Applying two lists of clauses is applying the first, then the second. */
  lemma {:induction false} ApplyAppend(m: seq<Member>, a: seq<Clause>, b: seq<Clause>, names: map<string, string>,
                                       values: map<string, Json>)
    ensures ApplyToMembers(m, a + b, names, values)
      == match ApplyToMembers(m, a, names, values)
         case None => None
         case Some(n) => ApplyToMembers(n, b, names, values)
    decreases |a|
  {
    if a != [] {
      assert (a + b)[0] == a[0] && (a + b)[1..] == a[1..] + b;
      var name := PathName(a[0].path, names);
      if name.Some? && a[0].placeholder in values {
        ApplyAppend(SetKey(m, name.value, values[a[0].placeholder]), a[1..], b, names, values);
      }
    } else {
      assert a + b == b;
    }
  }

  /** One clause whose alias and placeholder are known is one assignment. */
  lemma ApplyOne(m: seq<Member>, c: Clause, names: map<string, string>, values: map<string, Json>, name: string)
    requires PathName(c.path, names) == Some(name) && c.placeholder in values
    ensures ApplyToMembers(m, [c], names, values) == Some(SetKey(m, name, values[c.placeholder]))
  {
    assert [c][1..] == [];
  }

  lemma ApplyTwo(m: seq<Member>, c: Clause, d: Clause, names: map<string, string>, values: map<string, Json>,
                 cn: string, dn: string)
    requires PathName(c.path, names) == Some(cn) && c.placeholder in values
    requires PathName(d.path, names) == Some(dn) && d.placeholder in values
    ensures ApplyToMembers(m, [c, d], names, values)
            == Some(SetKey(SetKey(m, cn, values[c.placeholder]), dn, values[d.placeholder]))
  {
    assert [c, d] == [c] + [d];
    ApplyAppend(m, [c], [d], names, values);
    ApplyOne(m, c, names, values, cn);
    ApplyOne(SetKey(m, cn, values[c.placeholder]), d, names, values, dn);
  }

  /** What the placeholders hold. */
  lemma ValuesAt(ticket: seq<Member>, status: string, closedAt: Option<string>, parseTime: string -> Option<int>)
    ensures var values := UpdateValues(ticket, status, closedAt, parseTime);
      && ":status" in values && values[":status"] == JStr(status)
      && (JsonStore.Closing(status, closedAt) ==>
            && ":closed_at" in values && values[":closed_at"] == JStr(closedAt.value)
            && (JsonStore.Duration(ticket, closedAt.value, parseTime).Some? ==>
                  ":duration" in values && values[":duration"] == JInt(JsonStore.Duration(ticket, closedAt.value, parseTime).value)))
      && (JsonStore.Reopening(ticket, status) ==>
            && ":null_closed" in values && values[":null_closed"] == JNull
            && ":null_duration" in values && values[":null_duration"] == JNull)
  {
    assert |":status"| == 7 && |":closed_at"| == 10 && |":duration"| == 9;
    assert |":null_closed"| == 12 && |":null_duration"| == 14;
  }

  lemma PathNames()
    ensures PathName(SetStatus.path, StatusNames) == Some("status")
    ensures PathName(SetClosedAt.path, StatusNames) == Some("closed_at")
    ensures PathName(SetDuration.path, StatusNames) == Some("resolution_duration")
    ensures PathName(ClearClosedAt.path, StatusNames) == Some("closed_at")
    ensures PathName(ClearDuration.path, StatusNames) == Some("resolution_duration")
  {
  }

  /** The built update does to the ticket exactly what the JSON store's
      `update_ticket_status` does. */
  lemma ClausesUpdate(ticket: seq<Member>, status: string, closedAt: Option<string>,
                      parseTime: string -> Option<int>)
    ensures ApplyToMembers(ticket, UpdateClauses(ticket, status, closedAt, parseTime), StatusNames,
                           UpdateValues(ticket, status, closedAt, parseTime))
      == Some(JsonStore.UpdateTicket(ticket, status, closedAt, parseTime))
  {
    var values := UpdateValues(ticket, status, closedAt, parseTime);
    var close := CloseClauses(ticket, status, closedAt, parseTime);
    var reopen := ReopenClauses(ticket, status);
    ValuesAt(ticket, status, closedAt, parseTime);
    PathNames();
    var m1 := SetKey(ticket, "status", JStr(status));
    ApplyAppend(ticket, [SetStatus] + close, reopen, StatusNames, values);
    ApplyAppend(ticket, [SetStatus], close, StatusNames, values);
    ApplyOne(ticket, SetStatus, StatusNames, values, "status");
    var m2 := m1;
    if JsonStore.Closing(status, closedAt) {
      var c := closedAt.value;
      var d := JsonStore.Duration(ticket, c, parseTime);
      if d.Some? {
        ApplyTwo(m1, SetClosedAt, SetDuration, StatusNames, values, "closed_at", "resolution_duration");
      } else {
        ApplyOne(m1, SetClosedAt, StatusNames, values, "closed_at");
      }
      m2 := JsonStore.CloseStep(m1, c, d);
    }
    assert ApplyToMembers(ticket, [SetStatus] + close, StatusNames, values) == Some(m2);
    if JsonStore.Reopening(ticket, status) {
      ApplyTwo(m2, ClearClosedAt, ClearDuration, StatusNames, values, "closed_at", "resolution_duration");
    }
  }

  /** The stored attributes of ticket `id`. */
  function StoredAttrs(table: seq<Attr>, id: string): seq<Attr> {
    match AttrLookup(table, id)
    case Some(IMap(attrs)) => attrs
    case _ => []
  }

  datatype Updated = Updated(result: Result<Json, HttpError>, table: seq<Attr>)

  const UpdateFailed := "Failed to update ticket status"

  /** `update_ticket_status(ticket_id, status, closed_at)`, given how its
      `get_item` and `update_item` calls went. */
  function UpdateSpec(table: seq<Attr>, id: string, status: string, closedAt: Option<string>,
                      parseTime: string -> Option<int>, got: Result<(), Failure>, put: Result<(), Failure>): Updated
  {
    match GetSpec(table, id, got)
    case Err(e) => Updated(Err(e), table)
    case Ok(t) =>
      if put.Err? then Updated(Err(Surface(put.error, UpdateFailed)), table)
      else
        var ticket := if t.JObj? then t.members else [];
        var cls := UpdateClauses(ticket, status, closedAt, parseTime);
        var values := ToItems(UpdateValues(ticket, status, closedAt, parseTime));
        match ApplyClauses(StoredAttrs(table, id), cls, StatusNames, values)
        case None => Updated(Err(HttpError(500, JStr(UpdateFailed))), table)
        case Some(n) => Updated(Ok(DecimalToFloat(IMap(n))), SetAttr(table, id, IMap(n)))
  }

  /** When both calls go through, the update returns what the JSON store's
      returns, and the table reads back as the JSON store's new object. */
  lemma UpdateAgrees(table: seq<Attr>, id: string, status: string, closedAt: Option<string>,
                     parseTime: string -> Option<int>)
    ensures var d := UpdateSpec(table, id, status, closedAt, parseTime, Ok(()), Ok(()));
      var j := JsonStore.UpdateSpec(Members(table), id, status, closedAt, parseTime);
      d.result == j.result && Members(d.table) == j.tickets
  {
    LookupConverted(table, id);
    var stored := StoredAttrs(table, id);
    if AttrLookup(table, id).Some? {
      var t := DecimalToFloat(AttrLookup(table, id).value);
      var ticket := if t.JObj? then t.members else [];
      assert ticket == Members(stored);
      var cls := UpdateClauses(ticket, status, closedAt, parseTime);
      var values := UpdateValues(ticket, status, closedAt, parseTime);
      ApplyConverted(stored, cls, StatusNames, values);
      ClausesUpdate(ticket, status, closedAt, parseTime);
      var n := ApplyClauses(stored, cls, StatusNames, ToItems(values)).value;
      SetAttrConverted(table, id, IMap(n));
    }
  }

  /** The `UpdateExpression`, `ExpressionAttributeNames` and
      `ExpressionAttributeValues` of `update_ticket_status`, built step by
      step, with the clauses the expression lists. */
  method UpdateExpression(ticket: seq<Member>, status: string, closedAt: Option<string>,
                          parseTime: string -> Option<int>)
    returns (clauses: seq<Clause>, expression: string, names: map<string, string>, values: map<string, Json>)
    ensures clauses == UpdateClauses(ticket, status, closedAt, parseTime)
    ensures expression == Render(clauses)
    ensures names == StatusNames
    ensures values == UpdateValues(ticket, status, closedAt, parseTime)
  {
    expression := "SET " + ClauseText(SetStatus);
    names := StatusNames;
    values := map[SetStatus.placeholder := JStr(status)];
    clauses := [SetStatus];
    assert Seqs.Map(clauses, ClauseText) == [ClauseText(SetStatus)];
    if JsonStore.Closing(status, closedAt) {
      expression := expression + ", " + ClauseText(SetClosedAt);
      RenderSnoc(clauses, SetClosedAt);
      clauses := clauses + [SetClosedAt];
      values := values[SetClosedAt.placeholder := JStr(closedAt.value)];
      var duration := JsonStore.Duration(ticket, closedAt.value, parseTime);
      if duration.Some? {
        expression := expression + ", " + ClauseText(SetDuration);
        RenderSnoc(clauses, SetDuration);
        clauses := clauses + [SetDuration];
        values := values[SetDuration.placeholder := JInt(duration.value)];
      }
    }
    assert clauses == [SetStatus] + CloseClauses(ticket, status, closedAt, parseTime);
    assert values == CloseValues(map[":status" := JStr(status)], ticket, status, closedAt, parseTime);
    assert expression == Render(clauses);
    if JsonStore.Reopening(ticket, status) {
      var before := clauses;
      expression := expression + ", " + ClauseText(ClearClosedAt);
      RenderSnoc(clauses, ClearClosedAt);
      clauses := clauses + [ClearClosedAt];
      expression := expression + ", " + ClauseText(ClearDuration);
      RenderSnoc(clauses, ClearDuration);
      clauses := clauses + [ClearDuration];
      assert clauses == before + [ClearClosedAt, ClearDuration];
      values := values[ClearClosedAt.placeholder := JNull][ClearDuration.placeholder := JNull];
    }
  }

  // ================================================================ the store

  class DynamoDBStorage {
    const maxRetries: int
    /** The table's items, keyed by `ticket_id`. */
    var table: seq<Attr>

    /** The table reads back as a well-formed JSON store. */
    ghost predicate Valid()
      reads this
    {
      JsonStore.StoreInv(Members(table))
    }

    constructor (maxRetries: int)
      ensures this.maxRetries == maxRetries && table == [] && Valid()
    {
      this.maxRetries := maxRetries;
      table := [];
      assert Members([]) == [];
    }

    /** `_retry_operation(operation)`: run the call up to `max_retries` times. */
    method RetryOperation<T>(outcomes: nat -> OpOutcome<T>) returns (r: Result<T, Failure>, calls: nat)
      ensures RetryOut(r, calls) == RetryFrom(maxRetries, outcomes, 0)
    {
      var attempt: nat := 0;
      while attempt < maxRetries
        invariant RetryFrom(maxRetries, outcomes, attempt) == RetryFrom(maxRetries, outcomes, 0)
        decreases maxRetries - attempt
      {
        var o := outcomes(attempt);
        if o.Success? {
          return Ok(o.value), attempt + 1;
        }
        if o.ClientError? {
          if o.code == "ResourceNotFoundException" || o.code == "ValidationException" {
            return Err(Reraised(o.code)), attempt + 1;
          }
          if o.code == "ProvisionedThroughputExceededException" || o.code == "ThrottlingException" {
            attempt := attempt + 1;
            continue;
          }
          return Err(Raised(HttpError(500, JStr("Database error: " + o.code)))), attempt + 1;
        }
        if o.BotoCoreError? {
          return Err(Raised(HttpError(500, JStr("Database connection error")))), attempt + 1;
        }
        return Err(Uncaught), attempt + 1;
      }
      return Err(Raised(FailedAfterRetries)), attempt;
    }

    /** `save_ticket(ticket)`. */
    method SaveTicket(ticket: Json, outcomes: nat -> OpOutcome<()>) returns (r: Option<HttpError>)
      requires Valid() && JsonStore.WellFormed(ticket) && JsonStore.TicketId(ticket).Some?
      modifies this
      ensures Valid()
      ensures var put := RetryFrom(maxRetries, outcomes, 0).result;
        && r == (if put.Ok? then None else Some(Surface(put.error, "Failed to save ticket")))
        && table == if put.Ok? then SetAttr(old(table), JsonStore.TicketId(ticket).value, FloatToDecimal(ticket))
                    else old(table)
    {
      var item := FloatToDecimal(ticket);
      var put, _ := RetryOperation(outcomes);
      if put.Err? {
        return Some(Surface(put.error, "Failed to save ticket"));
      }
      var id := JsonStore.TicketId(ticket).value;
      SaveConverted(table, id, ticket);
      JsonStore.SaveKeepsInv(Members(table), id, ticket);
      table := SetAttr(table, id, item);
      return None;
    }

    /** `get_ticket(ticket_id)`. */
    method GetTicket(id: string, outcomes: nat -> OpOutcome<()>) returns (r: Result<Json, HttpError>)
      ensures r == GetSpec(table, id, RetryFrom(maxRetries, outcomes, 0).result)
    {
      var got, _ := RetryOperation(outcomes);
      if got.Err? {
        return Err(Surface(got.error, "Failed to retrieve ticket"));
      }
      var found := AttrLookup(table, id);
      if found.None? {
        return Err(JsonStore.NotFound);
      }
      return Ok(DecimalToFloat(found.value));
    }

    /** `list_tickets(status, channel, date_from, date_to)`. */
    method ListTickets(f: JsonStore.Filters, outcomes: nat -> OpOutcome<()>) returns (r: Result<seq<Json>, HttpError>)
      requires Valid()
      ensures var got := RetryFrom(maxRetries, outcomes, 0).result;
        r == if got.Ok? then Ok(Listed(table, f)) else Err(Surface(got.error, "Failed to list tickets"))
    {
      var got, _ := RetryOperation(outcomes);
      if got.Err? {
        return Err(Surface(got.error, "Failed to list tickets"));
      }
      var result := Query(table, f);
      if JsonStore.Active(f.channel) && JsonStore.Active(f.status) {
        result := Seqs.Filter(result, x => ChannelOk(x, f));
      }
      if JsonStore.Active(f.dateFrom) {
        result := Seqs.Filter(result, x => FromOk(x, f));
      }
      if JsonStore.Active(f.dateTo) {
        result := Seqs.Filter(result, x => ToOk(x, f));
      }
      result := StrOrder.SortBy(result, CreatedKey, true);
      return Ok(Seqs.Map(result, DecimalToFloat));
    }

    /** `update_ticket_status(ticket_id, status, closed_at)`. */
    method UpdateTicketStatus(id: string, status: string, closedAt: Option<string>, parseTime: string -> Option<int>,
                              getOutcomes: nat -> OpOutcome<()>, updateOutcomes: nat -> OpOutcome<()>)
      returns (r: Result<Json, HttpError>)
      requires Valid()
      modifies this
      ensures Valid()
      ensures var out := UpdateSpec(old(table), id, status, closedAt, parseTime,
                                    RetryFrom(maxRetries, getOutcomes, 0).result,
                                    RetryFrom(maxRetries, updateOutcomes, 0).result);
        r == out.result && table == out.table
    {
      var got := GetTicket(id, getOutcomes);
      if got.Err? {
        return Err(got.error);
      }
      var ticket := if got.value.JObj? then got.value.members else [];
      var clauses, expression, names, values := UpdateExpression(ticket, status, closedAt, parseTime);
      var decimals := ToItems(values);
      var put, _ := RetryOperation(updateOutcomes);
      if put.Err? {
        return Err(Surface(put.error, UpdateFailed));
      }
      var applied := ApplyClauses(StoredAttrs(table, id), clauses, names, decimals);
      if applied.None? {
        return Err(HttpError(500, JStr(UpdateFailed)));
      }
      UpdateAgrees(table, id, status, closedAt, parseTime);
      JsonStore.UpdateKeepsInv(Members(table), id, status, closedAt, parseTime);
      table := SetAttr(table, id, IMap(applied.value));
      return Ok(DecimalToFloat(IMap(applied.value)));
    }

    /** `ticket_exists(ticket_id)`: any failure reads as "no". */
    method TicketExists(id: string, outcomes: nat -> OpOutcome<()>) returns (b: bool)
      ensures b <==> RetryFrom(maxRetries, outcomes, 0).result.Ok? && AttrLookup(table, id).Some?
    {
      var got, _ := RetryOperation(outcomes);
      b := got.Ok? && AttrLookup(table, id).Some?;
    }

    /** `health_check()`. */
    method HealthCheck(outcomes: nat -> OpOutcome<()>) returns (b: bool)
      ensures b <==> RetryFrom(maxRetries, outcomes, 0).result.Ok?
    {
      var got, _ := RetryOperation(outcomes);
      b := got.Ok?;
    }
  }
}
