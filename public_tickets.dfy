/**
  The public ticket endpoints of backend/app/routers/public/tickets.py: the
  ticket id format, the order in which a reply is sought (canned reply, then
  the model, then a fixed text), the prompt sent to the model, the ticket as
  stored, and the order of the storage writes and broadcasts each endpoint
  makes. Storage and the WebSocket manager are outside the router: its class
  records the writes and broadcasts it asks for, in order. What the storage
  read returned, the services' answers and the readings of the clock and of
  `uuid4` are parameters.
*/
module PublicTickets {
  import opened Wrappers
  import opened JsonValue
  import opened Http
  import Text
  import Utils
  import JsonStore
  import Seqs

  // ================================================================ ticket ids

  const IdPrefix := "FRE-"

  /** `generate_ticket_id`, given the text of the `uuid4` it draws. */
  function GenerateTicketId(uuid: string): (id: string)
  {
    IdPrefix + Text.Upper(Text.Take(uuid, 8))
  }

  /** "FRE-" followed by at most eight characters, none a lower-case letter. */
  predicate IsTicketId(id: string) {
    && 4 <= |id| <= 12
    && id[..4] == IdPrefix
    && forall i :: 4 <= i < |id| ==> !('a' <= id[i] <= 'z')
  }

  /** Every generated id has the public format; from a full uuid it is "FRE-"
      and the upper-cased first eight characters. */
  lemma TicketIdFormat(uuid: string)
    ensures IsTicketId(GenerateTicketId(uuid))
    ensures |uuid| >= 8 ==> |GenerateTicketId(uuid)| == 12 && GenerateTicketId(uuid)[4..] == Text.Upper(uuid[..8])
  {
    var id := GenerateTicketId(uuid);
    var u := Text.Upper(Text.Take(uuid, 8));
    assert id[4..] == u;
    forall i | 4 <= i < |id| ensures !('a' <= id[i] <= 'z') {
      assert id[i] == u[i - 4] == Text.UpperChar(Text.Take(uuid, 8)[i - 4]);
    }
  }

  /** Two uuids give the same id exactly when their first eight characters
      agree once upper-cased: nothing past the eighth character counts. */
  lemma TicketIdCollision(a: string, b: string)
    ensures GenerateTicketId(a) == GenerateTicketId(b) <==>
            Text.Upper(Text.Take(a, 8)) == Text.Upper(Text.Take(b, 8))
  {
    if GenerateTicketId(a) == GenerateTicketId(b) {
      assert GenerateTicketId(a)[4..] == Text.Upper(Text.Take(a, 8));
      assert GenerateTicketId(b)[4..] == Text.Upper(Text.Take(b, 8));
    }
  }

  // ================================================================ services

  /** What `get_system_prompt_with_context` gets from the knowledge base for a
      query: nothing (RAG disabled or no service), an exception, or a context. */
  datatype RagLookup = RagOff | RagRaised | RagContext(context: string)

  const ContextIntro := "\n\nUtilise les informations suivantes pour repondre :\n"

  /** `get_system_prompt_with_context`. */
  function SystemPromptWithContext(systemPrompt: string, lookup: RagLookup): string
  {
    if lookup.RagContext? && lookup.context != "" then systemPrompt + ContextIntro + lookup.context
    else systemPrompt
  }

  /** The configured prompt always comes first; it is extended, and then
      ends with the context, exactly when a non-empty context was found. */
  lemma SystemPromptCases(systemPrompt: string, lookup: RagLookup)
    ensures var r := SystemPromptWithContext(systemPrompt, lookup);
      && Text.StartsWith(r, systemPrompt)
      && (r == systemPrompt <==> !(lookup.RagContext? && lookup.context != ""))
      && (r != systemPrompt ==> Text.EndsWith(r, ContextIntro + lookup.context))
  {
    var r := SystemPromptWithContext(systemPrompt, lookup);
    if lookup.RagContext? && lookup.context != "" {
      assert r[..|systemPrompt|] == systemPrompt;
      assert r[|r| - |ContextIntro + lookup.context|..] == ContextIntro + lookup.context;
      assert |r| > |systemPrompt|;
    }
  }

  /** The services a request reaches: the canned-reply service (in the
      application, `SmartReply.QuickResponse`), the analytics service (given
      the role/content history, its result, or `None` when it raises), the
      configured system prompt, the knowledge-base lookup for a query, and the
      model client (given the prompt, its reply, or `None` when it raises).
      An absent service is `None`. */
  datatype Services = Services(
    canned: string -> Option<string>,
    analytics: Option<seq<Json> -> Option<Json>>,
    systemPrompt: string,
    rag: string -> RagLookup,
    model: Option<seq<Json> -> Option<string>>)

  /** One entry of a prompt or of an analytics history. */
  function ChatEntry(role: string, content: Json): Json {
    JObj([Member("role", JStr(role)), Member("content", content)])
  }

  /** The system entry of a prompt answering `query`. */
  function SystemEntry(svc: Services, query: string): Json {
    ChatEntry("system", JStr(SystemPromptWithContext(svc.systemPrompt, svc.rag(query))))
  }

  /** A stored message as a prompt entry: role "assistant" for an assistant
      message and "user" for any other; `None` when reading its type or its
      content raises. */
  function HistoryEntry(msg: Json): Option<Json> {
    var t, c := Subscript(msg, "type"), Subscript(msg, "content");
    if t.Some? && c.Some? then Some(ChatEntry(if t.value == JStr("assistant") then "assistant" else "user", c.value))
    else None
  }

  /** The messages as prompt entries, in order; `None` when one of them raises. */
  function HistoryEntries(history: seq<Json>): (r: Option<seq<Json>>)
    ensures r.Some? ==> |r.value| == |history|
  {
    Seqs.MapAll(history, HistoryEntry)
  }

  // ================================================================ replies

  /** The canned reply, when there is a non-empty one (`if quick_response:`). */
  function QuickText(svc: Services, message: string): Option<string> {
    var q := svc.canned(message);
    if q.Some? && q.value != "" then q else None
  }

  const StaticReply := "Je prends note de votre demande. Un agent va vous repondre sous peu."

  /** The prompt for the first message of a ticket. */
  function CreationPrompt(message: string, svc: Services): seq<Json> {
    [SystemEntry(svc, message), ChatEntry("user", JStr(message))]
  }

  /** The reply to the first message of a chat ticket: the canned reply when
      there is one, else the model's reply signed, else (no model client) the
      fixed text; `None` when the model raises, and no reply is added. */
  function CreationReply(message: string, svc: Services): Option<string> {
    var quick := QuickText(svc, message);
    if quick.Some? then quick
    else match svc.model
      case None => Some(StaticReply)
      case Some(chat) =>
        match chat(CreationPrompt(message, svc))
        case None => None
        case Some(t) => Some(Utils.NormalizeAgentSignature(t))
  }

  /** The canned reply is tried first and then decides, whatever the other
      services are. Without one, no client means the fixed text, and a
      client's reply is there exactly when the call returns, and is signed. */
  lemma CreationReplyOrder(message: string, svc: Services, other: Services)
    requires other.canned(message) == svc.canned(message)
    ensures QuickText(svc, message).Some? ==>
      CreationReply(message, svc) == QuickText(svc, message) == CreationReply(message, other)
    ensures QuickText(svc, message).None? && svc.model.None? ==>
      CreationReply(message, svc) == Some(StaticReply)
    ensures QuickText(svc, message).None? && svc.model.Some? ==>
      (CreationReply(message, svc).Some? <==> svc.model.value(CreationPrompt(message, svc)).Some?)
    ensures QuickText(svc, message).None? && svc.model.Some? && CreationReply(message, svc).Some? ==>
      Text.EndsWith(Text.Strip(CreationReply(message, svc).value), Utils.Mark)
  {
    if QuickText(svc, message).None? && svc.model.Some? {
      var t := svc.model.value(CreationPrompt(message, svc));
      if t.Some? {
        Utils.AlwaysSigned(t.value);
      }
    }
  }

  /** The prompt for a follow-up message: the system entry, the last five
      messages of the history, then the current message; `None` when one of
      those five raises. */
  function FollowUpPrompt(content: string, history: seq<Json>, svc: Services): Option<seq<Json>> {
    match HistoryEntries(Text.Last(history, 5))
    case None => None
    case Some(es) => Some([SystemEntry(svc, content)] + es + [ChatEntry("user", JStr(content))])
  }

  /** The prompt is the system entry, then the last `min(5, |history|)`
      messages of the history in order, then the current message; it exists
      exactly when those messages all convert. */
  lemma FollowUpPromptShape(content: string, history: seq<Json>, svc: Services)
    ensures var recent := Text.Last(history, 5);
      var p := FollowUpPrompt(content, history, svc);
      && |recent| == (if |history| < 5 then |history| else 5)
      && recent == history[|history| - |recent|..]
      && (p.Some? <==> forall k :: 0 <= k < |recent| ==> HistoryEntry(recent[k]).Some?)
      && (p.Some? ==>
            && |p.value| == |recent| + 2
            && p.value[0] == SystemEntry(svc, content)
            && p.value[|recent| + 1] == ChatEntry("user", JStr(content))
            && forall k :: 1 <= k <= |recent| ==> Some(p.value[k]) == HistoryEntry(recent[k - 1]))
  {
    var recent := Text.Last(history, 5);
    Seqs.MapAllAt(recent, HistoryEntry);
    if HistoryEntries(recent).Some? {
      Seqs.FramedMapAll(recent, HistoryEntry, SystemEntry(svc, content), ChatEntry("user", JStr(content)));
    }
  }

  /** Since the history already ends with the message being answered, that
      message reaches the model twice, as the last two entries. */
  lemma CurrentMessageTwice(content: string, history: seq<Json>, svc: Services)
    requires history != []
    requires Subscript(history[|history| - 1], "content") == Some(JStr(content))
    requires Subscript(history[|history| - 1], "type") == Some(JStr("client"))
    requires FollowUpPrompt(content, history, svc).Some?
    ensures var p := FollowUpPrompt(content, history, svc).value;
      |p| >= 3 && p[|p| - 2] == p[|p| - 1] == ChatEntry("user", JStr(content))
  {
    var recent := Text.Last(history, 5);
    var user := ChatEntry("user", JStr(content));
    var es := HistoryEntries(recent).value;
    Seqs.FramedMapAll(recent, HistoryEntry, SystemEntry(svc, content), user);
    var p := [SystemEntry(svc, content)] + es + [user];
    assert FollowUpPrompt(content, history, svc) == Some(p);
    ClientEntry(history[|history| - 1], content);
    assert recent[|recent| - 1] == history[|history| - 1];
    assert Some(p[|recent|]) == HistoryEntry(recent[|recent| - 1]);
  }

  /** A client message becomes a user entry with its content. */
  lemma ClientEntry(msg: Json, content: string)
    requires Subscript(msg, "content") == Some(JStr(content))
    requires Subscript(msg, "type") == Some(JStr("client"))
    ensures HistoryEntry(msg) == Some(ChatEntry("user", JStr(content)))
  {
    assert JStr("client") != JStr("assistant");
  }

  /** The reply to a follow-up message: the canned reply when there is one,
      else the model's reply signed; none without a client, when building the
      prompt or the call raises, or when the text is empty. */
  function FollowUpReply(content: string, history: seq<Json>, svc: Services): Option<string> {
    var text :=
      if QuickText(svc, content).Some? then QuickText(svc, content)
      else match (FollowUpPrompt(content, history, svc), svc.model)
        case (Some(p), Some(chat)) =>
          (match chat(p)
           case None => None
           case Some(t) => Some(Utils.NormalizeAgentSignature(t)))
        case _ => None;
    if text.Some? && text.value != "" then text else None
  }

  /** The canned reply decides whatever the history and the other services;
      without one a reply needs a client and a prompt, and it is signed. */
  lemma FollowUpReplyOrder(content: string, history: seq<Json>, svc: Services, otherHistory: seq<Json>, other: Services)
    requires other.canned(content) == svc.canned(content)
    ensures QuickText(svc, content).Some? ==>
      FollowUpReply(content, history, svc) == QuickText(svc, content) == FollowUpReply(content, otherHistory, other)
    ensures QuickText(svc, content).None? && FollowUpReply(content, history, svc).Some? ==>
      && svc.model.Some?
      && FollowUpPrompt(content, history, svc).Some?
      && Text.EndsWith(Text.Strip(FollowUpReply(content, history, svc).value), Utils.Mark)
  {
    if QuickText(svc, content).None? && FollowUpReply(content, history, svc).Some? {
      var t := svc.model.value(FollowUpPrompt(content, history, svc).value);
      Utils.AlwaysSigned(t.value);
    }
  }

  // ================================================================ messages, events

  /** A stored message. */
  function Message(id: string, content: Json, author: Json, at: string, kind: string): Json {
    JObj([Member("message_id", JStr(id)), Member("content", content), Member("author", author),
          Member("timestamp", JStr(at)), Member("type", JStr(kind))])
  }

  /** The content and the type of a message read back. */
  lemma MessageContent(id: string, content: Json, author: Json, at: string, kind: string)
    ensures Subscript(Message(id, content, author, at, kind), "content") == Some(content)
  {
    LookupAt(Message(id, content, author, at, kind).members, "content", 1);
  }

  lemma MessageType(id: string, content: Json, author: Json, at: string, kind: string)
    ensures Subscript(Message(id, content, author, at, kind), "type") == Some(JStr(kind))
  {
    LookupAt(Message(id, content, author, at, kind).members, "type", 4);
  }

  /** The assistant's message carrying `text`. */
  function AssistantMessage(id: string, text: string, at: string): Json {
    Message(id, JStr(text), JStr("Assistant Free"), at, "assistant")
  }

  /** The `new_message` event announcing a message under a role. */
  function MessageEvent(message: Json, role: string): Json {
    JObj([Member("type", JStr("new_message")),
          Member("message", JObj([Member("id", Get(message, "message_id")), Member("content", Get(message, "content")),
                                  Member("role", JStr(role)), Member("timestamp", Get(message, "timestamp"))]))])
  }

  /** Python's `name or default` on an optional string. */
  function NameOr(name: Option<string>, default: string): string {
    if name.Some? && name.value != "" then name.value else default
  }

  // ================================================================ create_ticket_public

  datatype TicketCreate = TicketCreate(initialMessage: string, customerName: Option<string>, channel: string)

  /** The readings of `uuid4` and of the clock a creation makes. */
  datatype CreateReadings = CreateReadings(ticketUuid: string, createdAt: string, messageUuid: string,
                                           messageAt: string, replyUuid: string, replyAt: string)

  /** The record stored when the analytics service raises. */
  const AnalyticsFallback: Json := JObj([
    Member("sentiment", JStr("neutre")), Member("urgency", JStr("moyenne")), Member("category", JStr("autre")),
    Member("churn_risk", JInt(0)), Member("summary", JStr("Erreur analyse"))])

  /** The analytics stored with a new ticket: none without the service, else
      its result on the first message, or the fallback record. */
  function CreationAnalytics(message: string, svc: Services): Option<Json> {
    match svc.analytics
    case None => None
    case Some(analyze) => Some(analyze([ChatEntry("user", JStr(message))]).GetOr(AnalyticsFallback))
  }

  /** The assistant's text at creation: a reply only for the chat channel. */
  function CreationText(request: TicketCreate, svc: Services): Option<string> {
    if request.channel == "chat" then CreationReply(request.initialMessage, svc) else None
  }

  /** The first message of a new ticket. */
  function FirstMessage(request: TicketCreate, r: CreateReadings): Json {
    Message(r.messageUuid, JStr(request.initialMessage), JStr(NameOr(request.customerName, "Client")), r.messageAt, "client")
  }

  /** The assistant's message at creation, if any. */
  function CreationAssistant(request: TicketCreate, r: CreateReadings, svc: Services): Option<Json> {
    match CreationText(request, svc)
    case None => None
    case Some(text) => Some(AssistantMessage(r.replyUuid, text, r.replyAt))
  }

  /** The messages of a new ticket: the client's, and the assistant's if any. */
  function CreationMessages(request: TicketCreate, r: CreateReadings, svc: Services): seq<Json> {
    var a := CreationAssistant(request, r, svc);
    [FirstMessage(request, r)] + if a.Some? then [a.value] else []
  }

  /** The fields of a new ticket, before any analytics. */
  function TicketFields(id: string, request: TicketCreate, createdAt: string, messages: seq<Json>): seq<Member> {
    [Member("ticket_id", JStr(id)),
     Member("initial_message", JStr(request.initialMessage)),
     Member("customer_name", JStr(NameOr(request.customerName, "Anonyme"))),
     Member("channel", JStr(request.channel)),
     Member("status", JStr("nouveau")),
     Member("created_at", JStr(createdAt)),
     Member("messages", JArr(messages)),
     Member("public", JBool(true))]
  }

  /** An analytics member after the fields, or none. */
  predicate AnalyticsTail(extra: seq<Member>) {
    extra == [] || extra == [Member("analytics", extra[0].value)]
  }

  /** The fields read back, with an analytics member after them or not. */
  lemma TicketIdField(id: string, request: TicketCreate, createdAt: string, messages: seq<Json>, extra: seq<Member>)
    ensures Lookup(TicketFields(id, request, createdAt, messages) + extra, "ticket_id") == Some(JStr(id))
  {
    LookupAt(TicketFields(id, request, createdAt, messages) + extra, "ticket_id", 0);
  }

  lemma TicketStatusField(id: string, request: TicketCreate, createdAt: string, messages: seq<Json>, extra: seq<Member>)
    ensures Lookup(TicketFields(id, request, createdAt, messages) + extra, "status") == Some(JStr("nouveau"))
  {
    LookupAt(TicketFields(id, request, createdAt, messages) + extra, "status", 4);
  }

  lemma TicketMessagesField(id: string, request: TicketCreate, createdAt: string, messages: seq<Json>, extra: seq<Member>)
    ensures Lookup(TicketFields(id, request, createdAt, messages) + extra, "messages") == Some(JArr(messages))
  {
    LookupAt(TicketFields(id, request, createdAt, messages) + extra, "messages", 6);
  }

  lemma TicketAnalyticsField(id: string, request: TicketCreate, createdAt: string, messages: seq<Json>, extra: seq<Member>)
    requires AnalyticsTail(extra)
    ensures Lookup(TicketFields(id, request, createdAt, messages) + extra, "analytics") ==
            if extra == [] then None else Some(extra[0].value)
  {
    FieldsLackAnalytics(id, request, createdAt, messages);
    LookupAppend(TicketFields(id, request, createdAt, messages), extra, "analytics");
  }

  lemma FieldsLackAnalytics(id: string, request: TicketCreate, createdAt: string, messages: seq<Json>)
    ensures Lookup(TicketFields(id, request, createdAt, messages), "analytics") == None
  {
    var fields := TicketFields(id, request, createdAt, messages);
    assert KeysOf(fields) == ["ticket_id", "initial_message", "customer_name", "channel", "status",
                              "created_at", "messages", "public"];
    LookupKeys(fields, "analytics");
  }

  /** The ticket `create_ticket_public` saves. */
  function NewTicket(request: TicketCreate, r: CreateReadings, svc: Services): Json {
    match CreationAnalytics(request.initialMessage, svc)
    case None => JObj(TicketFields(GenerateTicketId(r.ticketUuid), request, r.createdAt, CreationMessages(request, r, svc)))
    case Some(a) => JObj(TicketFields(GenerateTicketId(r.ticketUuid), request, r.createdAt, CreationMessages(request, r, svc))
                         + [Member("analytics", a)])
  }

  function TicketCreatedEvent(ticketId: string, createdAt: string): Json {
    JObj([Member("type", JStr("ticket_created")),
          Member("ticket", JObj([Member("ticket_id", JStr(ticketId)), Member("status", JStr("nouveau")),
                                 Member("created_at", JStr(createdAt))]))])
  }

  /** The writes and broadcasts of a creation, in order, given the ticket
      saved, its first message and the assistant's message if any. */
  function CreationSteps(id: string, ticket: Json, first: Json, assistant: Option<Json>, createdAt: string): seq<Effect> {
    [SaveTicket(ticket), Broadcast(id, TicketCreatedEvent(id, createdAt)), Broadcast(id, MessageEvent(first, "user"))]
    + if assistant.Some? then [Broadcast(id, MessageEvent(assistant.value, "assistant"))] else []
  }

  /** The writes and broadcasts of a creation, in order. */
  function CreationEffects(request: TicketCreate, r: CreateReadings, svc: Services): seq<Effect> {
    CreationSteps(GenerateTicketId(r.ticketUuid), NewTicket(request, r, svc), FirstMessage(request, r),
                  CreationAssistant(request, r, svc), r.createdAt)
  }

  /** The answer of a creation. */
  function CreationResponse(request: TicketCreate, r: CreateReadings, svc: Services): Json {
    var id := GenerateTicketId(r.ticketUuid);
    var a := CreationAssistant(request, r, svc);
    JObj([Member("ticket_id", JStr(id)), Member("message", JStr("Ticket cree avec succes")),
          Member("tracking_url", JStr("/public/tickets/" + id)),
          Member("estimated_response_time", JStr("Sous 2 heures")),
          Member("analytics", CreationAnalytics(request.initialMessage, svc).GetOr(JNull))]
         + if a.Some? then [Member("assistant_message", a.value)] else [])
  }

  /** `create_ticket_public`, given what `storage.save_ticket` raised, if it
      raised. The save sits outside every `try`, so a raising save ends the
      request with its error, before any broadcast. */
  function CreationOutcome(request: TicketCreate, r: CreateReadings, svc: Services, write: Option<HttpError>): Outcome {
    match write
    case Some(e) => Outcome(Err(e), [SaveTicket(NewTicket(request, r, svc))])
    case None => Outcome(Ok(CreationResponse(request, r, svc)), CreationEffects(request, r, svc))
  }

  /** The save of the new ticket is always asked for, and first. The request
      succeeds exactly when the save returns; a raising save gives its own
      error and nothing is broadcast. */
  lemma CreationWriteDecides(request: TicketCreate, r: CreateReadings, svc: Services, write: Option<HttpError>)
    ensures var o := CreationOutcome(request, r, svc, write);
      && 1 <= |o.effects| && o.effects[0] == SaveTicket(NewTicket(request, r, svc))
      && (o.result.Ok? <==> write.None?)
      && (write.Some? ==> o.result == Err(write.value) && |o.effects| == 1)
      && (exists k :: 0 <= k < |o.effects| && o.effects[k].Broadcast?) == write.None?
  {
    if write.None? {
      CreationBroadcastOrder(request, r, svc);
      var o := CreationOutcome(request, r, svc, write);
      assert o.effects[1].Broadcast?;
    }
  }

  /** A new ticket is "nouveau" under its generated id, carries the messages
      built for it, and holds analytics exactly as the service produced them
      (none at all without the service). */
  lemma NewTicketShape(request: TicketCreate, r: CreateReadings, svc: Services)
    ensures var t := NewTicket(request, r, svc).members;
      && Lookup(t, "ticket_id") == Some(JStr(GenerateTicketId(r.ticketUuid)))
      && Lookup(t, "status") == Some(JStr("nouveau"))
      && Lookup(t, "messages") == Some(JArr(CreationMessages(request, r, svc)))
      && Lookup(t, "analytics") == CreationAnalytics(request.initialMessage, svc)
  {
    var a := CreationAnalytics(request.initialMessage, svc);
    var id := GenerateTicketId(r.ticketUuid);
    var ms := CreationMessages(request, r, svc);
    var extra := if a.Some? then [Member("analytics", a.value)] else [];
    assert NewTicket(request, r, svc).members == TicketFields(id, request, r.createdAt, ms) + extra;
    TicketIdField(id, request, r.createdAt, ms, extra);
    TicketStatusField(id, request, r.createdAt, ms, extra);
    TicketMessagesField(id, request, r.createdAt, ms, extra);
    TicketAnalyticsField(id, request, r.createdAt, ms, extra);
  }

  /** The messages of a new ticket: first the client's, carrying the initial
      text; then an assistant message, carrying the reply, exactly when the
      channel is "chat" and a reply was produced. */
  lemma CreationMessagesShape(request: TicketCreate, r: CreateReadings, svc: Services)
    ensures var ms := CreationMessages(request, r, svc);
      && 1 <= |ms| <= 2
      && Subscript(ms[0], "content") == Some(JStr(request.initialMessage))
      && Subscript(ms[0], "type") == Some(JStr("client"))
      && (|ms| == 2 <==> request.channel == "chat" && CreationReply(request.initialMessage, svc).Some?)
      && (|ms| == 2 ==> Subscript(ms[1], "type") == Some(JStr("assistant"))
                        && Subscript(ms[1], "content") == Some(JStr(CreationReply(request.initialMessage, svc).value)))
  {
    var author := JStr(NameOr(request.customerName, "Client"));
    MessageContent(r.messageUuid, JStr(request.initialMessage), author, r.messageAt, "client");
    MessageType(r.messageUuid, JStr(request.initialMessage), author, r.messageAt, "client");
    var text := CreationText(request, svc);
    if text.Some? {
      MessageContent(r.replyUuid, JStr(text.value), JStr("Assistant Free"), r.replyAt, "assistant");
      MessageType(r.replyUuid, JStr(text.value), JStr("Assistant Free"), r.replyAt, "assistant");
    }
  }

  /** The steps save the ticket, then announce it, then announce the first
      message as "user" and the assistant's, if any, as "assistant", all on
      the same id. */
  lemma CreationStepsOrder(id: string, ticket: Json, first: Json, assistant: Option<Json>, createdAt: string)
    ensures var e := CreationSteps(id, ticket, first, assistant, createdAt);
      var ms := [first] + if assistant.Some? then [assistant.value] else [];
      && |e| == 2 + |ms|
      && e[0] == SaveTicket(ticket)
      && e[1] == Broadcast(id, TicketCreatedEvent(id, createdAt))
      && (forall k :: 2 <= k < |e| ==> e[k] == Broadcast(id, MessageEvent(ms[k - 2], if k == 2 then "user" else "assistant")))
  {
  }

  /** A creation saves the ticket, then announces it, then announces each of
      its stored messages in stored order: the client's as "user", then the
      assistant's, if any, as "assistant". Every broadcast goes to the new id. */
  lemma CreationBroadcastOrder(request: TicketCreate, r: CreateReadings, svc: Services)
    ensures var e := CreationEffects(request, r, svc);
      var id := GenerateTicketId(r.ticketUuid);
      var ms := CreationMessages(request, r, svc);
      && |e| == 2 + |ms|
      && e[0] == SaveTicket(NewTicket(request, r, svc))
      && e[1] == Broadcast(id, TicketCreatedEvent(id, r.createdAt))
      && (forall k :: 2 <= k < |e| ==> e[k] == Broadcast(id, MessageEvent(ms[k - 2], if k == 2 then "user" else "assistant")))
  {
    CreationStepsOrder(GenerateTicketId(r.ticketUuid), NewTicket(request, r, svc), FirstMessage(request, r),
                       CreationAssistant(request, r, svc), r.createdAt);
  }

  // ================================================================ add_message_public

  datatype MessageCreate = MessageCreate(message: string, authorName: Option<string>)

  /** The readings of `uuid4` and of the clock a follow-up makes. */
  datatype MessageReadings = MessageReadings(messageUuid: string, messageAt: string, replyUuid: string, replyAt: string)

  const TicketNotFound := HttpError(404, JStr("Ticket non trouve"))
  const TicketClosed := HttpError(400, JStr("Ce ticket est ferme. Veuillez creer un nouveau ticket si besoin."))

  /** The status the public close writes. */
  const ClosedStatus := "fermé"

  /** The closed-ticket guard of `add_message_public` as written: only the
      unaccented "ferme" is refused. */
  predicate RefusesAsWritten(status: Json) {
    status == JStr("ferme")
  }

  /** The status the public close writes passes the guard as written. */
  lemma ClosedStatusPassesWrittenGuard()
    ensures !RefusesAsWritten(JStr(ClosedStatus))
  {
    assert ClosedStatus[4] != "ferme"[4];
  }

  /** The guard as intended: a closed ticket takes no more messages, whether
      its status is spelt with or without the accent. */
  predicate Refuses(status: Json) {
    status == JStr("ferme") || status == JStr(ClosedStatus)
  }

  /** The messages already stored: none when the key is absent, `None` when
      the value is no list (appending to it raises). */
  function StoredMessages(ticket: seq<Member>): Option<seq<Json>> {
    match Lookup(ticket, "messages")
    case None => Some([])
    case Some(JArr(items)) => Some(items)
    case Some(_) => None
  }

  /** A ticket that may take a message, and the messages it already has. */
  datatype Open = Open(ticket: seq<Member>, stored: seq<Json>)

  /** The checks `add_message_public` makes before adding the message: the
      read's own error, 404 for an empty record, 500 when the status cannot
      be read or the messages cannot be appended to, 400 for a closed ticket. */
  function FollowUpCheck(read: Result<Json, HttpError>): Result<Open, HttpError> {
    match read
    case Err(e) => Err(e)
    case Ok(ticket) =>
      if !Truthy(ticket) then Err(TicketNotFound)
      else match Subscript(ticket, "status")
        case None => Err(InternalError)
        case Some(status) =>
          if Refuses(status) then Err(TicketClosed)
          else match StoredMessages(ticket.members)
            case None => Err(InternalError)
            case Some(stored) => Ok(Open(ticket.members, stored))
  }

  /** What the analytics step leaves: the record to store under "analytics"
      and the sentiment copied onto the new message, each if any. The whole
      history goes to the service; nothing is stored when converting it or
      the service raises, and no sentiment is copied from a record that is
      not a dict. */
  datatype AnalyticsStep = AnalyticsStep(record: Option<Json>, sentiment: Option<Json>)

  function FollowUpAnalytics(history: seq<Json>, svc: Services): AnalyticsStep {
    match (svc.analytics, HistoryEntries(history))
    case (Some(analyze), Some(h)) =>
      (match analyze(h)
       case None => AnalyticsStep(None, None)
       case Some(v) => AnalyticsStep(Some(v), if v.JObj? then Some(GetOr(v, "sentiment", JStr("neutre"))) else None))
    case _ => AnalyticsStep(None, None)
  }

  /** The client's message, before any sentiment is added. */
  function ClientMessage(ticket: seq<Member>, request: MessageCreate, r: MessageReadings): Json {
    var author := if request.authorName.Some? && request.authorName.value != "" then JStr(request.authorName.value)
                  else Lookup(ticket, "customer_name").GetOr(JStr("Client"));
    Message(r.messageUuid, JStr(request.message), author, r.messageAt, "client")
  }

  /** `message["sentiment"] = value` on the message just built. */
  function WithSentiment(message: Json, sentiment: Option<Json>): Json {
    if sentiment.Some? && message.JObj? then JObj(message.members + [Member("sentiment", sentiment.value)]) else message
  }

  /** The ticket saved by a follow-up: its messages are `history` (a missing
      "messages" key is added last), then the analytics record is set. */
  function FollowUpTicket(ticket: seq<Member>, history: seq<Json>, record: Option<Json>): seq<Member> {
    var withMessages := SetKey(ticket, "messages", JArr(history));
    if record.Some? then SetKey(withMessages, "analytics", record.value) else withMessages
  }

  /** The answer of an accepted follow-up, before any assistant message. */
  function FollowUpResponse(r: MessageReadings): seq<Member> {
    [Member("message", JStr("Message ajoute avec succes")),
     Member("message_id", JStr(r.messageUuid)), Member("timestamp", JStr(r.messageAt))]
  }

  /** The answer of an accepted follow-up, with the assistant's message if any. */
  function FollowUpAnswer(r: MessageReadings, assistant: Option<Json>): Json {
    JObj(FollowUpResponse(r) + if assistant.Some? then [Member("assistant_message", assistant.value)] else [])
  }

  /** The writes and broadcasts of an accepted follow-up, in order, given the
      ticket saved, the client's message and the assistant's message if any. */
  function FollowUpSteps(ticketId: string, saved: Json, message: Json, assistant: Option<Json>): seq<Effect> {
    var user := Broadcast(ticketId, MessageEvent(message, "user"));
    match assistant
    case None => [SaveTicket(saved), user]
    case Some(a) => [SaveTicket(saved), StoreMessage(ticketId, a), user, Broadcast(ticketId, MessageEvent(a, "assistant"))]
  }

  /** The messages saved by a follow-up: the stored ones, then the client's
      with the sentiment the analytics step copied onto it. */
  function FollowUpHistory(open: Open, request: MessageCreate, r: MessageReadings, svc: Services): seq<Json> {
    var message := ClientMessage(open.ticket, request, r);
    open.stored + [WithSentiment(message, FollowUpAnalytics(open.stored + [message], svc).sentiment)]
  }

  /** The ticket a follow-up saves. */
  function FollowUpSaved(open: Open, request: MessageCreate, r: MessageReadings, svc: Services): Json {
    var message := ClientMessage(open.ticket, request, r);
    JObj(FollowUpTicket(open.ticket, FollowUpHistory(open, request, r, svc),
                        FollowUpAnalytics(open.stored + [message], svc).record))
  }

  /** The assistant's message of a follow-up, if any. */
  function FollowUpAssistant(open: Open, request: MessageCreate, r: MessageReadings, svc: Services): Option<Json> {
    match FollowUpReply(request.message, FollowUpHistory(open, request, r, svc), svc)
    case None => None
    case Some(text) => Some(AssistantMessage(r.replyUuid, text, r.replyAt))
  }

  /** What an accepted follow-up does, given what `storage.save_ticket`
      raised, if it raised. The save sits outside every `try`: a raising save
      ends the request with its error, before any reply is sought and before
      any broadcast. */
  function FollowUpAccepted(ticketId: string, request: MessageCreate, open: Open, r: MessageReadings,
                            svc: Services, write: Option<HttpError>): Outcome
  {
    if write.Some? then Outcome(Err(write.value), [SaveTicket(FollowUpSaved(open, request, r, svc))])
    else
      var assistant := FollowUpAssistant(open, request, r, svc);
      Outcome(Ok(FollowUpAnswer(r, assistant)),
              FollowUpSteps(ticketId, FollowUpSaved(open, request, r, svc), ClientMessage(open.ticket, request, r), assistant))
  }

  /** `add_message_public` on what `storage.get_ticket` gave and what
      `storage.save_ticket` raised, if it raised. */
  function FollowUpOutcome(ticketId: string, request: MessageCreate, read: Result<Json, HttpError>,
                           r: MessageReadings, svc: Services, write: Option<HttpError>): Outcome
  {
    match FollowUpCheck(read)
    case Err(e) => Outcome(Err(e), [])
    case Ok(open) => FollowUpAccepted(ticketId, request, open, r, svc, write)
  }

  /** The answer carries an assistant message exactly when there is one. */
  lemma FollowUpAnswerAssistant(r: MessageReadings, assistant: Option<Json>)
    ensures Lookup(FollowUpAnswer(r, assistant).members, "assistant_message") == assistant
  {
    var ms := FollowUpAnswer(r, assistant).members;
    if assistant.Some? {
      LookupAt(ms, "assistant_message", 3);
    } else {
      assert KeysOf(ms) == ["message", "message_id", "timestamp"];
      LookupKeys(ms, "assistant_message");
    }
  }

  /** A refused request changes nothing. An accepted one first saves the
      ticket with the message; when that save raises, its error ends the
      request there. Otherwise the user's message is broadcast before the
      assistant's, and the assistant's is stored and broadcast exactly when
      a reply was produced, which is when the answer carries it. */
  lemma FollowUpOrder(ticketId: string, request: MessageCreate, read: Result<Json, HttpError>,
                      r: MessageReadings, svc: Services, write: Option<HttpError>)
    ensures var o := FollowUpOutcome(ticketId, request, read, r, svc, write);
      && (o.result.Err? <==> FollowUpCheck(read).Err? || write.Some?)
      && (FollowUpCheck(read).Err? ==> o.effects == [] && o.result.error == FollowUpCheck(read).error)
      && (FollowUpCheck(read).Ok? && write.Some? ==>
            o == Outcome(Err(write.value), [SaveTicket(FollowUpSaved(FollowUpCheck(read).value, request, r, svc))]))
      && (o.result.Ok? ==>
            var open := FollowUpCheck(read).value;
            var user := Broadcast(ticketId, MessageEvent(ClientMessage(open.ticket, request, r), "user"));
            var saved := SaveTicket(FollowUpSaved(open, request, r, svc));
            var a := Lookup(o.result.value.members, "assistant_message");
            && o.result.value.JObj?
            && (a.Some? <==> FollowUpReply(request.message, FollowUpHistory(open, request, r, svc), svc).Some?)
            && (a.None? ==> o.effects == [saved, user])
            && (a.Some? ==> o.effects == [saved, StoreMessage(ticketId, a.value), user,
                                          Broadcast(ticketId, MessageEvent(a.value, "assistant"))]))
  {
    if FollowUpCheck(read).Ok? && write.None? {
      var open := FollowUpCheck(read).value;
      FollowUpAnswerAssistant(r, FollowUpAssistant(open, request, r, svc));
    }
  }

  /** The saved ticket holds the new message list and keeps every other
      field; the analytics record replaces the stored one when the step
      produced one. */
  lemma FollowUpSavesMessage(open: Open, request: MessageCreate, r: MessageReadings, svc: Services, k: string)
    requires k != "messages" && k != "analytics"
    ensures var step := FollowUpAnalytics(open.stored + [ClientMessage(open.ticket, request, r)], svc);
      var saved := FollowUpSaved(open, request, r, svc).members;
      && Lookup(saved, "messages") == Some(JArr(FollowUpHistory(open, request, r, svc)))
      && Lookup(saved, "analytics") == (if step.record.Some? then step.record else Lookup(open.ticket, "analytics"))
      && Lookup(saved, k) == Lookup(open.ticket, k)
  {
  }

  /** The new message list keeps the earlier messages and ends with the
      client's, carrying the request's text and the copied sentiment if any. */
  lemma FollowUpHistoryShape(open: Open, request: MessageCreate, r: MessageReadings, svc: Services)
    ensures var step := FollowUpAnalytics(open.stored + [ClientMessage(open.ticket, request, r)], svc);
      var history := FollowUpHistory(open, request, r, svc);
      var n := |open.stored|;
      && |history| == n + 1 && history[..n] == open.stored
      && Subscript(history[n], "content") == Some(JStr(request.message))
      && Subscript(history[n], "type") == Some(JStr("client"))
      && (step.sentiment.Some? ==> Subscript(history[n], "sentiment") == step.sentiment)
  {
    var message := ClientMessage(open.ticket, request, r);
    var step := FollowUpAnalytics(open.stored + [message], svc);
    MessageWithSentiment(r.messageUuid, JStr(request.message), message.members[2].value, r.messageAt, "client",
                         step.sentiment);
    var history := FollowUpHistory(open, request, r, svc);
    assert history[..|open.stored|] == open.stored;
  }

  /** A message keeps its content and type when the sentiment is copied onto
      it, and then carries that sentiment. */
  lemma MessageWithSentiment(id: string, content: Json, author: Json, at: string, kind: string, sentiment: Option<Json>)
    ensures var m := WithSentiment(Message(id, content, author, at, kind), sentiment);
      && Subscript(m, "content") == Some(content)
      && Subscript(m, "type") == Some(JStr(kind))
      && (sentiment.Some? ==> Subscript(m, "sentiment") == sentiment)
  {
    var m := WithSentiment(Message(id, content, author, at, kind), sentiment);
    if sentiment.Some? {
      LookupAt(m.members, "content", 1);
      LookupAt(m.members, "type", 4);
      LookupAt(m.members, "sentiment", 5);
    } else {
      MessageContent(id, content, author, at, kind);
      MessageType(id, content, author, at, kind);
    }
  }

  /** A ticket whose status is "fermé" or "ferme" takes no message: the
      request fails with 400 and nothing is written or broadcast, whatever
      the save would have done. */
  lemma ClosedTicketRefusesMessages(ticketId: string, request: MessageCreate, ticket: Json,
                                    r: MessageReadings, svc: Services, write: Option<HttpError>)
    requires Truthy(ticket)
    requires Subscript(ticket, "status") == Some(JStr(ClosedStatus)) || Subscript(ticket, "status") == Some(JStr("ferme"))
    ensures FollowUpOutcome(ticketId, request, Ok(ticket), r, svc, write) == Outcome(Err(TicketClosed), [])
  {
  }

  // ================================================================ update_ticket_status_public

  const OnlyClosing := HttpError(400, JStr("Seule la fermeture du ticket est autorisée publiquement"))
  const TicketNotFoundAccented := HttpError(404, JStr("Ticket non trouvé"))

  const StatusUpdatedEvent: Json := JObj([Member("type", JStr("status_updated")), Member("status", JStr(ClosedStatus))])

  const AlreadyClosed: Json := JObj([Member("message", JStr("Ticket déjà fermé")), Member("status", JStr(ClosedStatus))])

  function ClosedAnswer(closedAt: string): Json {
    JObj([Member("message", JStr("Ticket fermé avec succès")), Member("status", JStr(ClosedStatus)),
          Member("closed_at", JStr(closedAt))])
  }

  /** `update_ticket_status_public` on the requested status, what
      `storage.get_ticket` gave and what `storage.update_ticket_status`
      raised, if it raised. The update sits outside every `try`, so a raising
      update ends the request with its error, before the broadcast. */
  function CloseOutcome(ticketId: string, status: string, read: Result<Json, HttpError>, closedAt: string,
                        write: Option<HttpError>): Outcome
  {
    if status != ClosedStatus then Outcome(Err(OnlyClosing), [])
    else match read
      case Err(e) => Outcome(Err(e), [])
      case Ok(ticket) =>
        if !Truthy(ticket) then Outcome(Err(TicketNotFoundAccented), [])
        else match Subscript(ticket, "status")
          case None => Outcome(Err(InternalError), [])
          case Some(current) =>
            if current == JStr(ClosedStatus) then Outcome(Ok(AlreadyClosed), [])
            else if write.Some? then Outcome(Err(write.value), [SetStatus(ticketId, ClosedStatus, closedAt)])
            else Outcome(Ok(ClosedAnswer(closedAt)),
                         [SetStatus(ticketId, ClosedStatus, closedAt), Broadcast(ticketId, StatusUpdatedEvent)])
  }

  /** Only "fermé" may be requested; an already closed ticket costs no write
      and no broadcast; any other readable ticket gets exactly one write, of
      "fermé". That write is followed by one status_updated broadcast when it
      returns; when it raises, its error is the answer and nothing is
      broadcast. */
  lemma CloseGuard(ticketId: string, status: string, read: Result<Json, HttpError>, closedAt: string,
                   write: Option<HttpError>)
    ensures var o := CloseOutcome(ticketId, status, read, closedAt, write);
      && (status != ClosedStatus ==> o == Outcome(Err(OnlyClosing), []))
      && (o.effects != [] <==>
            status == ClosedStatus && read.Ok? && Truthy(read.value)
            && Subscript(read.value, "status").Some? && Subscript(read.value, "status") != Some(JStr(ClosedStatus)))
      && (o.effects != [] && write.None? ==>
            o.effects == [SetStatus(ticketId, ClosedStatus, closedAt), Broadcast(ticketId, StatusUpdatedEvent)])
      && (o.effects != [] && write.Some? ==>
            o.effects == [SetStatus(ticketId, ClosedStatus, closedAt)] && o.result == Err(write.value))
      && (o.result.Ok? ==> o.result.value.JObj? && Lookup(o.result.value.members, "status") == Some(JStr(ClosedStatus)))
  {
    LookupAt(AlreadyClosed.members, "status", 1);
    LookupAt(ClosedAnswer(closedAt).members, "status", 1);
  }

  /** Against the file store: the public close of a stored ticket writes
      without raising, and afterwards the ticket reads back as "fermé", so
      closing it again writes nothing and (with the intended guard) a message
      is refused; the guard as written would let it through. */
  lemma CloseThenMessage(ts: seq<Member>, ticketId: string, closedAt: string, parseTime: string -> Option<int>,
                         again: string, request: MessageCreate, r: MessageReadings, svc: Services,
                         write: Option<HttpError>)
    requires JsonStore.GetSpec(ts, ticketId).Ok? && JsonStore.GetSpec(ts, ticketId).value.JObj?
    requires CloseOutcome(ticketId, ClosedStatus, JsonStore.GetSpec(ts, ticketId), closedAt, None).effects != []
    ensures JsonStore.UpdateSpec(ts, ticketId, ClosedStatus, Some(closedAt), parseTime).result.Ok?
    ensures var after := JsonStore.UpdateSpec(ts, ticketId, ClosedStatus, Some(closedAt), parseTime).tickets;
      var read := JsonStore.GetSpec(after, ticketId);
      && read.Ok? && Subscript(read.value, "status") == Some(JStr(ClosedStatus))
      && CloseOutcome(ticketId, ClosedStatus, read, again, write).effects == []
      && FollowUpOutcome(ticketId, request, read, r, svc, write) == Outcome(Err(TicketClosed), [])
      && !RefusesAsWritten(Subscript(read.value, "status").value)
  {
    var t := JsonStore.GetSpec(ts, ticketId).value;
    var u := JObj(JsonStore.UpdateTicket(t.members, ClosedStatus, Some(closedAt), parseTime));
    JsonStore.UpdateFields(t.members, ClosedStatus, Some(closedAt), parseTime, "status");
    JsonStore.SaveThenGet(ts, ticketId, u, ticketId, u);
    assert Lookup(u.members, "status") == Some(JStr(ClosedStatus));
    assert Truthy(u);
    ClosedStatusPassesWrittenGuard();
  }

  // ================================================================ the router

  /** The router, with the storage writes and broadcasts it has asked for. */
  class PublicRouter {
    var effects: seq<Effect>

    constructor ()
      ensures effects == []
    {
      effects := [];
    }

    /** `create_ticket_public`, given what the save raised, if it raised. */
    method CreateTicket(request: TicketCreate, readings: CreateReadings, svc: Services, write: Option<HttpError>)
      returns (result: Result<Json, HttpError>)
      modifies this
      ensures effects == old(effects) + CreationOutcome(request, readings, svc, write).effects
      ensures result == CreationOutcome(request, readings, svc, write).result
    {
      var ticketId := GenerateTicketId(readings.ticketUuid);
      var analytics := CreationAnalytics(request.initialMessage, svc);
      var assistant := CreationAssistant(request, readings, svc);
      var ticket := NewTicket(request, readings, svc);
      effects := effects + [SaveTicket(ticket)];
      if write.Some? {
        return Err(write.value);
      }
      effects := effects + [Broadcast(ticketId, TicketCreatedEvent(ticketId, readings.createdAt))];
      effects := effects + [Broadcast(ticketId, MessageEvent(FirstMessage(request, readings), "user"))];
      var members := [Member("ticket_id", JStr(ticketId)), Member("message", JStr("Ticket cree avec succes")),
                      Member("tracking_url", JStr("/public/tickets/" + ticketId)),
                      Member("estimated_response_time", JStr("Sous 2 heures")),
                      Member("analytics", analytics.GetOr(JNull))];
      if assistant.Some? {
        effects := effects + [Broadcast(ticketId, MessageEvent(assistant.value, "assistant"))];
        members := members + [Member("assistant_message", assistant.value)];
      }
      assert JObj(members) == CreationResponse(request, readings, svc);
      result := Ok(JObj(members));
      ghost var first := Broadcast(ticketId, MessageEvent(FirstMessage(request, readings), "user"));
      ghost var created := Broadcast(ticketId, TicketCreatedEvent(ticketId, readings.createdAt));
      if assistant.Some? {
        Seqs.AppendFour(old(effects), SaveTicket(ticket), created, first,
                        Broadcast(ticketId, MessageEvent(assistant.value, "assistant")));
      } else {
        Seqs.AppendThree(old(effects), SaveTicket(ticket), created, first);
      }
    }

    /** `add_message_public`, given what the read gave and what the save
        raised, if it raised. */
    method AddMessage(ticketId: string, request: MessageCreate, read: Result<Json, HttpError>,
                      readings: MessageReadings, svc: Services, write: Option<HttpError>)
      returns (result: Result<Json, HttpError>)
      modifies this
      ensures effects == old(effects) + FollowUpOutcome(ticketId, request, read, readings, svc, write).effects
      ensures result == FollowUpOutcome(ticketId, request, read, readings, svc, write).result
    {
      var check := FollowUpCheck(read);
      if check.Err? {
        return Err(check.error);
      }
      var open := check.value;
      var message := ClientMessage(open.ticket, request, readings);
      effects := effects + [SaveTicket(FollowUpSaved(open, request, readings, svc))];
      if write.Some? {
        return Err(write.value);
      }
      var assistant := FollowUpAssistant(open, request, readings, svc);
      if assistant.Some? {
        effects := effects + [StoreMessage(ticketId, assistant.value)];
      }
      effects := effects + [Broadcast(ticketId, MessageEvent(message, "user"))];
      if assistant.Some? {
        effects := effects + [Broadcast(ticketId, MessageEvent(assistant.value, "assistant"))];
      }
      ghost var saved := SaveTicket(FollowUpSaved(open, request, readings, svc));
      ghost var user := Broadcast(ticketId, MessageEvent(message, "user"));
      if assistant.Some? {
        Seqs.AppendFour(old(effects), saved, StoreMessage(ticketId, assistant.value), user,
                        Broadcast(ticketId, MessageEvent(assistant.value, "assistant")));
      } else {
        Seqs.AppendTwo(old(effects), saved, user);
      }
      result := Ok(FollowUpAnswer(readings, assistant));
    }

    /** `update_ticket_status_public`, given what the read gave and what the
        status update raised, if it raised. */
    method UpdateStatus(ticketId: string, status: string, read: Result<Json, HttpError>, closedAt: string,
                        write: Option<HttpError>)
      returns (result: Result<Json, HttpError>)
      modifies this
      ensures effects == old(effects) + CloseOutcome(ticketId, status, read, closedAt, write).effects
      ensures result == CloseOutcome(ticketId, status, read, closedAt, write).result
    {
      if status != ClosedStatus {
        return Err(OnlyClosing);
      }
      if read.Err? {
        return Err(read.error);
      }
      if !Truthy(read.value) {
        return Err(TicketNotFoundAccented);
      }
      var current := Subscript(read.value, "status");
      if current.None? {
        return Err(InternalError);
      }
      if current.value == JStr(ClosedStatus) {
        return Ok(AlreadyClosed);
      }
      effects := effects + [SetStatus(ticketId, ClosedStatus, closedAt)];
      if write.Some? {
        return Err(write.value);
      }
      effects := effects + [Broadcast(ticketId, StatusUpdatedEvent)];
      result := Ok(ClosedAnswer(closedAt));
    }
  }
}
