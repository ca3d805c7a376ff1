/**
  Automatic ticket analysis of backend/app/services/ai/analytics.py: a cost
  guard on the last message, a prompt built from the last five messages, one
  call to the Mistral client, and a defensive parse of the model's answer
  into six indicators with per-field defaults. `json.loads` is an oracle
  `decode`; the markdown-fence removal and the brace extraction that come
  before it are written out.
*/
module Analytics {
  import opened Wrappers
  import Text
  import Decimal
  import opened JsonValue
  import opened Http
  import Mistral

  // ================================================================ the indicators

  /** The six indicators. `churnRisk` is the already converted integer. */
  datatype Fields = Fields(
    sentiment: Json,
    category: Json,
    urgency: Json,
    churnRisk: int,
    summary: Json,
    nextAction: Json)

  /** The returned dict: the indicators, `analyzed_at`, and whether the
      `alert: "URGENT_RETENTION"` entry is present. */
  datatype Report = Report(fields: Fields, analyzedAt: string, alert: bool)

  const DefaultFields := Fields(JStr("neutre"), JStr("autre"), JStr("moyenne"), 0,
                                JStr("En attente d'analyse"), JStr("À traiter"))

  /** `_get_default_analytics()` at clock reading `now`. */
  function DefaultReport(now: string): (r: Report)
    ensures r.fields.churnRisk == 0 && !r.alert && r.analyzedAt == now
  {
    Report(DefaultFields, now, false)
  }

  // ================================================================ the guard

  /** A message as the routers hand it over: optional `role` and `content`. */
  datatype Turn = Turn(role: Option<string>, content: Option<string>)

  const TrivialReplies: seq<string> := ["ok", "merci", "d'accord", "non", "oui"]

  /** Which way `analyze_ticket` goes before its `try`. */
  datatype Gate = NoClient | KeyMissing | Trivial | Proceed

  /** The text the guard inspects: the last message's content, or "" with no messages. */
  function LastContent(messages: seq<Turn>): string
    requires messages == [] || messages[|messages| - 1].content.Some?
  {
    if messages == [] then "" else messages[|messages| - 1].content.value
  }

  function Guard(hasClient: bool, messages: seq<Turn>): (g: Gate)
    ensures g == KeyMissing <==> hasClient && messages != [] && messages[|messages| - 1].content.None?
    ensures g == Proceed ==> messages != [] && messages[|messages| - 1].content.Some?
    ensures g == Proceed ==> |LastContent(messages)| >= 5
    ensures g == Proceed ==> Text.Lower(LastContent(messages)) !in TrivialReplies
  {
    if !hasClient then NoClient
    else if messages != [] && messages[|messages| - 1].content.None? then KeyMissing
    else
      var last := LastContent(messages);
      if |last| < 5 || Text.Lower(last) in TrivialReplies then Trivial else Proceed
  }

  /** Three of the five trivial replies are shorter than five characters, so
      past the length test only "merci" and "d'accord" still matter. */
  lemma TrivialCases(hasClient: bool, messages: seq<Turn>)
    requires hasClient && (messages == [] || messages[|messages| - 1].content.Some?)
    ensures Guard(hasClient, messages) == Trivial <==>
      (var last := LastContent(messages);
       |last| < 5 || Text.Lower(last) == "merci" || Text.Lower(last) == "d'accord")
  {
    var last := LastContent(messages);
    if |last| >= 5 && Text.Lower(last) in TrivialReplies {
      var l := Text.Lower(last);
      assert |l| == |last|;
      assert l == "merci" || l == "d'accord";
    }
  }

  // ================================================================ the prompt

  function Line(t: Turn): string {
    Text.Upper(t.role.GetOr("user")) + ": " + t.content.GetOr("")
  }

  function Lines(ms: seq<Turn>): (r: seq<string>)
    ensures |r| == |ms| && forall i :: 0 <= i < |ms| ==> r[i] == Line(ms[i])
  {
    seq(|ms|, i requires 0 <= i < |ms| => Line(ms[i]))
  }

  /** `messages[-5:]`. */
  function Window(messages: seq<Turn>): seq<Turn> {
    Text.Last(messages, 5)
  }

  function Conversation(ms: seq<Turn>): string {
    Text.Join("\n", Lines(ms))
  }

  const PromptHead := "Tu es un expert en analyse de support client pour Free.\n\n"
    + "TACHE : Analyser la conversation et extraire les indicateurs clés.\n\n"
    + "CONVERSATION :\n"

  const PromptTail := "\n\nFORMAT DE REPONSE ATTENDU (JSON UNIQUEMENT) :\n{\n"
    + "  \"sentiment\": \"positif\" | \"neutre\" | \"negatif\",\n"
    + "  \"category\": \"facturation\" | \"technique\" | \"commercial\" | \"resiliation\" | \"autre\",\n"
    + "  \"urgency\": \"basse\" | \"moyenne\" | \"haute\",\n"
    + "  \"churn_risk\": 0 à 100 (probabilité de départ),\n"
    + "  \"summary\": \"résumé TRES PRECIS du problème technique ou commercial (max 15 mots)\",\n"
    + "  \"next_action\": \"action recommandée pour l'agent\"\n}\n\n"
    + "CRITERES STRICTS :\n"
    + "- Sentiment : 'neutre' est INTERDIT si le client exprime un problème. Utiliser 'negatif' pour tout problème, 'positif' pour un remerciement.\n"
    + "- Summary : Ne jamais mettre \"Demande de support\". Etre précis (ex: \"Panne fibre depuis 3 jours\", \"Erreur facture 49€\").\n"
    + "- Churn Risk : > 80 si mention de 'résiliation', 'concurrent', 'trop cher', 'départ'.\n"
    + "- Urgence : 'haute' si panne totale, blocage bloquant ou risque de churn élevé.\n\n"
    + "REPONDS UNIQUEMENT AVEC LE JSON."

  /** `template.format(conversation=...)` for a template whose one
      placeholder sits between `head` and `tail`. */
  function Fill(head: string, tail: string, conversation: string): string {
    head + conversation + tail
  }

  /** `ANALYTICS_PROMPT.format(conversation=...)`. */
  function Prompt(conversation: string): string {
    Fill(PromptHead, PromptTail, conversation)
  }

  /** The single message sent to the model, for a given template. */
  function RequestWith(head: string, tail: string, messages: seq<Turn>): seq<Mistral.ChatMessage> {
    [Mistral.ChatMessage("user", Fill(head, tail, Conversation(Window(messages))))]
  }

  /** The single message sent to the model. */
  function Request(messages: seq<Turn>): seq<Mistral.ChatMessage> {
    RequestWith(PromptHead, PromptTail, messages)
  }

  /** `temperature=0.1`, in hundredths. */
  const Temperature := 10
  const MaxTokens := 300

  lemma JoinEndsWithLast(sep: string, parts: seq<string>, last: string)
    requires parts != [] && parts[|parts| - 1] == last
    ensures Text.EndsWith(Text.Join(sep, parts), last)
  {
  }

  /** The prompt holds the last five messages (or all of them when fewer),
      in order, one `ROLE: content` line each. */
  lemma PromptWindow(messages: seq<Turn>)
    ensures var n := if |messages| < 5 then |messages| else 5;
      && Window(messages) == messages[|messages| - n..]
      && |Lines(Window(messages))| == n
      && forall i :: 0 <= i < n ==> Lines(Window(messages))[i] == Line(messages[|messages| - n + i])
  {
  }

  /** The conversation ends with the line of the last message. */
  lemma ConversationEndsWithLast(messages: seq<Turn>)
    requires messages != []
    ensures Text.EndsWith(Conversation(Window(messages)), Line(messages[|messages| - 1]))
  {
    var w := Window(messages);
    assert |w| >= 1;
    assert w[|w| - 1] == messages[|messages| - 1];
    var lines := Lines(w);
    assert |lines| == |w|;
    assert lines[|lines| - 1] == Line(w[|w| - 1]);
    JoinEndsWithLast("\n", lines, Line(messages[|messages| - 1]));
  }

  lemma PromptHoldsConversation(conversation: string)
    ensures Text.Contains(Prompt(conversation), conversation)
  {
    Text.ContainsMiddle(PromptHead, conversation, PromptTail);
  }

  // ================================================================ cleaning the answer

  /** The length of the run of whitespace that starts at `i`. */
  function SpaceRun(s: string, i: nat): (n: nat)
    requires i <= |s|
    ensures i + n <= |s|
    ensures forall k :: i <= k < i + n ==> Text.IsSpace(s[k])
    ensures i + n == |s| || !Text.IsSpace(s[i + n])
    decreases |s| - i
  {
    if i < |s| && Text.IsSpace(s[i]) then 1 + SpaceRun(s, i + 1) else 0
  }

  /** `re.sub(r'```json\s*|\s*```', '', s)`: scanning left to right, remove
      "```json" with the whitespace after it, or a whitespace run (possibly
      empty) followed by "```". */
  function StripFences(s: string): string
    decreases |s|
  {
    if s == [] then ""
    else if Text.StartsWith(s, "```json") then StripFences(s[7 + SpaceRun(s, 7)..])
    else
      var n := SpaceRun(s, 0);
      if Text.StartsWith(s[n..], "```") then StripFences(s[n + 3..])
      else [s[0]] + StripFences(s[1..])
  }

  lemma NotStartsWith(s: string, p: string)
    requires p != [] && (s == [] || s[0] != p[0])
    ensures !Text.StartsWith(s, p)
  {
    if |p| <= |s| {
      assert s[..|p|][0] == s[0];
    }
  }

  predicate NoBacktick(s: string) {
    forall i :: 0 <= i < |s| ==> s[i] != '`'
  }

  /** An answer without backticks passes through untouched. */
  lemma {:induction false} StripFencesPlain(s: string)
    requires NoBacktick(s)
    ensures StripFences(s) == s
  {
    if s != [] {
      NotStartsWith(s, "```json");
      var n := SpaceRun(s, 0);
      NotStartsWith(s[n..], "```");
      StripFencesPlain(s[1..]);
      assert s == [s[0]] + s[1..];
    }
  }

  /** `SpaceRun` is the length of a whitespace run that ends at a non-space or the end. */
  lemma {:induction false} SpaceRunIs(s: string, i: nat, k: nat)
    requires i + k <= |s|
    requires forall j :: i <= j < i + k ==> Text.IsSpace(s[j])
    requires i + k == |s| || !Text.IsSpace(s[i + k])
    ensures SpaceRun(s, i) == k
    decreases k
  {
    if k > 0 {
      SpaceRunIs(s, i + 1, k - 1);
    }
  }

  // The two non-opening cases of `StripFences`, one step each.

  lemma StripFencesCloseStep(s: string)
    requires s != [] && !Text.StartsWith(s, "```json") && Text.StartsWith(s[SpaceRun(s, 0)..], "```")
    ensures StripFences(s) == StripFences(s[SpaceRun(s, 0) + 3..])
  {
  }

  lemma StripFencesKeepStep(s: string)
    requires s != [] && !Text.StartsWith(s, "```json") && !Text.StartsWith(s[SpaceRun(s, 0)..], "```")
    ensures StripFences(s) == [s[0]] + StripFences(s[1..])
  {
  }

  /** A whitespace run and a closing fence are removed together. */
  lemma CloseFence(ws: string)
    requires forall i :: 0 <= i < |ws| ==> Text.IsSpace(ws[i])
    ensures StripFences(ws + "```") == ""
  {
    var s := ws + "```";
    if |ws| > 0 { NotStartsWith(s, "```json"); } else { assert |s| == 3; }
    assert s[|ws|] == '`';
    SpaceRunIs(s, 0, |ws|);
    assert s[|ws|..] == "```" && s[|ws| + 3..] == "";
    StripFencesCloseStep(s);
  }

  /** A character that is neither a backtick nor followed by a whitespace run
      and a fence is kept. */
  lemma KeepFirst(body: string, ws: string)
    requires NoBacktick(body) && body != [] && !Text.IsSpace(body[|body| - 1])
    ensures var s := body + ws + "```";
      StripFences(s) == [body[0]] + StripFences(body[1..] + ws + "```")
  {
    var s := body + ws + "```";
    assert s[0] == body[0];
    NotStartsWith(s, "```json");
    var n := SpaceRun(s, 0);
    assert s[|body| - 1] == body[|body| - 1];
    assert n < |body|;
    assert s[n..][0] == body[n];
    NotStartsWith(s[n..], "```");
    assert s[1..] == body[1..] + ws + "```";
    StripFencesKeepStep(s);
  }

  /** The text before a closing fence survives, whitespace before the fence excepted. */
  lemma {:induction false} StripFencesTail(body: string, ws: string)
    requires NoBacktick(body) && (body == [] || !Text.IsSpace(body[|body| - 1]))
    requires forall i :: 0 <= i < |ws| ==> Text.IsSpace(ws[i])
    ensures StripFences(body + ws + "```") == body
  {
    if body == [] {
      assert body + ws + "```" == ws + "```";
      CloseFence(ws);
    } else {
      KeepFirst(body, ws);
      var tail := body[1..];
      assert tail == [] || tail[|tail| - 1] == body[|body| - 1];
      assert forall i :: 0 <= i < |tail| ==> tail[i] == body[i + 1];
      StripFencesTail(tail, ws);
      assert body == [body[0]] + body[1..];
    }
  }

  /** An opening fence is removed with the whitespace after it. */
  lemma OpenFence(x: string)
    ensures var s := "```json" + x;
      StripFences(s) == StripFences(s[7 + SpaceRun(s, 7)..])
  {
    var s := "```json" + x;
    assert s[..7] == "```json";
  }

  lemma OpenFenceRun(lead: string, rest: string)
    requires forall i :: 0 <= i < |lead| ==> Text.IsSpace(lead[i])
    requires rest != [] && !Text.IsSpace(rest[0])
    ensures var s := "```json" + (lead + rest);
      SpaceRun(s, 7) == |lead| && s[7 + |lead|..] == rest
  {
    var s := "```json" + (lead + rest);
    forall j | 7 <= j < 7 + |lead| ensures Text.IsSpace(s[j]) {
      assert s[j] == lead[j - 7];
    }
    assert s[7 + |lead|] == rest[0];
    SpaceRunIs(s, 7, |lead|);
  }

  /** A fenced answer, "```json", whitespace, body, whitespace, "```", gives back the body. */
  lemma StripFencesFenced(lead: string, body: string, trail: string)
    requires NoBacktick(body) && body != [] && !Text.IsSpace(body[0]) && !Text.IsSpace(body[|body| - 1])
    requires forall i :: 0 <= i < |lead| ==> Text.IsSpace(lead[i])
    requires forall i :: 0 <= i < |trail| ==> Text.IsSpace(trail[i])
    ensures StripFences("```json" + (lead + (body + trail + "```"))) == body
  {
    var rest := body + trail + "```";
    assert rest[0] == body[0];
    OpenFence(lead + rest);
    OpenFenceRun(lead, rest);
    StripFencesTail(body, trail);
  }

  function FirstIndex(s: string, c: char): (r: Option<nat>)
    ensures r.Some? ==> r.value < |s| && s[r.value] == c && forall k :: 0 <= k < r.value ==> s[k] != c
    ensures r.None? ==> forall k :: 0 <= k < |s| ==> s[k] != c
  {
    if s == [] then None
    else if s[0] == c then Some(0)
    else match FirstIndex(s[1..], c)
      case None => None
      case Some(i) => Some(i + 1)
  }

  function LastIndex(s: string, c: char): (r: Option<nat>)
    ensures r.Some? ==> r.value < |s| && s[r.value] == c && forall k :: r.value < k < |s| ==> s[k] != c
    ensures r.None? ==> forall k :: 0 <= k < |s| ==> s[k] != c
  {
    if s == [] then None
    else if s[|s| - 1] == c then Some(|s| - 1)
    else LastIndex(s[..|s| - 1], c)
  }

  /** `re.search(r'\{.*\}', s, re.DOTALL)`: the greedy match runs from the
      first `{` to the last `}` after it; without a match `s` is kept. */
  function ExtractBraces(s: string): (r: string)
    ensures r == s || (|r| >= 2 && r[0] == '{' && r[|r| - 1] == '}')
  {
    match (FirstIndex(s, '{'), LastIndex(s, '}'))
    case (Some(i), Some(j)) => if i < j then s[i..j + 1] else s
    case _ => s
  }

  /** Text around one outermost pair of braces is cut off, whatever lies
      between them. */
  lemma ExtractBracesOuter(prefix: string, mid: string, suffix: string)
    requires forall k :: 0 <= k < |prefix| ==> prefix[k] != '{'
    requires forall k :: 0 <= k < |suffix| ==> suffix[k] != '}'
    ensures ExtractBraces(prefix + "{" + mid + "}" + suffix) == "{" + mid + "}"
  {
    var s := prefix + "{" + mid + "}" + suffix;
    var i := |prefix|;
    var j := |prefix| + 1 + |mid|;
    assert s[i] == '{' && s[j] == '}';
    assert forall k :: 0 <= k < i ==> s[k] == prefix[k];
    assert forall k :: j < k < |s| ==> s[k] == suffix[k - j - 1];
    assert FirstIndex(s, '{') == Some(i);
    assert LastIndex(s, '}') == Some(j);
    assert s[i..j + 1] == "{" + mid + "}";
  }

  /** `clean_response` before `json.loads`. */
  function Candidate(response: string): string {
    ExtractBraces(Text.Strip(StripFences(response)))
  }

  // ================================================================ field conversion

  /** `int(s)` on a string, for the forms modelled here: surrounding ASCII
      whitespace, an optional sign and ASCII decimal digits. Underscores
      between digits and non-ASCII digits, which Python also accepts, are
      rejected. */
  function ParseIntStr(s: string): Option<int> {
    ParseSigned(Text.Strip(s))
  }

  function ParseSigned(t: string): Option<int> {
    if t != [] && (t[0] == '-' || t[0] == '+') then
      match ParseUnsigned(t[1..])
      case None => None
      case Some(v) => Some(if t[0] == '-' then -v else v)
    else ParseUnsigned(t)
  }

  function ParseUnsigned(d: string): Option<int> {
    if d != [] && Decimal.AllDigits(d) then Some(Decimal.DigitsValue(d)) else None
  }

  lemma ParseDigits(d: string)
    requires d != [] && Decimal.AllDigits(d)
    ensures ParseIntStr(d) == Some(Decimal.DigitsValue(d) as int)
  {
    assert !Text.IsSpace(d[0]) && !Text.IsSpace(d[|d| - 1]);
    Text.StripOfTrimmed(d);
  }

  lemma ParseNegDigits(d: string, m: string, v: nat)
    requires d != [] && Decimal.AllDigits(d) && m == "-" + d && Decimal.DigitsValue(d) == v
    ensures ParseIntStr(m) == Some(-(v as int))
  {
    assert m[0] == '-' && m[|m| - 1] == d[|d| - 1];
    Text.StripOfTrimmed(m);
    assert m[1..] == d;
    assert ParseUnsigned(m[1..]) == Some(v as int);
  }

  lemma ParseNatString(n: nat)
    ensures ParseIntStr(Decimal.NatToString(n)) == Some(n as int)
  {
    Decimal.NatToStringRoundTrip(n);
    ParseDigits(Decimal.NatToString(n));
  }

  lemma ParseNegString(i: int)
    requires i < 0
    ensures ParseIntStr("-" + Decimal.NatToString(-i)) == Some(i)
  {
    Decimal.NatToStringRoundTrip(-i);
    ParseNegDigits(Decimal.NatToString(-i), "-" + Decimal.NatToString(-i), -i);
  }

  /** `int(str(i))` is `i`. */
  lemma ParseIntStrRoundTrip(i: int)
    ensures ParseIntStr(Decimal.IntToString(i)) == Some(i)
  {
    if i < 0 {
      ParseNegString(i);
    } else {
      ParseNatString(i);
    }
  }

  /** Python's `int(v)` on a decoded value; `None` where it raises. */
  function PyInt(v: Json): Option<int> {
    match v
    case JInt(i) => Some(i)
    case JBool(b) => Some(if b then 1 else 0)
    case JStr(s) => ParseIntStr(s)
    case _ => None
  }

  /** `min(max(x, 0), 100)`. */
  function Clamp(x: int): (r: int)
    ensures 0 <= r <= 100
    ensures 0 <= x <= 100 ==> r == x
    ensures x < 0 ==> r == 0
    ensures x > 100 ==> r == 100
  {
    if x < 0 then 0 else if x > 100 then 100 else x
  }

  /** `v[:100]`, which exists for strings and lists and raises otherwise. */
  function Slice100(v: Json): (r: Option<Json>)
    ensures r.Some? <==> v.JStr? || v.JArr?
    ensures v.JStr? ==> r == Some(JStr(Text.Take(v.s, 100)))
    ensures v.JArr? ==> r == Some(JArr(Text.Take(v.items, 100)))
  {
    match v
    case JStr(s) => Some(JStr(Text.Take(s, 100)))
    case JArr(items) => Some(JArr(Text.Take(items, 100)))
    case _ => None
  }

  predicate Bounded100(v: Json) {
    (v.JStr? && |v.s| <= 100) || (v.JArr? && |v.items| <= 100)
  }

  function GetOrM(members: seq<Member>, k: string, default: Json): Json {
    Lookup(members, k).GetOr(default)
  }

  /** The dict built from a decoded object; `None` where building it raises. */
  function FieldsOf(members: seq<Member>): (r: Option<Fields>)
    ensures r.Some? ==> 0 <= r.value.churnRisk <= 100 && Bounded100(r.value.summary) && Bounded100(r.value.nextAction)
  {
    var churn := PyInt(GetOrM(members, "churn_risk", JInt(0)));
    var summary := Slice100(GetOrM(members, "summary", JStr("Analyse en cours")));
    var next := Slice100(GetOrM(members, "next_action", JStr("Vérifier le dossier")));
    if churn.None? || summary.None? || next.None? then None
    else Some(Fields(
      GetOrM(members, "sentiment", JStr("neutre")),
      GetOrM(members, "category", JStr("autre")),
      GetOrM(members, "urgency", JStr("moyenne")),
      Clamp(churn.value), summary.value, next.value))
  }

  /** `_parse_analytics_response`. */
  function ParseResponse(response: string, decode: string -> Option<Json>): Fields {
    match decode(Candidate(response))
    case Some(JObj(members)) => FieldsOf(members).GetOr(DefaultFields)
    case _ => DefaultFields
  }

  /** Whatever the answer, the churn risk lies in [0, 100], the summary and
      the next action are strings or lists of at most 100 elements. */
  lemma ParseBounded(response: string, decode: string -> Option<Json>)
    ensures var f := ParseResponse(response, decode);
      0 <= f.churnRisk <= 100 && Bounded100(f.summary) && Bounded100(f.nextAction)
  {
  }

  /** Missing keys take their documented defaults; present ones are kept,
      the churn risk converted with `int()` and clamped to [0, 100], the two
      text fields cut to 100 (a churn risk of 42 is kept as 42). */
  lemma FieldDefaults(members: seq<Member>)
    requires FieldsOf(members).Some?
    ensures var f := FieldsOf(members).value;
      && (Lookup(members, "sentiment").None? ==> f.sentiment == JStr("neutre"))
      && (Lookup(members, "category").None? ==> f.category == JStr("autre"))
      && (Lookup(members, "urgency").None? ==> f.urgency == JStr("moyenne"))
      && (Lookup(members, "churn_risk").None? ==> f.churnRisk == 0)
      && (Lookup(members, "summary").None? ==> f.summary == JStr("Analyse en cours"))
      && (Lookup(members, "next_action").None? ==> f.nextAction == JStr("Vérifier le dossier"))
      && (Lookup(members, "sentiment").Some? ==> f.sentiment == Lookup(members, "sentiment").value)
      && (Lookup(members, "category").Some? ==> f.category == Lookup(members, "category").value)
      && (Lookup(members, "urgency").Some? ==> f.urgency == Lookup(members, "urgency").value)
      && (Lookup(members, "churn_risk").Some? ==>
            PyInt(Lookup(members, "churn_risk").value).Some?
            && f.churnRisk == Clamp(PyInt(Lookup(members, "churn_risk").value).value))
      && (Lookup(members, "churn_risk") == Some(JInt(42)) ==> f.churnRisk == 42)
      && (Lookup(members, "summary").Some? ==> Some(f.summary) == Slice100(Lookup(members, "summary").value))
      && (Lookup(members, "next_action").Some? ==> Some(f.nextAction) == Slice100(Lookup(members, "next_action").value))
  {
  }

  /** An object whose fields cannot be converted gives the default indicators. */
  lemma UnconvertibleChurn(members: seq<Member>, response: string, decode: string -> Option<Json>)
    requires Lookup(members, "churn_risk") == Some(JNull)
    requires decode(Candidate(response)) == Some(JObj(members))
    ensures ParseResponse(response, decode) == DefaultFields
  {
  }

  // ================================================================ analyze_ticket

  datatype AnalyzeError = KeyError

  /** The successful path: the parsed indicators, stamped, with the churn alert. */
  function Stamp(f: Fields, now: string): (r: Report)
    ensures r.fields == f && r.analyzedAt == now
    ensures r.alert <==> f.churnRisk > 80
  {
    Report(f, now, f.churnRisk > 80)
  }

  /** `analyze_ticket(messages)` given what the client's `chat` produced
      (consulted only when the guard lets the call through). */
  function AnalyzeSpec(hasClient: bool, messages: seq<Turn>, reply: Result<string, HttpError>,
                       decode: string -> Option<Json>, now: string): Result<Report, AnalyzeError>
  {
    match Guard(hasClient, messages)
    case KeyMissing => Err(KeyError)
    case NoClient => Ok(DefaultReport(now))
    case Trivial => Ok(DefaultReport(now))
    case Proceed =>
      match reply
      case Err(_) => Ok(DefaultReport(now))
      case Ok(text) => Ok(Stamp(ParseResponse(text, decode), now))
  }

  /** Apart from a last message without content, every call returns a report,
      its churn risk is in [0, 100] and the alert is present exactly above 80. */
  lemma ReportInvariant(hasClient: bool, messages: seq<Turn>, reply: Result<string, HttpError>,
                        decode: string -> Option<Json>, now: string)
    ensures var r := AnalyzeSpec(hasClient, messages, reply, decode, now);
      && (r.Err? <==> Guard(hasClient, messages) == KeyMissing)
      && (r.Ok? ==> 0 <= r.value.fields.churnRisk <= 100 && (r.value.alert <==> r.value.fields.churnRisk > 80))
      && (r.Ok? ==> Bounded100(r.value.fields.summary) && Bounded100(r.value.fields.nextAction))
  {
    ParseBounded(if reply.Ok? then reply.value else "", decode);
  }

  /** Without a client, or for a trivial last message, the default report comes
      back whatever the model would have said. */
  lemma SkippedIsDefault(hasClient: bool, messages: seq<Turn>, reply: Result<string, HttpError>,
                         decode: string -> Option<Json>, now: string)
    requires Guard(hasClient, messages) in {NoClient, Trivial}
    ensures AnalyzeSpec(hasClient, messages, reply, decode, now) == Ok(DefaultReport(now))
  {
  }

  /** A failed call, or an answer that does not decode to an object, gives the default report. */
  lemma FailureIsDefault(messages: seq<Turn>, reply: Result<string, HttpError>,
                         decode: string -> Option<Json>, now: string)
    requires Guard(true, messages) == Proceed
    requires reply.Err? || !(decode(Candidate(reply.value)).Some? && decode(Candidate(reply.value)).value.JObj?)
    ensures AnalyzeSpec(true, messages, reply, decode, now) == Ok(DefaultReport(now))
  {
    if reply.Ok? {
      var v := decode(Candidate(reply.value));
      assert ParseResponse(reply.value, decode) == DefaultFields by {
        if v.Some? { assert !v.value.JObj?; }
      }
      assert Stamp(DefaultFields, now) == DefaultReport(now);
    }
  }

  /** The end of `analyze_ticket` once `chat` has answered: the default
      report when the call failed, else the parsed fields stamped, with the
      alert set above a churn risk of 80. */
  method ReportFor(reply: Result<string, HttpError>, decode: string -> Option<Json>, now: string)
    returns (r: Result<Report, AnalyzeError>)
    ensures reply.Err? ==> r == Ok(DefaultReport(now))
    ensures reply.Ok? ==> r == Ok(Stamp(ParseResponse(reply.value, decode), now))
  {
    if reply.Err? {
      return Ok(DefaultReport(now));
    }
    var report := Report(ParseResponse(reply.value, decode), now, false);
    if report.fields.churnRisk > 80 {
      report := report.(alert := true);
    }
    return Ok(report);
  }

  class AnalyticsService {
    const client: Mistral.Client?
    /** The two halves of `ANALYTICS_PROMPT`, around its placeholder. */
    const promptHead: string
    const promptTail: string

    constructor (client: Mistral.Client?)
      ensures this.client == client && promptHead == PromptHead && promptTail == PromptTail
    {
      this.client := client;
      promptHead := PromptHead;
      promptTail := PromptTail;
    }

    /** `analyze_ticket`: the call to `chat` happens only when the guard lets
        it through, with the one-message prompt, temperature 0.1 and 300 tokens. */
    method AnalyzeTicket(messages: seq<Turn>, decode: string -> Option<Json>, env: nat -> Mistral.Step, now: string)
      returns (r: Result<Report, AnalyzeError>)
      requires client != null ==> client.Valid()
      modifies if client == null then {} else {client, client.breaker}
      ensures client != null ==> client.Valid()
      ensures Guard(client != null, messages) != Proceed ==>
        r == AnalyzeSpec(client != null, messages, Err(Mistral.ExhaustedError), decode, now)
      ensures Guard(client != null, messages) != Proceed && client != null ==>
        client.posts == old(client.posts) && client.breaker.State() == old(client.breaker.State())
      ensures Guard(client != null, messages) == Proceed ==>
        var out := Mistral.ChatSpec(client.config, old(client.breaker.State()), env, old(|client.posts|), None);
        && r == AnalyzeSpec(true, messages, out.result, decode, now)
        && client.breaker.State() == out.breaker
        && client.posts == old(client.posts) + Mistral.PostsFor(out.posted, RequestWith(promptHead, promptTail, messages), MaxTokens, Temperature)
    {
      if client == null {
        return Ok(DefaultReport(now));
      }
      if messages != [] && messages[|messages| - 1].content.None? {
        return Err(KeyError);
      }
      var last := if messages == [] then "" else messages[|messages| - 1].content.value;
      if |last| < 5 || Text.Lower(last) in TrivialReplies {
        return Ok(DefaultReport(now));
      }
      var reply := Ask(messages, env);
      r := ReportFor(reply, decode, now);
    }

    /** The call to `chat`: the one-message prompt, the default model,
        temperature 0.1 and 300 tokens. */
    method Ask(messages: seq<Turn>, env: nat -> Mistral.Step) returns (reply: Result<string, HttpError>)
      requires client != null && client.Valid()
      modifies client, client.breaker
      ensures client.Valid()
      ensures var out := Mistral.ChatSpec(client.config, old(client.breaker.State()), env, old(|client.posts|), None);
        && reply == out.result
        && client.breaker.State() == out.breaker
        && client.posts == old(client.posts) + Mistral.PostsFor(out.posted, RequestWith(promptHead, promptTail, messages), MaxTokens, Temperature)
    {
      reply := client.Chat(RequestWith(promptHead, promptTail, messages), None, MaxTokens, Temperature, env);
    }
  }
}
