/**
  The CSV export of backend/app/services/export.py: each ticket becomes a
  row of fourteen fields under a fixed header, with the message count, the
  resolution time and two response-time metrics worked out from the ticket's
  messages. A message is a dict whose `role` is "user" or "assistant" and
  whose `timestamp` is an ISO string; the parse of a timestamp is the
  oracle `parseTime` (microseconds since an epoch). The CSV text is modelled
  by the list of its rows.
*/
module Export {
  import opened Wrappers
  import opened JsonValue
  import opened Http
  import JsonStore

  /** The fourteen column names, in order. */
  const Header: seq<string> := [
    "ticket_id", "created_at", "closed_at", "status", "channel",
    "sentiment", "category", "urgency", "summary", "messages_count",
    "resolution_duration_seconds", "resolution_duration_hours",
    "first_response_time_seconds", "avg_response_time_seconds"
  ]

  // ================================================================ messages

  /** The part a message plays for the metrics: `msg.get("role")` is
      "user" or "assistant", or anything else. */
  datatype Role = User | Assistant | NoRole

  function RoleOf(m: Json): Role {
    if m.JObj? && Get(m, "role") == JStr("user") then User
    else if m.JObj? && Get(m, "role") == JStr("assistant") then Assistant
    else NoRole
  }

  /** The first `n` messages are dicts: `msg.get` raises on anything else. */
  predicate DictsBefore(ms: seq<Json>, n: nat) {
    forall k :: 0 <= k < n && k < |ms| ==> ms[k].JObj?
  }

  /** The role of every message, in order. */
  function Roles(ms: seq<Json>): (rs: seq<Role>)
    ensures |rs| == |ms| && forall k :: 0 <= k < |ms| ==> rs[k] == RoleOf(ms[k])
  {
    seq(|ms|, k requires 0 <= k < |ms| => RoleOf(ms[k]))
  }

  /** The index of the first message from `from` on with role `role`, or `|ms|`. */
  function FirstRole(rs: seq<Role>, from: nat, role: Role): (r: nat)
    requires from <= |rs|
    ensures from <= r <= |rs|
    ensures r < |rs| ==> rs[r] == role
    ensures forall k :: from <= k < r ==> rs[k] != role
    decreases |rs| - from
  {
    if from == |rs| then |rs|
    else if rs[from] == role then from
    else FirstRole(rs, from + 1, role)
  }

  /** `datetime.fromisoformat(msg["timestamp"].replace("Z", "+00:00"))`: a
      missing key, a value that is not a string and an unparsable string all
      raise, which the metric functions catch. */
  function Stamp(m: Json, parseTime: string -> Option<int>): Option<int> {
    if m.JObj? then
      match Lookup(m.members, "timestamp")
      case Some(JStr(s)) => parseTime(s)
      case _ => None
    else None
  }

  /** The time from user message `u` to assistant message `a`, in microseconds. */
  function Elapsed(u: Json, a: Json, parseTime: string -> Option<int>): Option<int> {
    if Stamp(u, parseTime).Some? && Stamp(a, parseTime).Some?
    then Some(Stamp(a, parseTime).value - Stamp(u, parseTime).value)
    else None
  }

  lemma DivBounds(n: int, d: int)
    requires n >= 0 && d > 0
    ensures 0 <= (n / d) * d <= n < (n / d) * d + d
  {
  }

  /** Python's `int(x / d)` on exact values: the quotient truncated toward zero. */
  function TruncDiv(n: int, d: int): (r: int)
    requires d > 0
    ensures n >= 0 ==> 0 <= r * d <= n < r * d + d
    ensures n < 0 ==> r * d - d < n <= r * d <= 0
  {
    if n >= 0 then DivBounds(n, d); n / d
    else DivBounds(-n, d); -((-n) / d)
  }

  // ================================================================ first response time

  /** `_calculate_first_response_time` over a list of messages: the first
      user message, the first assistant message after it, and the whole
      seconds between them. The loop inspects every message up to that
      assistant message, so a non-dict among them makes the call fail. */
  function FirstResponseSeconds(ms: seq<Json>, parseTime: string -> Option<int>): Option<int> {
    var u := FirstRole(Roles(ms), 0, User);
    var a := if u < |ms| then FirstRole(Roles(ms), u + 1, Assistant) else |ms|;
    if a == |ms| || !DictsBefore(ms, a + 1) then None
    else
      match Elapsed(ms[u], ms[a], parseTime)
      case None => None
      case Some(d) => Some(JsonStore.TruncSeconds(d))
  }

  /** A `messages` value that is not a list never yields a dict to the loop,
      so the call fails or finds nothing: `None` either way. */
  function FirstResponseTime(messages: Json, parseTime: string -> Option<int>): Option<int> {
    if messages.JArr? then FirstResponseSeconds(messages.items, parseTime) else None
  }

  /** When message `u` is the first user message and `a` the first assistant
      message after it, the metric is the truncated time between them, if
      every message up to `a` is a dict and both timestamps parse. */
  lemma FirstResponseOfPair(ms: seq<Json>, parseTime: string -> Option<int>, u: nat, a: nat)
    requires u < a < |ms|
    requires RoleOf(ms[u]) == User && forall k :: 0 <= k < u ==> RoleOf(ms[k]) != User
    requires RoleOf(ms[a]) == Assistant && forall k :: u < k < a ==> RoleOf(ms[k]) != Assistant
    ensures FirstResponseSeconds(ms, parseTime)
      == if DictsBefore(ms, a + 1) && Elapsed(ms[u], ms[a], parseTime).Some?
         then Some(JsonStore.TruncSeconds(Elapsed(ms[u], ms[a], parseTime).value))
         else None
  {
    FirstRoleIs(Roles(ms), 0, User, u);
    FirstRoleIs(Roles(ms), u + 1, Assistant, a);
  }

  /** With no user message, or no assistant message after the first one,
      there is no first response time. */
  lemma FirstResponseNoPair(ms: seq<Json>, parseTime: string -> Option<int>)
    requires forall u :: 0 <= u < |ms| && RoleOf(ms[u]) == User ==>
               (exists k :: 0 <= k < u && RoleOf(ms[k]) == User)
               || (forall a :: u < a < |ms| ==> RoleOf(ms[a]) != Assistant)
    ensures FirstResponseSeconds(ms, parseTime).None?
  {
    var u := FirstRole(Roles(ms), 0, User);
    if u < |ms| {
      var a := FirstRole(Roles(ms), u + 1, Assistant);
      if a < |ms| {
        assert !exists k :: 0 <= k < u && RoleOf(ms[k]) == User;
        assert false;
      }
    }
  }

  /** A match that every earlier index misses is the first one. */
  lemma FirstRoleIs(rs: seq<Role>, from: nat, role: Role, i: nat)
    requires from <= i < |rs| && rs[i] == role
    requires forall k :: from <= k < i ==> rs[k] != role
    ensures FirstRole(rs, from, role) == i
  {
  }

  /** The loop of `_calculate_first_response_time`. */
  method CalculateFirstResponseTime(messages: Json, parseTime: string -> Option<int>) returns (r: Option<int>)
    ensures r == FirstResponseTime(messages, parseTime)
  {
    if !messages.JArr? {
      return None;
    }
    var ms := messages.items;
    ghost var rs := Roles(ms);
    ghost var u := FirstRole(rs, 0, User);
    var userMsg: Option<nat> := None;
    var i: nat := 0;
    while i < |ms|
      invariant i <= |ms|
      invariant DictsBefore(ms, i)
      invariant userMsg.None? ==> u >= i
      invariant userMsg.Some? ==> userMsg.value == u < i && FirstRole(rs, u + 1, Assistant) >= i
    {
      var msg := ms[i];
      if !msg.JObj? {
        FirstResponseFails(messages, ms, rs, u, parseTime, i);
        return None;
      }
      assert DictsBefore(ms, i + 1);
      var role := RoleOf(msg);
      assert rs[i] == role;
      if role == User && userMsg.None? {
        userMsg := Some(i);
      } else if role == Assistant && userMsg.Some? {
        var d := Elapsed(ms[userMsg.value], msg, parseTime);
        FirstResponseFound(messages, ms, rs, u, parseTime, i);
        if d.None? {
          return None;
        }
        return Some(JsonStore.TruncSeconds(d.value));
      } else if userMsg.None? {
        FirstRolePast(rs, 0, User, i);
      } else {
        FirstRolePast(rs, u + 1, Assistant, i);
      }
      i := i + 1;
    }
    FirstResponseFails(messages, ms, rs, u, parseTime, i);
    return None;
  }

  /** A search that has not stopped before `i` and misses at `i` goes on. */
  lemma FirstRolePast(rs: seq<Role>, from: nat, role: Role, i: nat)
    requires from <= i < |rs| && FirstRole(rs, from, role) >= i && rs[i] != role
    ensures FirstRole(rs, from, role) > i
  {
  }

  /** The loop stops at the first assistant message after the first user
      message, every message before it being a dict. */
  lemma FirstResponseFound(messages: Json, ms: seq<Json>, rs: seq<Role>, u: nat, parseTime: string -> Option<int>,
                           a: nat)
    requires messages.JArr? && ms == messages.items && rs == Roles(ms) && u == FirstRole(rs, 0, User)
    requires a < |ms| && DictsBefore(ms, a + 1)
    requires u < a && FirstRole(rs, u + 1, Assistant) >= a && rs[a] == Assistant
    ensures FirstResponseTime(messages, parseTime)
      == if Elapsed(ms[u], ms[a], parseTime).Some?
         then Some(JsonStore.TruncSeconds(Elapsed(ms[u], ms[a], parseTime).value))
         else None
  {
    assert FirstRole(rs, u + 1, Assistant) == a;
  }

  /** The loop fails at a non-dict it reaches before finding the pair, and
      finds nothing when it runs off the end of the list. */
  lemma FirstResponseFails(messages: Json, ms: seq<Json>, rs: seq<Role>, u: nat, parseTime: string -> Option<int>,
                           i: nat)
    requires messages.JArr? && ms == messages.items && rs == Roles(ms) && u == FirstRole(rs, 0, User)
    requires i <= |ms| && (i == |ms| || !ms[i].JObj?)
    requires u >= i || (u < |rs| && FirstRole(rs, u + 1, Assistant) >= i)
    ensures FirstResponseTime(messages, parseTime) == None
  {
    if u < |ms| {
      var a := FirstRole(rs, u + 1, Assistant);
      if a < |ms| {
        assert i <= a;
      }
    }
  }

  // ================================================================ average response time

  /** The state of the loop of `_calculate_avg_response_time` after the
      first `n` messages: the user message waiting for an answer, and the
      (user, assistant) index pairs matched so far. */
  datatype Pairing = Pairing(waiting: Option<nat>, pairs: seq<(nat, nat)>)

  function PairUp(rs: seq<Role>, n: nat): (p: Pairing)
    requires n <= |rs|
    ensures p.waiting.Some? ==> p.waiting.value < n
    ensures Within(p.pairs, n)
    decreases n
  {
    if n == 0 then Pairing(None, [])
    else
      var p := PairUp(rs, n - 1);
      if rs[n - 1] == User then p.(waiting := Some(n - 1))
      else if rs[n - 1] == Assistant && p.waiting.Some? then
        Pairing(None, p.pairs + [(p.waiting.value, n - 1)])
      else p
  }

  /** Every pair indexes the first `n` messages. */
  predicate Within(pairs: seq<(nat, nat)>, n: nat) {
    forall j :: 0 <= j < |pairs| ==> pairs[j].0 < n && pairs[j].1 < n
  }

  lemma WithinSnoc(pairs: seq<(nat, nat)>, p: (nat, nat), n: nat)
    requires Within(pairs, n) && p.0 < n && p.1 < n
    ensures Within(pairs + [p], n)
  {
    assert forall j :: 0 <= j < |pairs| ==> (pairs + [p])[j] == pairs[j];
  }

  /** No message strictly between `u` and `a` has role `role`. */
  predicate NoneBetween(rs: seq<Role>, u: nat, a: nat, role: Role)
    requires u <= a <= |rs|
  {
    forall k :: u < k < a ==> rs[k] != role
  }

  /** Message `u` is a user message that nothing answers before index `n`:
      no assistant message comes after it (and before `n`), nor another
      user message. */
  predicate Pending(rs: seq<Role>, u: nat, n: nat)
    requires n <= |rs|
  {
    u < n && rs[u] == User && NoneBetween(rs, u, n, User) && NoneBetween(rs, u, n, Assistant)
  }

  /** Some user message before `a` is unanswered when `a` comes. */
  ghost predicate Answerable(rs: seq<Role>, a: nat)
    requires a <= |rs|
  {
    exists u :: 0 <= u < a && rs[u] == User && NoneBetween(rs, u, a, Assistant)
  }

  /** The waiting message is the latest user message, and nothing has
      answered it. */
  lemma {:induction false} PairUpPending(rs: seq<Role>, n: nat)
    requires n <= |rs|
    ensures PairUp(rs, n).waiting.Some? ==> Pending(rs, PairUp(rs, n).waiting.value, n)
    decreases n
  {
    if n > 0 {
      PairUpPending(rs, n - 1);
      var p := PairUp(rs, n - 1);
      if rs[n - 1] == User {
        assert Pending(rs, n - 1, n);
      } else if rs[n - 1] != Assistant && p.waiting.Some? {
        assert Pending(rs, p.waiting.value, n);
      }
    }
  }

  /** A message waits exactly when some user message is still unanswered. */
  lemma {:induction false} PairUpAnswerable(rs: seq<Role>, n: nat)
    requires n <= |rs|
    ensures PairUp(rs, n).waiting.Some? <==> Answerable(rs, n)
    decreases n
  {
    if n > 0 {
      PairUpAnswerable(rs, n - 1);
      if rs[n - 1] == User {
        AnswerableAfterUser(rs, n);
      } else if rs[n - 1] == Assistant {
        AnswerableAfterAssistant(rs, n);
      } else {
        AnswerableAfterOther(rs, n);
      }
    }
  }

  /** Pair `p` joins an assistant message to the latest user message before
      it, with no assistant message between. */
  predicate PairedWell(rs: seq<Role>, p: (nat, nat)) {
    p.1 < |rs| && rs[p.1] == Assistant && Pending(rs, p.0, p.1)
  }

  /** Each pair joins an assistant message to the latest user message
      before it, with no assistant message between. */
  lemma {:induction false} PairUpPairs(rs: seq<Role>, n: nat)
    requires n <= |rs|
    ensures forall j :: 0 <= j < |PairUp(rs, n).pairs| ==> PairedWell(rs, PairUp(rs, n).pairs[j])
    decreases n
  {
    if n > 0 {
      PairUpPairs(rs, n - 1);
      PairUpPending(rs, n - 1);
      var p := PairUp(rs, n - 1);
      if rs[n - 1] == Assistant && p.waiting.Some? {
        var ps := p.pairs + [(p.waiting.value, n - 1)];
        assert PairUp(rs, n).pairs == ps;
        forall j | 0 <= j < |ps| ensures PairedWell(rs, ps[j]) {
          if j < |p.pairs| {
            assert ps[j] == p.pairs[j];
          } else {
            assert ps[j] == (p.waiting.value, n - 1);
          }
        }
      } else {
        assert PairUp(rs, n).pairs == p.pairs;
      }
    }
  }

  /** An assistant message is paired exactly when some user message before
      it is still unanswered. */
  lemma {:induction false} PairUpMatched(rs: seq<Role>, n: nat)
    requires n <= |rs|
    ensures forall a :: 0 <= a < n ==>
      (Matched(PairUp(rs, n).pairs, a) <==> rs[a] == Assistant && Answerable(rs, a))
    decreases n
  {
    if n > 0 {
      PairUpMatched(rs, n - 1);
      MatchedLast(rs, n);
      MatchedEarlier(rs, n);
    }
  }

  /** The message just read is matched exactly when it is an assistant
      message answering a waiting user message. */
  lemma MatchedLast(rs: seq<Role>, n: nat)
    requires 0 < n <= |rs|
    ensures Matched(PairUp(rs, n).pairs, n - 1) <==> rs[n - 1] == Assistant && Answerable(rs, n - 1)
  {
    PairUpAnswerable(rs, n - 1);
    var p := PairUp(rs, n - 1);
    assert !Matched(p.pairs, n - 1);
    if rs[n - 1] == Assistant && p.waiting.Some? {
      MatchedSnoc(p.pairs, (p.waiting.value, n - 1));
    }
  }

  /** Reading one more message does not change which earlier messages are
      matched. */
  lemma MatchedEarlier(rs: seq<Role>, n: nat)
    requires 0 < n <= |rs|
    ensures forall a :: 0 <= a < n - 1 ==>
      (Matched(PairUp(rs, n).pairs, a) <==> Matched(PairUp(rs, n - 1).pairs, a))
  {
    var p := PairUp(rs, n - 1);
    if rs[n - 1] == Assistant && p.waiting.Some? {
      MatchedSnoc(p.pairs, (p.waiting.value, n - 1));
    }
  }

  /** Assistant message `a` is the second half of one of `pairs`. */
  predicate Matched(pairs: seq<(nat, nat)>, a: nat) {
    exists j :: 0 <= j < |pairs| && pairs[j].1 == a
  }

  lemma MatchedSnoc(pairs: seq<(nat, nat)>, p: (nat, nat))
    ensures forall a :: Matched(pairs + [p], a) <==> Matched(pairs, a) || p.1 == a
  {
    forall a ensures Matched(pairs + [p], a) <==> Matched(pairs, a) || p.1 == a {
      if Matched(pairs, a) {
        var j :| 0 <= j < |pairs| && pairs[j].1 == a;
        assert (pairs + [p])[j] == pairs[j];
      }
      if p.1 == a {
        assert (pairs + [p])[|pairs|] == p;
      }
    }
  }

  lemma AnswerableAfterUser(rs: seq<Role>, n: nat)
    requires 0 < n <= |rs| && rs[n - 1] == User
    ensures Answerable(rs, n)
  {
    assert NoneBetween(rs, n - 1, n, Assistant);
  }

  lemma AnswerableAfterAssistant(rs: seq<Role>, n: nat)
    requires 0 < n <= |rs| && rs[n - 1] == Assistant
    ensures !Answerable(rs, n)
  {
    forall u | 0 <= u < n && rs[u] == User ensures !NoneBetween(rs, u, n, Assistant) {
      assert u != n - 1;
    }
  }

  lemma AnswerableAfterOther(rs: seq<Role>, n: nat)
    requires 0 < n <= |rs| && rs[n - 1] != Assistant && rs[n - 1] != User
    ensures Answerable(rs, n) <==> Answerable(rs, n - 1)
  {
    if Answerable(rs, n) {
      var u :| 0 <= u < n && rs[u] == User && NoneBetween(rs, u, n, Assistant);
      assert u < n - 1 && NoneBetween(rs, u, n - 1, Assistant);
    }
    if Answerable(rs, n - 1) {
      var u :| 0 <= u < n - 1 && rs[u] == User && NoneBetween(rs, u, n - 1, Assistant);
      assert NoneBetween(rs, u, n, Assistant);
    }
  }

  /** The delay between two messages as `_calculate_avg_response_time`
      computes it. */
  function Gap(parseTime: string -> Option<int>): (Json, Json) -> Option<int> {
    (u, a) => Elapsed(u, a, parseTime)
  }

  /** The delays `gap` gives the `pairs`, or `None` when one fails. */
  function Deltas(ms: seq<Json>, pairs: seq<(nat, nat)>, gap: (Json, Json) -> Option<int>): (r: Option<seq<int>>)
    requires Within(pairs, |ms|)
    ensures r.Some? ==> |r.value| == |pairs|
  {
    if pairs == [] then Some([])
    else
      var init := Deltas(ms, pairs[..|pairs| - 1], gap);
      var p := pairs[|pairs| - 1];
      var d := gap(ms[p.0], ms[p.1]);
      if init.Some? && d.Some? then Some(init.value + [d.value]) else None
  }

  lemma DeltasSnoc(ms: seq<Json>, pairs: seq<(nat, nat)>, p: (nat, nat), gap: (Json, Json) -> Option<int>)
    requires Within(pairs, |ms|)
    requires p.0 < |ms| && p.1 < |ms|
    ensures var init := Deltas(ms, pairs, gap);
      var d := gap(ms[p.0], ms[p.1]);
      Deltas(ms, pairs + [p], gap) == if init.Some? && d.Some? then Some(init.value + [d.value]) else None
  {
    assert (pairs + [p])[..|pairs|] == pairs;
  }

  /** A delay that fails stays failed as more pairs are matched. */
  lemma {:induction false} DeltasFailed(ms: seq<Json>, pairs: seq<(nat, nat)>, all: seq<(nat, nat)>,
                                        gap: (Json, Json) -> Option<int>)
    requires Within(all, |ms|)
    requires pairs <= all && Deltas(ms, pairs, gap).None?
    ensures Deltas(ms, all, gap).None?
    decreases |all|
  {
    if |all| > |pairs| {
      DeltasFailed(ms, pairs, all[..|all| - 1], gap);
    } else {
      assert all == pairs;
    }
  }

  /** Pairs only accumulate: the pairs after `i` messages begin the pairs after `n`. */
  lemma {:induction false} PairUpGrows(rs: seq<Role>, i: nat, n: nat)
    requires i <= n <= |rs|
    ensures PairUp(rs, i).pairs <= PairUp(rs, n).pairs
    decreases n - i
  {
    if i < n {
      PairUpGrows(rs, i, n - 1);
    }
  }

  function Sum(ds: seq<int>): int {
    if ds == [] then 0 else Sum(ds[..|ds| - 1]) + ds[|ds| - 1]
  }

  /** The pairs matched once every message has been seen. */
  function MatchedPairs(rs: seq<Role>): (ps: seq<(nat, nat)>)
    ensures Within(ps, |rs|)
  {
    PairUp(rs, |rs|).pairs
  }

  /** `_calculate_avg_response_time` over a list of messages: the mean of
      the delays of the matched pairs, in whole seconds, truncated toward
      zero; `None` when nothing is matched, a message is not a dict or a
      timestamp of a matched pair fails. */
  function AvgResponseSeconds(ms: seq<Json>, parseTime: string -> Option<int>): Option<int> {
    if !DictsBefore(ms, |ms|) then None
    else
      match Deltas(ms, MatchedPairs(Roles(ms)), Gap(parseTime))
      case None => None
      case Some(ds) => if ds == [] then None else Some(TruncDiv(Sum(ds), |ds| * MicrosPerSecond))
  }

  /** A result is the mean delay of all matched pairs in whole seconds,
      truncated toward zero: every message is a dict, every delay is known
      and at least one pair was matched. */
  lemma AvgIsMean(ms: seq<Json>, parseTime: string -> Option<int>)
    requires AvgResponseSeconds(ms, parseTime).Some?
    ensures DictsBefore(ms, |ms|)
    ensures Deltas(ms, MatchedPairs(Roles(ms)), Gap(parseTime)).Some?
    ensures var ds := Deltas(ms, MatchedPairs(Roles(ms)), Gap(parseTime)).value;
      var r := AvgResponseSeconds(ms, parseTime).value;
      var d := |ds| * MicrosPerSecond;
      && |ds| == |MatchedPairs(Roles(ms))| > 0
      && (Sum(ds) >= 0 ==> 0 <= r * d <= Sum(ds) < r * d + d)
      && (Sum(ds) < 0 ==> r * d - d < Sum(ds) <= r * d <= 0)
  {
    var ds := Deltas(ms, MatchedPairs(Roles(ms)), Gap(parseTime)).value;
    assert AvgResponseSeconds(ms, parseTime).value == TruncDiv(Sum(ds), |ds| * MicrosPerSecond);
  }

  function AvgResponseTime(messages: Json, parseTime: string -> Option<int>): Option<int> {
    if messages.JArr? then AvgResponseSeconds(messages.items, parseTime) else None
  }

  /** With no assistant message that answers a user message, there is no average. */
  lemma AvgNeedsAnswer(ms: seq<Json>, parseTime: string -> Option<int>)
    requires forall a :: 0 <= a < |ms| && RoleOf(ms[a]) == Assistant ==> !Answerable(Roles(ms), a)
    ensures AvgResponseSeconds(ms, parseTime).None?
  {
    PairUpMatched(Roles(ms), |ms|);
    var ps := MatchedPairs(Roles(ms));
    if ps != [] {
      var answered := Matched(ps, ps[0].1);
      assert false;
    }
  }

  /** The loop of `_calculate_avg_response_time`. */
  method CalculateAvgResponseTime(messages: Json, parseTime: string -> Option<int>) returns (r: Option<int>)
    ensures r == AvgResponseTime(messages, parseTime)
  {
    if !messages.JArr? {
      return None;
    }
    var ms := messages.items;
    ghost var rs := Roles(ms);
    ghost var pairs: seq<(nat, nat)> := [];
    var responseTimes: seq<int> := [];
    var lastUser: Option<nat> := None;
    var i: nat := 0;
    while i < |ms|
      invariant i <= |ms|
      invariant DictsBefore(ms, i)
      invariant PairUp(rs, i) == Pairing(lastUser, pairs)
      invariant Within(pairs, |ms|)
      invariant Deltas(ms, pairs, Gap(parseTime)) == Some(responseTimes)
    {
      var failed;
      failed, lastUser, pairs, responseTimes := AvgStep(messages, rs, parseTime, i, lastUser, pairs, responseTimes);
      if failed {
        return None;
      }
      i := i + 1;
    }
    AvgOfDeltas(messages, ms, rs, parseTime, i, lastUser, pairs, responseTimes);
    if responseTimes == [] {
      return None;
    }
    return Some(TruncDiv(Sum(responseTimes), |responseTimes| * MicrosPerSecond));
  }

  /** The body of that loop for message `i`: a message that is not a dict
      or a delay that cannot be computed makes the call fail; otherwise the
      state moves on by one message. */
  method AvgStep(messages: Json, ghost rs: seq<Role>, parseTime: string -> Option<int>, i: nat,
                 lastUser: Option<nat>, ghost pairs: seq<(nat, nat)>, responseTimes: seq<int>)
    returns (failed: bool, lastUser': Option<nat>, ghost pairs': seq<(nat, nat)>, responseTimes': seq<int>)
    requires messages.JArr? && rs == Roles(messages.items) && i < |messages.items|
    requires DictsBefore(messages.items, i)
    requires PairUp(rs, i) == Pairing(lastUser, pairs)
    requires Within(pairs, |messages.items|)
    requires Deltas(messages.items, pairs, Gap(parseTime)) == Some(responseTimes)
    ensures failed ==> AvgResponseTime(messages, parseTime) == None
    ensures !failed ==> DictsBefore(messages.items, i + 1)
    ensures !failed ==> PairUp(rs, i + 1) == Pairing(lastUser', pairs')
    ensures !failed ==> Within(pairs', |messages.items|)
    ensures !failed ==> Deltas(messages.items, pairs', Gap(parseTime)) == Some(responseTimes')
  {
    var ms := messages.items;
    var msg := ms[i];
    lastUser', pairs', responseTimes' := lastUser, pairs, responseTimes;
    if !msg.JObj? {
      AvgNotDict(messages, ms, parseTime, i);
      return true, lastUser', pairs', responseTimes';
    }
    assert DictsBefore(ms, i + 1);
    var role := RoleOf(msg);
    assert rs[i] == role;
    PairUpStep(rs, i, Pairing(lastUser, pairs));
    if role == User {
      lastUser' := Some(i);
    } else if role == Assistant && lastUser.Some? {
      var d := Elapsed(ms[lastUser.value], msg, parseTime);
      assert Gap(parseTime)(ms[lastUser.value], ms[i]) == d;
      DeltasSnoc(ms, pairs, (lastUser.value, i), Gap(parseTime));
      WithinSnoc(pairs, (lastUser.value, i), |ms|);
      pairs' := pairs + [(lastUser.value, i)];
      if d.None? {
        AvgFails(messages, ms, rs, parseTime, i, pairs');
        return true, lastUser', pairs', responseTimes';
      }
      responseTimes' := responseTimes + [d.value];
      lastUser' := None;
    }
    failed := false;
  }

  /** One message more: a user message starts waiting, an assistant message
      answers the waiting one, anything else changes nothing. */
  lemma PairUpStep(rs: seq<Role>, i: nat, p: Pairing)
    requires i < |rs| && PairUp(rs, i) == p
    ensures PairUp(rs, i + 1)
      == if rs[i] == User then p.(waiting := Some(i))
         else if rs[i] == Assistant && p.waiting.Some? then Pairing(None, p.pairs + [(p.waiting.value, i)])
         else p
  {
  }

  /** Once every message is a dict and every matched delay is known, the
      metric is their truncated mean, if there is any. */
  lemma AvgOfDeltas(messages: Json, ms: seq<Json>, rs: seq<Role>, parseTime: string -> Option<int>, n: nat,
                    waiting: Option<nat>, pairs: seq<(nat, nat)>, ds: seq<int>)
    requires messages.JArr? && ms == messages.items && rs == Roles(ms) && n == |ms|
    requires DictsBefore(ms, n)
    requires PairUp(rs, n) == Pairing(waiting, pairs)
    requires Within(pairs, |ms|)
    requires Deltas(ms, pairs, Gap(parseTime)) == Some(ds)
    ensures AvgResponseTime(messages, parseTime)
      == if ds == [] then None else Some(TruncDiv(Sum(ds), |ds| * MicrosPerSecond))
  {
  }

  /** A delay that fails at message `i` makes the whole average fail. */
  lemma AvgFails(messages: Json, ms: seq<Json>, rs: seq<Role>, parseTime: string -> Option<int>, i: nat,
                 pairs: seq<(nat, nat)>)
    requires messages.JArr? && ms == messages.items && rs == Roles(ms) && i < |ms|
    requires PairUp(rs, i + 1) == Pairing(None, pairs)
    requires Within(pairs, |ms|)
    requires Deltas(ms, pairs, Gap(parseTime)).None?
    ensures AvgResponseTime(messages, parseTime) == None
  {
    MatchedDeltasFail(ms, rs, i + 1, PairUp(rs, i + 1).pairs, Gap(parseTime));
  }

  /** A delay that fails among the pairs matched after `n` messages is
      among all the matched pairs. */
  lemma MatchedDeltasFail(ms: seq<Json>, rs: seq<Role>, n: nat, pairs: seq<(nat, nat)>,
                          gap: (Json, Json) -> Option<int>)
    requires |rs| == |ms| && n <= |rs| && PairUp(rs, n).pairs == pairs
    requires Within(pairs, |ms|) && Deltas(ms, pairs, gap).None?
    ensures Deltas(ms, MatchedPairs(rs), gap).None?
  {
    PairUpGrows(rs, n, |rs|);
    DeltasFailed(ms, pairs, MatchedPairs(rs), gap);
  }

  /** A message that is not a dict makes the whole average fail. */
  lemma AvgNotDict(messages: Json, ms: seq<Json>, parseTime: string -> Option<int>, i: nat)
    requires messages.JArr? && ms == messages.items && i < |ms| && !ms[i].JObj?
    ensures AvgResponseTime(messages, parseTime) == None
  {
    assert !DictsBefore(ms, |ms|);
  }

  // ================================================================ rows

  /** A value as `csv.writer` writes it: `None` as the empty field, anything
      else as its `str()`. */
  function Field(v: Json): string {
    if v.JNull? then "" else PyStr(v)
  }

  /** `str(x) if x else ""` for a metric. */
  function MetricField(x: Option<int>): (r: string) {
    match x
    case None => ""
    case Some(n) => if n == 0 then "" else PyStr(JInt(n))
  }

  /** A missing or zero metric is the empty field, and only those. */
  lemma MetricFieldBlank(x: Option<int>)
    ensures MetricField(x) == "" <==> x.None? || x == Some(0)
  {
    if x.Some? {
      PyStrEmpty(JInt(x.value));
    }
  }

  /** Python's `len()` on a JSON value; it raises on a number, a bool and `None`. */
  function PyLen(v: Json): Option<nat> {
    match v
    case JArr(items) => Some(|items|)
    case JStr(s) => Some(|s|)
    case JObj(members) => Some(|members|)
    case _ => None
  }

  /** Why `_ticket_to_row` raises: `messages` has no length, or `analytics`
      is not a dict, so `.get` fails. */
  datatype RowError = MessagesHaveNoLength | AnalyticsNotDict

  /** The fields of one CSV row, one per header name. */
  datatype CsvRow = CsvRow(
    ticketId: string, createdAt: string, closedAt: string, status: string, channel: string,
    sentiment: string, category: string, urgency: string, summary: string, messagesCount: string,
    resolutionSeconds: string, resolutionHours: string, firstResponse: string, avgResponse: string)

  /** The row as `writer.writerow` receives it: field `k` sits under `Header[k]`. */
  function Cells(row: CsvRow): (r: seq<string>)
    ensures |r| == |Header|
  {
    [row.ticketId, row.createdAt, row.closedAt, row.status, row.channel,
     row.sentiment, row.category, row.urgency, row.summary, row.messagesCount,
     row.resolutionSeconds, row.resolutionHours, row.firstResponse, row.avgResponse]
  }

  /** `_ticket_to_row`. `len(messages)` runs before the first
      `analytics.get`, so a ticket bad in both ways fails on its messages.
      `formatHours` stands for the float formatting of
      `resolution_duration_hours`, `f"{float(x) / 3600:.2f}"`, with `""`
      when `float(x)` raises. */
  function TicketToRow(ticket: seq<Member>, parseTime: string -> Option<int>, formatHours: Json -> string)
    : Result<CsvRow, RowError>
  {
    var t := JObj(ticket);
    var analytics := GetOr(t, "analytics", JObj([]));
    var messages := GetOr(t, "messages", JArr([]));
    var duration := GetOr(t, "resolution_duration", JStr(""));
    if PyLen(messages).None? then Err(MessagesHaveNoLength)
    else if !analytics.JObj? then Err(AnalyticsNotDict)
    else
      Ok(CsvRow(
        Field(GetOr(t, "ticket_id", JStr(""))),
        Field(GetOr(t, "created_at", JStr(""))),
        Field(GetOr(t, "closed_at", JStr(""))),
        Field(GetOr(t, "status", JStr(""))),
        Field(GetOr(t, "channel", JStr(""))),
        Field(GetOr(analytics, "sentiment", JStr(""))),
        Field(GetOr(analytics, "category", JStr(""))),
        Field(GetOr(analytics, "urgency", JStr(""))),
        Field(GetOr(analytics, "summary", JStr(""))),
        PyStr(JInt(PyLen(messages).value)),
        if Truthy(duration) then PyStr(duration) else "",
        if Truthy(duration) then formatHours(duration) else "",
        MetricField(FirstResponseTime(messages, parseTime)),
        MetricField(AvgResponseTime(messages, parseTime))))
  }

  /** The counts and the metrics are those of the ticket's messages, a
      ticket without messages has count 0 and blank metrics, and the row
      fails exactly when `analytics` is not a dict or `messages` has no
      length, on the messages first. */
  lemma RowFields(ticket: seq<Member>, parseTime: string -> Option<int>, formatHours: Json -> string)
    ensures var messages := GetOr(JObj(ticket), "messages", JArr([]));
      var r := TicketToRow(ticket, parseTime, formatHours);
      && (r.Err? <==> !GetOr(JObj(ticket), "analytics", JObj([])).JObj? || PyLen(messages).None?)
      && (PyLen(messages).None? ==> r == Err(MessagesHaveNoLength))
      && (r.Ok? ==>
            && r.value.messagesCount == PyStr(JInt(PyLen(messages).value))
            && r.value.firstResponse == MetricField(FirstResponseTime(messages, parseTime))
            && r.value.avgResponse == MetricField(AvgResponseTime(messages, parseTime)))
      && (messages.JArr? ==> PyLen(messages) == Some(|messages.items|))
      && (Lookup(ticket, "messages").None? && r.Ok? ==>
            r.value.messagesCount == "0" && r.value.firstResponse == "" && r.value.avgResponse == "")
  {
  }

  /** The rows `generate_csv` writes for `tickets`, each made by `row`: the
      header, then one row per ticket in list order; the first row that
      raises ends the export with its error. */
  function Rows<T>(tickets: seq<T>, row: T -> Result<CsvRow, RowError>): (r: Result<seq<seq<string>>, RowError>)
    ensures r.Ok? ==> |r.value| == |tickets| + 1 && r.value[0] == Header
    ensures r.Ok? ==> forall k :: 0 <= k < |tickets| ==> row(tickets[k]).Ok? && Cells(row(tickets[k]).value) == r.value[k + 1]
    ensures r.Err? <==> exists k :: 0 <= k < |tickets| && row(tickets[k]).Err?
  {
    if tickets == [] then Ok([Header])
    else
      var init := Rows(tickets[..|tickets| - 1], row);
      var last := row(tickets[|tickets| - 1]);
      if init.Err? then
        RowsErrWitness(tickets[..|tickets| - 1], row);
        init
      else if last.Err? then Err(last.error)
      else Ok(init.value + [Cells(last.value)])
  }

  lemma RowsErrWitness<T>(init: seq<T>, row: T -> Result<CsvRow, RowError>)
    requires exists k :: 0 <= k < |init| && row(init[k]).Err?
    ensures forall s: seq<T> :: init <= s ==> exists k :: 0 <= k < |s| && row(s[k]).Err?
  {
    var k :| 0 <= k < |init| && row(init[k]).Err?;
    forall s: seq<T> | init <= s ensures exists k :: 0 <= k < |s| && row(s[k]).Err? {
      assert s[k] == init[k];
    }
  }

  /** `generate_csv` over the tickets `list_tickets` returned. */
  function Csv(tickets: seq<seq<Member>>, parseTime: string -> Option<int>, formatHours: Json -> string)
    : Result<seq<seq<string>>, RowError>
  {
    Rows(tickets, t => TicketToRow(t, parseTime, formatHours))
  }

  /** `generate_single_ticket_csv` on the ticket `get_ticket` returned: the
      export of a list holding that ticket alone, which is the header and
      the ticket's row. */
  function SingleTicketCsv(ticket: seq<Member>, parseTime: string -> Option<int>, formatHours: Json -> string)
    : (r: Result<seq<seq<string>>, RowError>)
    ensures var row := TicketToRow(ticket, parseTime, formatHours);
      r == if row.Ok? then Ok([Header, Cells(row.value)]) else Err(row.error)
  {
    RowsOne(ticket, t => TicketToRow(t, parseTime, formatHours));
    Csv([ticket], parseTime, formatHours)
  }

  /** The export of one ticket is the header and that ticket's row. */
  lemma RowsOne<T>(t: T, row: T -> Result<CsvRow, RowError>)
    ensures Rows([t], row) == if row(t).Ok? then Ok([Header, Cells(row(t).value)]) else Err(row(t).error)
  {
    var one := [t];
    assert one[..|one| - 1] == [] && one[|one| - 1] == t;
    assert Rows(one[..|one| - 1], row) == Ok([Header]);
    if row(t).Ok? {
      assert [Header] + [Cells(row(t).value)] == [Header, Cells(row(t).value)];
    }
  }

  /** Every row of the export has one field per header name. */
  lemma {:induction false} RowsWidth<T>(tickets: seq<T>, row: T -> Result<CsvRow, RowError>)
    requires Rows(tickets, row).Ok?
    ensures forall k :: 0 <= k < |tickets| + 1 ==> |Rows(tickets, row).value[k]| == |Header|
  {
    var rows := Rows(tickets, row).value;
    forall k | 0 <= k < |tickets| + 1 ensures |rows[k]| == |Header| {
      if k > 0 {
        assert Cells(row(tickets[k - 1]).value) == rows[k];
      }
    }
  }

  /** The write loop of `generate_csv`. */
  method GenerateCsv(tickets: seq<seq<Member>>, parseTime: string -> Option<int>, formatHours: Json -> string)
    returns (r: Result<seq<seq<string>>, RowError>)
    ensures r == Csv(tickets, parseTime, formatHours)
  {
    ghost var toRow := t => TicketToRow(t, parseTime, formatHours);
    var rows := [Header];
    var i: nat := 0;
    while i < |tickets|
      invariant i <= |tickets|
      invariant Rows(tickets[..i], toRow) == Ok(rows)
    {
      var row := TicketToRow(tickets[i], parseTime, formatHours);
      assert row == toRow(tickets[i]);
      RowsSnoc(tickets, toRow, i);
      if row.Err? {
        RowsFailFrom(tickets, toRow, row.error, i + 1, |tickets|);
        assert tickets[..|tickets|] == tickets;
        return Err(row.error);
      }
      rows := rows + [Cells(row.value)];
      i := i + 1;
    }
    assert tickets[..i] == tickets;
    return Ok(rows);
  }

  lemma RowsSnoc<T>(tickets: seq<T>, row: T -> Result<CsvRow, RowError>, i: nat)
    requires i < |tickets|
    ensures Rows(tickets[..i + 1], row)
      == if Rows(tickets[..i], row).Err? then Rows(tickets[..i], row)
         else if row(tickets[i]).Err? then Err(row(tickets[i]).error)
         else Ok(Rows(tickets[..i], row).value + [Cells(row(tickets[i]).value)])
  {
    assert tickets[..i + 1][..i] == tickets[..i];
  }

  /** A failed export stays failed, with the same error, after one more ticket. */
  lemma RowsSnocErr<T>(tickets: seq<T>, row: T -> Result<CsvRow, RowError>, i: nat)
    requires i < |tickets| && Rows(tickets[..i], row).Err?
    ensures Rows(tickets[..i + 1], row) == Rows(tickets[..i], row)
  {
    assert tickets[..i + 1][..i] == tickets[..i];
  }

  /** An export that has failed stays failed with the same error. */
  lemma RowsFailFrom<T>(tickets: seq<T>, row: T -> Result<CsvRow, RowError>, e: RowError, i: nat, n: nat)
    requires i <= n <= |tickets| && Rows(tickets[..i], row) == Err(e)
    ensures Rows(tickets[..n], row) == Err(e)
  {
    var m := i;
    while m < n
      invariant i <= m <= n
      invariant Rows(tickets[..m], row) == Err(e)
    {
      RowsSnocErr(tickets, row, m);
      m := m + 1;
    }
  }
}
