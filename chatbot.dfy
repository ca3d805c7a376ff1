/**
  The chat widget's message list and its inline markdown tokeniser.

  React state updaters `prev => next` are functions of the previous list.
  The clock (`new Date()`), the id generator and the network are
  parameters: `now` and message timestamps are milliseconds since the
  epoch, and the ids are whatever `generateId` gave.
*/
module ChatBot {
  import opened Wrappers
  import Seqs
  import Text

  /** One message of the list. */
  datatype Message = Message(id: string, text: string, isUser: bool, timestamp: int, isAnalyzing: bool)

  /** Some message of the list carries this id. */
  predicate HasId(ms: seq<Message>, id: string) {
    exists k :: 0 <= k < |ms| && ms[k].id == id
  }

  // ================================================================ addMessage / updateMessage

  /** `addMessage(text, isUser, isAnalyzing)`, with `id` the generated id
      and `now` the clock. */
  function AddMessage(prev: seq<Message>, id: string, text: string, isUser: bool, isAnalyzing: bool, now: int): seq<Message> {
    prev + [Message(id, text, isUser, now, isAnalyzing)]
  }

  /** Adding keeps the list as it was and puts exactly one new message, with
      the given id and text, at the end; the id is then present. */
  lemma AddMessageAppends(prev: seq<Message>, id: string, text: string, isUser: bool, isAnalyzing: bool, now: int)
    ensures var r := AddMessage(prev, id, text, isUser, isAnalyzing, now);
      && |r| == |prev| + 1 && r[..|prev|] == prev
      && r[|prev|].id == id && r[|prev|].text == text && r[|prev|].isUser == isUser
      && HasId(r, id)
  {
    var r := AddMessage(prev, id, text, isUser, isAnalyzing, now);
    assert r[|prev|].id == id;
  }

  /** `updateMessage(id, newText, isAnalyzing)`: the messages with this id
      get the new text and flag; every other message is left as it was, and
      the length and the order of the ids do not change. */
  function UpdateMessage(prev: seq<Message>, id: string, newText: string, isAnalyzing: bool): (r: seq<Message>)
    ensures |r| == |prev|
    ensures forall k :: 0 <= k < |prev| ==> r[k].id == prev[k].id && r[k].isUser == prev[k].isUser
    ensures forall k :: 0 <= k < |prev| && prev[k].id != id ==> r[k] == prev[k]
    ensures forall k :: 0 <= k < |prev| && prev[k].id == id ==>
      r[k].text == newText && r[k].isAnalyzing == isAnalyzing && r[k].timestamp == prev[k].timestamp
  {
    Seqs.Map(prev, (m: Message) => if m.id == id then m.(text := newText, isAnalyzing := isAnalyzing) else m)
  }

  /** Updating twice with the same values is updating once. */
  lemma UpdateMessageIdempotent(prev: seq<Message>, id: string, newText: string, isAnalyzing: bool)
    ensures UpdateMessage(UpdateMessage(prev, id, newText, isAnalyzing), id, newText, isAnalyzing)
         == UpdateMessage(prev, id, newText, isAnalyzing)
  {
  }

  /** Updating an id that is not in the list changes nothing. */
  lemma UpdateMessageAbsent(prev: seq<Message>, id: string, newText: string, isAnalyzing: bool)
    requires !HasId(prev, id)
    ensures UpdateMessage(prev, id, newText, isAnalyzing) == prev
  {
  }

  /** Updating the message just added under a fresh id rewrites that one
      message and nothing before it. */
  lemma AddThenUpdate(prev: seq<Message>, id: string, text: string, isUser: bool, now: int, newText: string, isAnalyzing: bool)
    requires !HasId(prev, id)
    ensures UpdateMessage(AddMessage(prev, id, text, isUser, true, now), id, newText, isAnalyzing)
         == prev + [Message(id, newText, isUser, now, isAnalyzing)]
  {
    var r := UpdateMessage(AddMessage(prev, id, text, isUser, true, now), id, newText, isAnalyzing);
    assert r[..|prev|] == prev;
  }

  // ================================================================ the new_message updater

  /** A user message of the list that a server message may confirm: same
      text, and added less than ten seconds before `now`. */
  predicate IsEcho(m: Message, newMsg: Message, now: int) {
    m.isUser && m.text == newMsg.text && now - m.timestamp < 10000
  }

  /** The index of the most recent echo of `newMsg`, if any. */
  function LastEcho(prev: seq<Message>, newMsg: Message, now: int): (r: Option<nat>)
    ensures r.Some? ==> r.value < |prev| && IsEcho(prev[r.value], newMsg, now)
    ensures r.Some? ==> forall j :: r.value < j < |prev| ==> !IsEcho(prev[j], newMsg, now)
    ensures r.None? ==> forall j :: 0 <= j < |prev| ==> !IsEcho(prev[j], newMsg, now)
  {
    if prev == [] then None
    else if IsEcho(prev[|prev| - 1], newMsg, now) then Some(|prev| - 1)
    else LastEcho(prev[..|prev| - 1], newMsg, now)
  }

  /** The list after a `new_message` event: unchanged when the id is
      already there; a user message replaces its most recent echo in place;
      otherwise it is appended. */
  function Received(prev: seq<Message>, newMsg: Message, now: int): seq<Message> {
    if HasId(prev, newMsg.id) then prev
    else if newMsg.isUser && LastEcho(prev, newMsg, now).Some? then prev[LastEcho(prev, newMsg, now).value := newMsg]
    else prev + [newMsg]
  }

  /** The `new_message` updater, with its backward search for the echo. */
  method ReceiveMessage(prev: seq<Message>, newMsg: Message, now: int) returns (r: seq<Message>)
    ensures r == Received(prev, newMsg, now)
  {
    if HasId(prev, newMsg.id) {
      return prev;
    }
    if newMsg.isUser {
      var i := |prev|;
      while i > 0
        invariant 0 <= i <= |prev|
        invariant forall j :: i <= j < |prev| ==> !IsEcho(prev[j], newMsg, now)
      {
        i := i - 1;
        var m := prev[i];
        if m.isUser && m.text == newMsg.text && now - m.timestamp < 10000 {
          assert LastEcho(prev, newMsg, now) == Some(i);
          return prev[i := newMsg];
        }
      }
    }
    return prev + [newMsg];
  }

  /** A message whose id is already listed leaves the list unchanged. */
  lemma ReceivedDuplicate(prev: seq<Message>, newMsg: Message, now: int)
    requires HasId(prev, newMsg.id)
    ensures Received(prev, newMsg, now) == prev
  {
  }

  /** A new user message with an echo replaces the most recent echo, in
      place: the length is the same and every other message stays. */
  lemma ReceivedReplacesEcho(prev: seq<Message>, newMsg: Message, now: int, k: nat)
    requires !HasId(prev, newMsg.id) && newMsg.isUser
    requires k < |prev| && IsEcho(prev[k], newMsg, now)
    requires forall j :: k < j < |prev| ==> !IsEcho(prev[j], newMsg, now)
    ensures var r := Received(prev, newMsg, now);
      && |r| == |prev| && r[k] == newMsg
      && forall j :: 0 <= j < |prev| && j != k ==> r[j] == prev[j]
  {
    assert LastEcho(prev, newMsg, now) == Some(k);
  }

  /** A new message that is not a user message, or has no echo, is
      appended at the end. */
  lemma ReceivedAppends(prev: seq<Message>, newMsg: Message, now: int)
    requires !HasId(prev, newMsg.id)
    requires !newMsg.isUser || forall j :: 0 <= j < |prev| ==> !IsEcho(prev[j], newMsg, now)
    ensures Received(prev, newMsg, now) == prev + [newMsg]
  {
  }

  /** After the event the message's id is listed, so receiving the same
      message again, at any time, changes nothing. */
  lemma ReceivedIdempotent(prev: seq<Message>, newMsg: Message, now: int, later: int)
    ensures HasId(Received(prev, newMsg, now), newMsg.id)
    ensures Received(Received(prev, newMsg, now), newMsg, later) == Received(prev, newMsg, now)
  {
    var r := Received(prev, newMsg, now);
    if !HasId(prev, newMsg.id) {
      if newMsg.isUser && LastEcho(prev, newMsg, now).Some? {
        assert r[LastEcho(prev, newMsg, now).value].id == newMsg.id;
      } else {
        assert r[|prev|].id == newMsg.id;
      }
    }
  }

  // ================================================================ ticket_snapshot

  /** The list after a `ticket_snapshot` event carrying `loaded`. */
  function Snapshot(prev: seq<Message>, loaded: seq<Message>): seq<Message> {
    if |loaded| > 0 then loaded else prev
  }

  /** An empty snapshot keeps the list; any other replaces it. A message of
      a non-empty snapshot that is later broadcast again is not duplicated. */
  lemma SnapshotThenReceive(prev: seq<Message>, loaded: seq<Message>, k: nat, now: int)
    requires k < |loaded|
    ensures Snapshot(prev, []) == prev
    ensures Snapshot(prev, loaded) == loaded
    ensures Received(Snapshot(prev, loaded), loaded[k], now) == loaded
  {
    assert HasId(loaded, loaded[k].id);
  }

  // ================================================================ sendMessageToBackend

  const Analysing := "Analyse en cours..."

  /** The text a send posts to the server: the trimmed input, or nothing
      when it is blank. */
  function Posted(message: string): (r: Option<string>)
    ensures r.None? <==> Text.Strip(message) == []
    ensures r.Some? ==> r.value == Text.Strip(message)
  {
    var trimmed := Text.Strip(message);
    if trimmed == [] then None else Some(trimmed)
  }

  /** The list right after a send, before the server answers: the user's
      trimmed message and an analysing placeholder, under the two generated
      ids; unchanged when the input is blank. */
  function Send(prev: seq<Message>, message: string, userId: string, placeholderId: string, now: int): seq<Message> {
    match Posted(message)
    case None => prev
    case Some(trimmed) => AddMessage(AddMessage(prev, userId, trimmed, true, false, now), placeholderId, Analysing, false, true, now)
  }

  /** Blank input adds nothing; other input adds the trimmed user message
      and then the placeholder. */
  lemma SendGuard(prev: seq<Message>, message: string, userId: string, placeholderId: string, now: int)
    ensures Text.Strip(message) == [] ==> Send(prev, message, userId, placeholderId, now) == prev
    ensures Text.Strip(message) != [] ==>
      var r := Send(prev, message, userId, placeholderId, now);
      && |r| == |prev| + 2 && r[..|prev|] == prev
      && r[|prev|] == Message(userId, Text.Strip(message), true, now, false)
      && r[|prev| + 1] == Message(placeholderId, Analysing, false, now, true)
  {
  }

  /** The list once the server has answered: on success the placeholder is
      dropped (the server's broadcast brings the messages); on failure it
      becomes the error notice. */
  function Settled(ms: seq<Message>, placeholderId: string, ok: bool, errorMessage: string): seq<Message> {
    if ok then Seqs.Filter(ms, (m: Message) => m.id != placeholderId)
    else UpdateMessage(ms, placeholderId, "Désolé, je ne parviens pas à contacter le serveur. " + errorMessage, false)
  }

  /** On success no message keeps the placeholder's id and every other
      message stays; on failure the list keeps its length and the
      placeholder shows the error. */
  lemma SettledPlaceholder(ms: seq<Message>, placeholderId: string, ok: bool, errorMessage: string)
    ensures var r := Settled(ms, placeholderId, ok, errorMessage);
      && (ok ==> !HasId(r, placeholderId) && forall k :: 0 <= k < |ms| && ms[k].id != placeholderId ==> ms[k] in r)
      && (!ok ==> |r| == |ms| && forall k :: 0 <= k < |ms| && ms[k].id == placeholderId ==>
             r[k].text == "Désolé, je ne parviens pas à contacter le serveur. " + errorMessage && !r[k].isAnalyzing)
  {
  }

  // ================================================================ formatInlineMarkdown

  /** The characters a regular expression's `.` does not match. */
  predicate IsLineTerminator(c: char) {
    c == '\n' || c == '\r' || c == '\U{2028}' || c == '\U{2029}'
  }

  /** The two delimiters of the source's patterns, `**` and `*`. */
  predicate IsDelimiter(d: string) {
    d == "**" || d == "*"
  }

  /** The delimiter `d` occurs in `t` at position `q`. */
  predicate DelimiterAt(t: string, q: nat, d: string)
    requires IsDelimiter(d)
  {
    q + |d| <= |t| && t[q] == '*' && (|d| == 2 ==> t[q + 1] == '*')
  }

  lemma DelimiterSlice(t: string, q: nat, d: string)
    requires IsDelimiter(d) && DelimiterAt(t, q, d)
    ensures t[q..q + |d|] == d
  {
  }

  /** The lazy `(.+?)` followed by `d`, with content starting at `start`
      and `q - 1` its last character so far: the first `q` after a non-empty
      run of non-terminators at which `d` follows (`CloseAfterLazy`). */
  function CloseAfter(t: string, start: nat, q: nat, d: string): (r: Option<nat>)
    requires IsDelimiter(d) && start < q <= |t|
    ensures r.Some? ==> q <= r.value && r.value + |d| <= |t|
    decreases |t| - q
  {
    if IsLineTerminator(t[q - 1]) then None
    else if DelimiterAt(t, q, d) then Some(q)
    else if q < |t| then CloseAfter(t, start, q + 1, d)
    else None
  }

  /** The closing delimiter found is one, the content before it holds no
      line terminator, and no delimiter comes earlier. */
  lemma {:induction false} CloseAfterLazy(t: string, start: nat, q: nat, d: string)
    requires IsDelimiter(d) && start < q <= |t|
    requires forall k :: start <= k < q - 1 ==> !IsLineTerminator(t[k])
    requires forall k :: start < k < q ==> !DelimiterAt(t, k, d)
    requires CloseAfter(t, start, q, d).Some?
    ensures var c := CloseAfter(t, start, q, d).value;
      && DelimiterAt(t, c, d)
      && (forall k :: start <= k < c ==> !IsLineTerminator(t[k]))
      && (forall k :: start < k < c ==> !DelimiterAt(t, k, d))
    decreases |t| - q
  {
    if !DelimiterAt(t, q, d) {
      CloseAfterLazy(t, start, q + 1, d);
    }
  }

  /** `regex.exec(t)` with `lastIndex == from` for the pattern `d(.+?)d`:
      the first match at or after `from`, as the position of its opening
      and of its closing delimiter. The content between them is not empty,
      holds no line terminator and no earlier closing delimiter
      (`FindDelimiters`, `FindContent`). */
  function Find(t: string, from: nat, d: string): (r: Option<(nat, nat)>)
    requires IsDelimiter(d) && from <= |t|
    ensures r.Some? ==> from <= r.value.0 && r.value.0 + |d| < r.value.1
    ensures r.Some? ==> r.value.1 + |d| <= |t|
    decreases |t| - from
  {
    if from + |d| >= |t| then None
    else if DelimiterAt(t, from, d) && CloseAfter(t, from + |d|, from + |d| + 1, d).Some? then
      Some((from, CloseAfter(t, from + |d|, from + |d| + 1, d).value))
    else Find(t, from + 1, d)
  }

  /** The pattern `d(.+?)d` matches starting at `k`: a delimiter there,
      followed by a closing one after a non-empty content. */
  predicate MatchStartsAt(t: string, k: nat, d: string)
    requires IsDelimiter(d)
  {
    k + |d| < |t| && DelimiterAt(t, k, d) && CloseAfter(t, k + |d|, k + |d| + 1, d).Some?
  }

  /** The match found is the leftmost one: it starts where a match can
      start, and no match starts between the search position and it; when
      none is found, no match starts at or after the search position. */
  lemma {:induction false} FindLeftmost(t: string, from: nat, d: string)
    requires IsDelimiter(d) && from <= |t|
    ensures Find(t, from, d).Some? ==>
      && MatchStartsAt(t, Find(t, from, d).value.0, d)
      && forall k :: from <= k < Find(t, from, d).value.0 ==> !MatchStartsAt(t, k, d)
    ensures Find(t, from, d).None? ==> forall k :: from <= k <= |t| ==> !MatchStartsAt(t, k, d)
    decreases |t| - from
  {
    if from + |d| < |t| && !MatchStartsAt(t, from, d) {
      FindLeftmost(t, from + 1, d);
    }
  }

  /** A match starts with the delimiter and ends with it; its content holds
      no line terminator and no earlier closing delimiter: `.+?` is lazy and
      does not cross lines. */
  lemma {:induction false} FindContent(t: string, from: nat, d: string)
    requires IsDelimiter(d) && from <= |t| && Find(t, from, d).Some?
    ensures var p, q := Find(t, from, d).value.0, Find(t, from, d).value.1;
      && DelimiterAt(t, p, d) && DelimiterAt(t, q, d)
      && (forall k :: p + |d| <= k < q ==> !IsLineTerminator(t[k]))
      && (forall k :: p + |d| < k < q ==> !DelimiterAt(t, k, d))
    decreases |t| - from
  {
    if !(DelimiterAt(t, from, d) && CloseAfter(t, from + |d|, from + |d| + 1, d).Some?) {
      FindContent(t, from + 1, d);
    } else {
      CloseAfterLazy(t, from + |d|, from + |d| + 1, d);
    }
  }

  /** A piece of a scan: a run of text between matches, or the content of
      one match. */
  datatype Piece = Piece(matched: bool, text: string)

  /** The pieces one match pushes: the text before it, if any, then its
      content. */
  function Around(t: string, from: nat, p: nat, q: nat, d: string): seq<Piece>
    requires from <= p && p + |d| <= q <= |t|
  {
    (if p > from then [Piece(false, t[from..p])] else []) + [Piece(true, t[p + |d|..q])]
  }

  /** A search such as `regex.exec`, as far as the loop needs it: from each
      `lastIndex`, no match, or a match whose opening delimiter is at or
      after `lastIndex`, whose content is not empty and whose closing
      delimiter ends inside the text. */
  predicate Bounded(t: string, d: string, exec: nat -> Option<(nat, nat)>) {
    forall i: nat :: i <= |t| && exec(i).Some? ==>
      i <= exec(i).value.0 && exec(i).value.0 + |d| < exec(i).value.1 && exec(i).value.1 + |d| <= |t|
  }

  /** The match a search gives from `i`. */
  function MatchAt(exec: nat -> Option<(nat, nat)>, i: nat): (nat, nat)
    requires exec(i).Some?
  {
    exec(i).value
  }

  /** The two delimiters of every match are in the text. */
  predicate Delimited(t: string, d: string, exec: nat -> Option<(nat, nat)>)
    requires Bounded(t, d, exec)
  {
    forall i: nat {:trigger MatchAt(exec, i)} :: i <= |t| && exec(i).Some? ==>
      && t[MatchAt(exec, i).0..MatchAt(exec, i).0 + |d|] == d
      && t[MatchAt(exec, i).1..MatchAt(exec, i).1 + |d|] == d
  }

  /** A search for the matches of `d(.+?)d`. */
  predicate Searcher(t: string, d: string, exec: nat -> Option<(nat, nat)>) {
    Bounded(t, d, exec) && Delimited(t, d, exec)
  }

  /** The regex `d(.+?)d` as a search over `t`. */
  function Exec(t: string, d: string): nat -> Option<(nat, nat)>
    requires IsDelimiter(d)
  {
    (i: nat) => if i <= |t| then Find(t, i, d) else None
  }

  /** `Find` is a search: every match it gives fits. */
  lemma ExecSearches(t: string, d: string)
    requires IsDelimiter(d)
    ensures Searcher(t, d, Exec(t, d))
  {
    forall i: nat | i <= |t| && Exec(t, d)(i).Some?
      ensures var m := MatchAt(Exec(t, d), i);
        i <= m.0 && m.0 + |d| < m.1 && m.1 + |d| <= |t| && t[m.0..m.0 + |d|] == d && t[m.1..m.1 + |d|] == d
    {
      var m := Find(t, i, d).value;
      FindContent(t, i, d);
      DelimiterSlice(t, m.0, d);
      DelimiterSlice(t, m.1, d);
    }
  }

  /** The pieces one regex loop pushes, from `from` to the end, whatever
      search it runs. */
  function Pieces(t: string, from: nat, d: string, exec: nat -> Option<(nat, nat)>): seq<Piece>
    requires from <= |t| && Bounded(t, d, exec)
    decreases |t| - from
  {
    match exec(from)
    case None => if from < |t| then [Piece(false, t[from..])] else []
    case Some(m) => Around(t, from, m.0, m.1, d) + Pieces(t, m.1 + |d|, d, exec)
  }

  /** The pieces the loop over `d(.+?)d` pushes from `from`. */
  function Scanned(t: string, from: nat, d: string): seq<Piece>
    requires from <= |t| && IsDelimiter(d)
  {
    ExecSearches(t, d);
    Pieces(t, from, d, Exec(t, d))
  }

  /** The text a piece came from. */
  function PieceSource(piece: Piece, d: string): string {
    if piece.matched then d + piece.text + d else piece.text
  }

  function Restored(ps: seq<Piece>, d: string): string {
    if ps == [] then "" else PieceSource(ps[0], d) + Restored(ps[1..], d)
  }

  lemma {:induction false} RestoredAppend(a: seq<Piece>, b: seq<Piece>, d: string)
    ensures Restored(a + b, d) == Restored(a, d) + Restored(b, d)
  {
    if a != [] {
      assert (a + b)[0] == a[0];
      assert (a + b)[1..] == a[1..] + b;
      RestoredAppend(a[1..], b, d);
      assert Restored(a + b, d) == PieceSource(a[0], d) + (Restored(a[1..], d) + Restored(b, d));
    } else {
      assert a + b == b;
    }
  }

  lemma Slices(t: string, a: nat, b: nat, c: nat)
    requires a <= b <= c <= |t|
    ensures t[a..c] == t[a..b] + t[b..c]
  {
  }

  lemma SlicesTail(t: string, a: nat, b: nat)
    requires a <= b <= |t|
    ensures t[a..] == t[a..b] + t[b..]
  {
  }

  lemma RestoredOne(piece: Piece, d: string)
    ensures Restored([piece], d) == PieceSource(piece, d)
  {
    assert [piece][1..] == [];
  }

  /** A match's pieces with the content's delimiters put back. */
  lemma AroundSource(t: string, from: nat, p: nat, q: nat, d: string)
    requires from <= p && p + |d| <= q <= |t|
    ensures Restored(Around(t, from, p, q, d), d) == t[from..p] + (d + (t[p + |d|..q] + d))
  {
    var head := if p > from then [Piece(false, t[from..p])] else [];
    var content := Piece(true, t[p + |d|..q]);
    assert Around(t, from, p, q, d) == head + [content];
    RestoredAppend(head, [content], d);
    RestoredOne(content, d);
    if p > from {
      RestoredOne(head[0], d);
    }
    Assoc(d, t[p + |d|..q], d);
  }

  /** The text a match spans: the text before it, the delimiter, the
      content and the delimiter again. */
  lemma SpanSplit(t: string, from: nat, p: nat, q: nat, d: string)
    requires from <= p && p + |d| <= q && q + |d| <= |t| && t[p..p + |d|] == d && t[q..q + |d|] == d
    ensures t[from..q + |d|] == t[from..p] + (d + (t[p + |d|..q] + d))
  {
    calc {
      t[from..q + |d|];
      { Slices(t, from, p, q + |d|); }
      t[from..p] + t[p..q + |d|];
      { Slices(t, p, p + |d|, q + |d|); }
      t[from..p] + (d + t[p + |d|..q + |d|]);
      { Slices(t, p + |d|, q, q + |d|); }
      t[from..p] + (d + (t[p + |d|..q] + d));
    }
  }

  /** A match's pieces, delimiters put back, are the text it spans. */
  lemma AroundRestores(t: string, from: nat, p: nat, q: nat, d: string)
    requires from <= p && p + |d| <= q && q + |d| <= |t| && t[p..p + |d|] == d && t[q..q + |d|] == d
    ensures Restored(Around(t, from, p, q, d), d) == t[from..q + |d|]
  {
    AroundSource(t, from, p, q, d);
    SpanSplit(t, from, p, q, d);
  }

  lemma Assoc(a: string, b: string, c: string)
    ensures a + (b + c) == a + b + c
  {
  }

  /** Putting the delimiters back around the matched contents restores the
      scanned text, whatever search found the matches. */
  lemma {:induction false} PiecesRestore(t: string, from: nat, d: string, exec: nat -> Option<(nat, nat)>)
    requires from <= |t| && Searcher(t, d, exec)
    ensures Restored(Pieces(t, from, d, exec), d) == t[from..]
    decreases |t| - from
  {
    if exec(from).None? {
      PiecesEnd(t, from, d, exec);
      if from < |t| {
        RestoredOne(Piece(false, t[from..]), d);
      }
    } else {
      var p, q := exec(from).value.0, exec(from).value.1;
      PiecesRestore(t, q + |d|, d, exec);
      MatchRestores(t, from, d, exec, p, q);
    }
  }

  /** The pieces of the match `(p, q)` found from `from`, delimiters put
      back, are the text from `from` to the end of the match. */
  lemma MatchAround(t: string, from: nat, d: string, exec: nat -> Option<(nat, nat)>, p: nat, q: nat)
    requires from <= |t| && Searcher(t, d, exec) && exec(from) == Some((p, q))
    ensures Restored(Around(t, from, p, q, d), d) == t[from..q + |d|]
  {
    DelimitersAt(t, from, d, exec, p, q);
    AroundRestores(t, from, p, q, d);
  }

  /** A match found by a searcher starts and ends with the delimiter. */
  lemma DelimitersAt(t: string, from: nat, d: string, exec: nat -> Option<(nat, nat)>, p: nat, q: nat)
    requires from <= |t| && Searcher(t, d, exec) && exec(from) == Some((p, q))
    ensures from <= p && p + |d| < q && q + |d| <= |t|
    ensures t[p..p + |d|] == d && t[q..q + |d|] == d
  {
    assert MatchAt(exec, from) == (p, q);
  }

  /** One turn of the loop restores the text up to the end of its match `(p,
      q)`; so if the turns after it restore the rest, the pieces from `from`
      restore the text from `from`. */
  lemma MatchRestores(t: string, from: nat, d: string, exec: nat -> Option<(nat, nat)>, p: nat, q: nat)
    requires from <= |t| && Searcher(t, d, exec) && exec(from) == Some((p, q))
    requires q + |d| <= |t| && Restored(Pieces(t, q + |d|, d, exec), d) == t[q + |d|..]
    ensures Restored(Pieces(t, from, d, exec), d) == t[from..]
  {
    var head, rest := Around(t, from, p, q, d), Pieces(t, q + |d|, d, exec);
    calc {
      Restored(Pieces(t, from, d, exec), d);
      { PiecesSplit(t, from, d, exec, p, q); }
      Restored(head + rest, d);
      { RestoredAppend(head, rest, d); }
      Restored(head, d) + Restored(rest, d);
      { MatchAround(t, from, d, exec, p, q); }
      t[from..q + |d|] + t[q + |d|..];
      { SlicesTail(t, from, q + |d|); }
      t[from..];
    }
  }

  /** The scan of `d(.+?)d` loses nothing: with the delimiters put back it
      is the text from `from` on. */
  lemma ScannedRestores(t: string, from: nat, d: string)
    requires from <= |t| && IsDelimiter(d)
    ensures Restored(Scanned(t, from, d), d) == t[from..]
  {
    ExecSearches(t, d);
    PiecesRestore(t, from, d, Exec(t, d));
  }

  /** The pieces from `from`: those of the match `exec` found there, then
      those from the end of that match. */
  lemma PiecesSplit(t: string, from: nat, d: string, exec: nat -> Option<(nat, nat)>, p: nat, q: nat)
    requires from <= |t| && Bounded(t, d, exec) && exec(from) == Some((p, q))
    ensures from <= p && p + |d| < q && q + |d| <= |t|
    ensures Pieces(t, from, d, exec) == Around(t, from, p, q, d) + Pieces(t, q + |d|, d, exec)
  {
  }

  /** One turn of the loop: the pieces of the match `exec` found, then the
      pieces from the end of that match, after the pieces pushed so far. */
  lemma PiecesStep(t: string, from: nat, d: string, exec: nat -> Option<(nat, nat)>, p: nat, q: nat,
                   before: seq<Piece>, whole: seq<Piece>)
    requires from <= |t| && Bounded(t, d, exec) && exec(from) == Some((p, q))
    requires before + Pieces(t, from, d, exec) == whole
    ensures from <= p && p + |d| < q && q + |d| <= |t|
    ensures before + Around(t, from, p, q, d) + Pieces(t, q + |d|, d, exec) == whole
  {
    PiecesSplit(t, from, d, exec, p, q);
    AppendAssoc(before, Around(t, from, p, q, d), Pieces(t, q + |d|, d, exec));
  }

  /** The end of the loop: what is left after the last match. */
  lemma PiecesEnd(t: string, from: nat, d: string, exec: nat -> Option<(nat, nat)>)
    requires from <= |t| && Bounded(t, d, exec) && exec(from).None?
    ensures Pieces(t, from, d, exec) == if from < |t| then [Piece(false, t[from..])] else []
  {
  }

  lemma AppendAssoc<T>(a: seq<T>, b: seq<T>, c: seq<T>)
    ensures a + (b + c) == a + b + c
  {
  }

  /** Text without `*` is one unmatched piece (none when it is empty). */
  lemma ScannedNoDelimiter(t: string, from: nat, d: string)
    requires from <= |t| && IsDelimiter(d) && '*' !in t
    ensures Scanned(t, from, d) == if from < |t| then [Piece(false, t[from..])] else []
  {
    if Find(t, from, d).Some? {
      FindContent(t, from, d);
    }
  }

  /** The pushes of one match: the text since `lastIndex` when there is
      any, then the match's content. */
  method PushMatch(pieces: seq<Piece>, text: string, lastIndex: nat, p: nat, q: nat, d: string)
    returns (pushed: seq<Piece>)
    requires lastIndex <= p && p + |d| <= q <= |text|
    ensures pushed == pieces + Around(text, lastIndex, p, q, d)
  {
    pushed := pieces;
    if p > lastIndex {
      pushed := pushed + [Piece(false, text[lastIndex..p])];
    }
    pushed := pushed + [Piece(true, text[p + |d|..q])];
  }

  /** One turn of the loop on the match `(p, q)`: its pieces are pushed and
      the search goes on from the end of the match. */
  method Turn(pieces: seq<Piece>, text: string, lastIndex: nat, p: nat, q: nat, d: string,
              exec: nat -> Option<(nat, nat)>, ghost whole: seq<Piece>)
    returns (pushed: seq<Piece>, next: nat)
    requires lastIndex <= |text| && Bounded(text, d, exec) && exec(lastIndex) == Some((p, q))
    requires pieces + Pieces(text, lastIndex, d, exec) == whole
    ensures lastIndex < next <= |text|
    ensures pushed + Pieces(text, next, d, exec) == whole
  {
    PiecesStep(text, lastIndex, d, exec, p, q, pieces, whole);
    pushed := PushMatch(pieces, text, lastIndex, p, q, d);
    next := q + |d|;
  }

  /** The loop `while ((match = regex.exec(text)) !== null)`, with the
      search `exec` standing for the regex. */
  method Scan(text: string, d: string, exec: nat -> Option<(nat, nat)>) returns (pieces: seq<Piece>)
    requires Bounded(text, d, exec)
    ensures pieces == Pieces(text, 0, d, exec)
  {
    ghost var whole := Pieces(text, 0, d, exec);
    pieces := [];
    var lastIndex: nat := 0;
    var match_ := exec(lastIndex);
    while match_.Some?
      invariant lastIndex <= |text|
      invariant match_ == exec(lastIndex)
      invariant pieces + Pieces(text, lastIndex, d, exec) == whole
      decreases |text| - lastIndex
    {
      pieces, lastIndex := Turn(pieces, text, lastIndex, match_.value.0, match_.value.1, d, exec, whole);
      match_ := exec(lastIndex);
    }
    PiecesEnd(text, lastIndex, d, exec);
    if lastIndex < |text| {
      pieces := pieces + [Piece(false, text[lastIndex..])];
    }
  }

  /** A rendered fragment: plain text, `<strong>` or `<em>`. */
  datatype Part = Plain(text: string) | Bold(text: string) | Italic(text: string)

  function PartSource(part: Part): string {
    match part
    case Plain(s) => s
    case Bold(s) => "**" + s + "**"
    case Italic(s) => "*" + s + "*"
  }

  function Rendered(parts: seq<Part>): string {
    if parts == [] then "" else PartSource(parts[0]) + Rendered(parts[1..])
  }

  lemma {:induction false} RenderedAppend(a: seq<Part>, b: seq<Part>)
    ensures Rendered(a + b) == Rendered(a) + Rendered(b)
  {
    if a != [] {
      assert (a + b)[0] == a[0];
      assert (a + b)[1..] == a[1..] + b;
      RenderedAppend(a[1..], b);
      assert Rendered(a + b) == PartSource(a[0]) + (Rendered(a[1..]) + Rendered(b));
    } else {
      assert a + b == b;
    }
  }

  function ItalicOf(piece: Piece): Part {
    if piece.matched then Italic(piece.text) else Plain(piece.text)
  }

  /** What the italic pass makes of one piece of the bold pass. */
  function Refined(piece: Piece): seq<Part> {
    if piece.matched then [Bold(piece.text)] else Seqs.Map(Scanned(piece.text, 0, "*"), ItalicOf)
  }

  /** The italic pass over the bold pass's pieces, in order. */
  function ItalicPass(ps: seq<Piece>): seq<Part> {
    if ps == [] then [] else ItalicPass(ps[..|ps| - 1]) + Refined(ps[|ps| - 1])
  }

  /** `formatInlineMarkdown(text)`. */
  function InlineParts(text: string): seq<Part> {
    var parts := ItalicPass(Scanned(text, 0, "**"));
    if |parts| > 0 then parts else [Plain(text)]
  }

  lemma {:induction false} ItalicOfRestores(ps: seq<Piece>)
    ensures Rendered(Seqs.Map(ps, ItalicOf)) == Restored(ps, "*")
  {
    if ps != [] {
      assert Seqs.Map(ps, ItalicOf) == [ItalicOf(ps[0])] + Seqs.Map(ps[1..], ItalicOf);
      RenderedAppend([ItalicOf(ps[0])], Seqs.Map(ps[1..], ItalicOf));
      ItalicOfRestores(ps[1..]);
    }
  }

  lemma RefinedRestores(piece: Piece)
    ensures Rendered(Refined(piece)) == PieceSource(piece, "**")
  {
    if !piece.matched {
      ItalicOfRestores(Scanned(piece.text, 0, "*"));
      ScannedRestores(piece.text, 0, "*");
    }
  }

  lemma {:induction false} ItalicPassRestores(ps: seq<Piece>)
    ensures Rendered(ItalicPass(ps)) == Restored(ps, "**")
  {
    if ps != [] {
      var init := ps[..|ps| - 1];
      var last := ps[|ps| - 1];
      ItalicPassRestores(init);
      RenderedAppend(ItalicPass(init), Refined(last));
      RefinedRestores(last);
      Seqs.FrontLast(ps);
      RestoredAppend(init, [last], "**");
    }
  }

  /** Wrapping the bold parts back in `**` and the italic parts in `*` and
      concatenating gives back the input. */
  lemma InlineRestores(text: string)
    ensures Rendered(InlineParts(text)) == text
  {
    ItalicPassRestores(Scanned(text, 0, "**"));
    ScannedRestores(text, 0, "**");
  }

  /** Text without `*` comes back as the single plain part `[text]`. */
  lemma InlineNoStar(text: string)
    requires '*' !in text
    ensures InlineParts(text) == [Plain(text)]
  {
    ScannedNoDelimiter(text, 0, "**");
    if |text| > 0 {
      ScannedNoDelimiter(text, 0, "*");
      assert text[0..] == text;
      assert ItalicPass([Piece(false, text)]) == [Plain(text)];
    }
  }

  /** The italic pass over the bold pass's pieces grows one piece at a time. */
  lemma ItalicPassSnoc(ps: seq<Piece>, i: nat)
    requires i < |ps|
    ensures ItalicPass(ps[..i + 1]) == ItalicPass(ps[..i]) + Refined(ps[i])
  {
    assert ps[..i + 1][..i] == ps[..i];
  }

  /** The italic loop on one piece of the bold pass: a bold piece stays
      bold, any other is scanned for `*`. */
  method Refine(part: Piece) returns (refined: seq<Part>)
    ensures refined == Refined(part)
  {
    if !part.matched {
      ExecSearches(part.text, "*");
      var italic := Scan(part.text, "*", Exec(part.text, "*"));
      refined := Seqs.Map(italic, ItalicOf);
    } else {
      refined := [Bold(part.text)];
    }
  }

  /** `formatInlineMarkdown`: the bold loop over the text, then the italic
      loop over each piece that is not bold. */
  method FormatInlineMarkdown(text: string) returns (parts: seq<Part>)
    ensures parts == InlineParts(text)
  {
    ExecSearches(text, "**");
    var boldParts := Scan(text, "**", Exec(text, "**"));
    var finalParts: seq<Part> := [];
    var i := 0;
    while i < |boldParts|
      invariant i <= |boldParts|
      invariant finalParts == ItalicPass(boldParts[..i])
    {
      var refined := Refine(boldParts[i]);
      ItalicPassSnoc(boldParts, i);
      finalParts := finalParts + refined;
      i := i + 1;
    }
    assert boldParts[..i] == boldParts;
    parts := if |finalParts| > 0 then finalParts else [Plain(text)];
  }
}
