/**
  The Python values that a decoded JSON document (or a request body) can hold,
  with Python's truthiness, `dict.get`, `str()`, and `json.dumps(v,
  ensure_ascii=False)`. A `dict` is an ordered list of members with distinct
  keys, as Python's insertion-ordered `dict` is; floats are not modelled.
*/
module JsonValue {
  import opened Wrappers
  import Decimal

  datatype Json =
    | JNull
    | JBool(b: bool)
    | JInt(i: int)
    | JStr(s: string)
    | JArr(items: seq<Json>)
    | JObj(members: seq<Member>)

  datatype Member = Member(key: string, value: Json)

  /** Python's `bool(v)`. */
  predicate Truthy(v: Json) {
    match v
    case JNull => false
    case JBool(b) => b
    case JInt(i) => i != 0
    case JStr(s) => s != []
    case JArr(items) => items != []
    case JObj(members) => members != []
  }

  /** Python's `a or b`: the first operand when it is truthy, else the second. */
  function Or(a: Json, b: Json): (r: Json)
    ensures Truthy(a) ==> r == a
    ensures !Truthy(a) ==> r == b
  {
    if Truthy(a) then a else b
  }

  predicate IsDict(v: Json) { v.JObj? }
  predicate IsList(v: Json) { v.JArr? }

  /** The value stored under `k` in a dict, if any. */
  function Lookup(members: seq<Member>, k: string): (r: Option<Json>)
    ensures r.Some? <==> exists i :: 0 <= i < |members| && members[i].key == k
  {
    if members == [] then None
    else if members[0].key == k then Some(members[0].value)
    else Lookup(members[1..], k)
  }

  /** A found value is the value of a member with that key. */
  lemma {:induction false} LookupFound(members: seq<Member>, k: string)
    requires Lookup(members, k).Some?
    ensures exists i :: 0 <= i < |members| && members[i].key == k && members[i].value == Lookup(members, k).value
  {
    if members[0].key != k {
      LookupFound(members[1..], k);
      var i :| 0 <= i < |members| - 1 && members[1..][i].key == k && members[1..][i].value == Lookup(members, k).value;
      assert members[i + 1] == members[1..][i];
    }
  }

  /** The value under `k` is that of the first member with key `k`. */
  lemma {:induction false} LookupAt(members: seq<Member>, k: string, i: nat)
    requires i < |members| && members[i].key == k
    requires forall j :: 0 <= j < i ==> members[j].key != k
    ensures Lookup(members, k) == Some(members[i].value)
  {
    if i > 0 {
      assert members[1..][i - 1] == members[i];
      assert forall j :: 0 <= j < i - 1 ==> members[1..][j] == members[j + 1];
      LookupAt(members[1..], k, i - 1);
    }
  }

  /** Looking a key up in two lists of members one after the other finds it
      in the first when it is there, and in the second otherwise. */
  lemma {:induction false} LookupAppend(a: seq<Member>, b: seq<Member>, k: string)
    ensures Lookup(a + b, k) == if Lookup(a, k).Some? then Lookup(a, k) else Lookup(b, k)
  {
    if a != [] {
      assert (a + b)[0] == a[0];
      assert (a + b)[1..] == a[1..] + b;
      LookupAppend(a[1..], b, k);
    } else {
      assert a + b == b;
    }
  }

  /** Python's `d.get(k, default)` on a dict; `default` for any other value. */
  function GetOr(v: Json, k: string, default: Json): Json {
    if v.JObj? then Lookup(v.members, k).GetOr(default) else default
  }

  /** Python's `d.get(k)`, which gives `None` for a missing key. */
  function Get(v: Json, k: string): Json {
    GetOr(v, k, JNull)
  }

  /** Python's `v[k]`, which raises (`None` here) unless `v` is a dict
      holding `k`. */
  function Subscript(v: Json, k: string): Option<Json> {
    if v.JObj? then Lookup(v.members, k) else None
  }

  /** A dict built from literal members, with distinct keys. */
  predicate DistinctKeys(members: seq<Member>) {
    forall i, j :: 0 <= i < j < |members| ==> members[i].key != members[j].key
  }

  lemma LookupDistinct(members: seq<Member>, i: nat)
    requires DistinctKeys(members) && i < |members|
    ensures Lookup(members, members[i].key) == Some(members[i].value)
  {
    if i > 0 {
      assert DistinctKeys(members[1..]);
      assert members[1..][i - 1] == members[i];
      LookupDistinct(members[1..], i - 1);
    }
  }

  function KeysOf(members: seq<Member>): (r: seq<string>)
    ensures |r| == |members| && forall i :: 0 <= i < |members| ==> r[i] == members[i].key
  {
    seq(|members|, i requires 0 <= i < |members| => members[i].key)
  }

  /** Python's `list(d.values())`. */
  function ValuesOf(members: seq<Member>): (r: seq<Json>)
    ensures |r| == |members| && forall i :: 0 <= i < |members| ==> r[i] == members[i].value
  {
    seq(|members|, i requires 0 <= i < |members| => members[i].value)
  }

  lemma LookupKeys(members: seq<Member>, k: string)
    ensures Lookup(members, k).Some? <==> k in KeysOf(members)
  {
    if Lookup(members, k).Some? {
      var i :| 0 <= i < |members| && members[i].key == k;
      assert KeysOf(members)[i] == k;
    }
  }

  /** Python's `d[k] = v`: an existing key keeps its place and takes the new
      value, a new key goes last. */
  function SetKey(members: seq<Member>, k: string, v: Json): (r: seq<Member>)
    ensures Lookup(r, k) == Some(v)
    ensures forall j :: j != k ==> Lookup(r, j) == Lookup(members, j)
  {
    if members == [] then [Member(k, v)]
    else if members[0].key == k then [Member(k, v)] + members[1..]
    else [members[0]] + SetKey(members[1..], k, v)
  }

  /** The keys after `d[k] = v`: the same keys in the same order, with `k`
      appended when it was not present. */
  lemma {:induction false} SetKeyKeys(members: seq<Member>, k: string, v: Json)
    ensures var r := SetKey(members, k, v);
      && |r| == (if Lookup(members, k).Some? then |members| else |members| + 1)
      && (forall i :: 0 <= i < |members| ==> r[i].key == members[i].key)
      && (Lookup(members, k).None? ==> r[|members|] == Member(k, v))
  {
    if members != [] && members[0].key != k {
      var tail := members[1..];
      SetKeyKeys(tail, k, v);
      var r := SetKey(members, k, v);
      assert r == [members[0]] + SetKey(tail, k, v);
      forall i | 0 < i < |members| ensures r[i].key == members[i].key {
        assert r[i] == SetKey(tail, k, v)[i - 1];
        assert members[i] == tail[i - 1];
      }
    }
  }

  /** Keys stay distinct under assignment. */
  lemma {:induction false} SetKeyDistinct(members: seq<Member>, k: string, v: Json)
    requires DistinctKeys(members)
    ensures DistinctKeys(SetKey(members, k, v))
  {
    if members != [] && members[0].key != k {
      var tail := members[1..];
      assert DistinctKeys(tail);
      SetKeyDistinct(tail, k, v);
      var rt := SetKey(tail, k, v);
      SetKeyAvoids(tail, k, v, members[0].key);
      DistinctCons(members[0], rt);
      assert SetKey(members, k, v) == [members[0]] + rt;
    }
  }

  /** A key that is neither `k` nor already present does not appear after
      `d[k] = v`. */
  lemma SetKeyAvoids(members: seq<Member>, k: string, v: Json, other: string)
    requires other != k && forall i :: 0 <= i < |members| ==> members[i].key != other
    ensures forall j :: 0 <= j < |SetKey(members, k, v)| ==> SetKey(members, k, v)[j].key != other
  {
    SetKeyKeys(members, k, v);
  }

  lemma DistinctCons(m: Member, rest: seq<Member>)
    requires DistinctKeys(rest)
    requires forall j :: 0 <= j < |rest| ==> rest[j].key != m.key
    ensures DistinctKeys([m] + rest)
  {
    var r := [m] + rest;
    forall i, j | 0 <= i < j < |r| ensures r[i].key != r[j].key {
      assert r[j] == rest[j - 1];
      if i > 0 {
        assert r[i] == rest[i - 1];
      }
    }
  }

  /** Assigning twice to one key is assigning the second value. */
  lemma {:induction false} SetKeyTwice(members: seq<Member>, k: string, a: Json, b: Json)
    ensures SetKey(SetKey(members, k, a), k, b) == SetKey(members, k, b)
  {
    if members != [] && members[0].key != k {
      SetKeyTwice(members[1..], k, a, b);
    }
  }

  /** Two dicts with the same key-value pairs, whatever their order. */
  ghost predicate SameDict(a: seq<Member>, b: seq<Member>) {
    forall k :: Lookup(a, k) == Lookup(b, k)
  }

  // ---------------------------------------------------------------- hex

  function HexDigit(d: nat): (c: char)
    requires d < 16
  {
    if d < 10 then (d + '0' as int) as char else (d - 10 + 'a' as int) as char
  }

  function HexValue(c: char): Option<nat> {
    if '0' <= c <= '9' then Some(c as int - '0' as int)
    else if 'a' <= c <= 'f' then Some(c as int - 'a' as int + 10)
    else if 'A' <= c <= 'F' then Some(c as int - 'A' as int + 10)
    else None
  }

  lemma HexRoundTrip(d: nat)
    requires d < 16
    ensures HexValue(HexDigit(d)) == Some(d)
  {
  }

  // ---------------------------------------------------------------- json.dumps

  /** How `json.dumps(..., ensure_ascii=False)` writes one character of a string. */
  function JsonEscapeChar(c: char): (r: string)
    ensures |r| >= 1
  {
    if c == '"' then "\\\""
    else if c == '\\' then "\\\\"
    else if c == '\n' then "\\n"
    else if c == '\r' then "\\r"
    else if c == '\t' then "\\t"
    else if c == '\U{0008}' then "\\b"
    else if c == '\U{000C}' then "\\f"
    else if c < ' ' then "\\u00" + [HexDigit(c as int / 16), HexDigit(c as int % 16)]
    else [c]
  }

  function JsonEscape(s: string): (r: string)
    ensures |r| >= |s|
  {
    if s == [] then [] else JsonEscapeChar(s[0]) + JsonEscape(s[1..])
  }

  /** `json.dumps` of a string: the escaped characters between double quotes. */
  function DumpsStr(s: string): string {
    "\"" + JsonEscape(s) + "\""
  }

  /** Python's `json.dumps(v, ensure_ascii=False)` with its default separators. */
  function Dumps(v: Json): string
    decreases v
  {
    match v
    case JNull => "null"
    case JBool(b) => if b then "true" else "false"
    case JInt(i) => Decimal.IntToString(i)
    case JStr(s) => DumpsStr(s)
    case JArr(items) => "[" + DumpsItems(items) + "]"
    case JObj(members) => "{" + DumpsMembers(members) + "}"
  }

  function DumpsItems(items: seq<Json>): string
    decreases items
  {
    if items == [] then ""
    else if |items| == 1 then Dumps(items[0])
    else DumpsItems(items[..|items| - 1]) + ", " + Dumps(items[|items| - 1])
  }

  function DumpsMembers(members: seq<Member>): string
    decreases members
  {
    if members == [] then ""
    else
      var last := members[|members| - 1];
      var one := DumpsStr(last.key) + ": " + Dumps(last.value);
      if |members| == 1 then one else DumpsMembers(members[..|members| - 1]) + ", " + one
  }

  // ---------------------------------------------------------------- json.loads of a string

  /** The characters of a JSON string body decoded back, as `json.loads` reads
      them between the quotes; `None` on a malformed escape or a raw control
      character. */
  function JsonUnescape(t: string): Option<string>
    decreases |t|
  {
    if t == [] then Some([])
    else if t[0] == '\\' then
      if |t| < 2 then None
      else
        var e := t[1];
        var simple :=
          if e == '"' then Some('"') else if e == '\\' then Some('\\')
          else if e == '/' then Some('/') else if e == 'n' then Some('\n')
          else if e == 'r' then Some('\r') else if e == 't' then Some('\t')
          else if e == 'b' then Some('\U{0008}') else if e == 'f' then Some('\U{000C}')
          else None;
        if simple.Some? then
          match JsonUnescape(t[2..])
          case Some(rest) => Some([simple.value] + rest)
          case None => None
        else if e == 'u' && |t| >= 6 then
          match (HexValue(t[2]), HexValue(t[3]), HexValue(t[4]), HexValue(t[5]))
          case (Some(a), Some(b), Some(c), Some(d)) =>
            var code := ((a * 16 + b) * 16 + c) * 16 + d;
            if code < 0xD800 then
              match JsonUnescape(t[6..])
              case Some(rest) => Some([code as char] + rest)
              case None => None
            else None
          case _ => None
        else None
    else if t[0] == '"' || t[0] < ' ' then None
    else
      match JsonUnescape(t[1..])
      case Some(rest) => Some([t[0]] + rest)
      case None => None
  }

  lemma UnescapeChar(c: char, rest: string)
    ensures JsonUnescape(JsonEscapeChar(c) + rest) ==
      match JsonUnescape(rest) case Some(r) => Some([c] + r) case None => None
  {
    var t := JsonEscapeChar(c) + rest;
    if c < ' ' && c != '\n' && c != '\r' && c != '\t' && c != '\U{0008}' && c != '\U{000C}' {
      var hi, lo := c as int / 16, c as int % 16;
      HexRoundTrip(hi);
      HexRoundTrip(lo);
      assert t[2] == '0' && t[3] == '0' && t[4] == HexDigit(hi) && t[5] == HexDigit(lo);
      assert t[6..] == rest;
      assert ((0 * 16 + 0) * 16 + hi) * 16 + lo == c as int;
    } else if |JsonEscapeChar(c)| == 2 {
      assert t[2..] == rest;
    } else {
      assert t[1..] == rest;
    }
  }

  /** `json.loads` reads back exactly the string that `json.dumps` wrote. */
  lemma {:induction false} JsonEscapeRoundTrip(s: string)
    ensures JsonUnescape(JsonEscape(s)) == Some(s)
  {
    if s != [] {
      JsonEscapeRoundTrip(s[1..]);
      UnescapeChar(s[0], JsonEscape(s[1..]));
      assert [s[0]] + s[1..] == s;
    }
  }

  /** The escaped body never holds a bare double quote or a raw control character. */
  lemma {:induction false} JsonEscapeSafe(s: string)
    ensures forall i :: 0 <= i < |JsonEscape(s)| ==> JsonEscape(s)[i] >= ' '
  {
    if s != [] {
      JsonEscapeSafe(s[1..]);
      var e, r := JsonEscapeChar(s[0]), JsonEscape(s[1..]);
      assert JsonEscape(s) == e + r;
      forall i | 0 <= i < |e + r| ensures (e + r)[i] >= ' ' {
        if i >= |e| { assert (e + r)[i] == r[i - |e|]; }
      }
    }
  }

  // ---------------------------------------------------------------- str() and repr()

  /** The quote `repr` picks: a single quote unless the text holds one and no
      double quote. */
  function ReprQuote(s: string): char {
    if '\'' in s && '"' !in s then '"' else '\''
  }

  /** One character as `repr` writes it: backslash escapes, and `\xhh` for
      the characters below U+0100 that Python does not count as printable. */
  function ReprEscapeChar(c: char, q: char): (r: string)
    ensures |r| >= 1
  {
    if c == '\\' then "\\\\"
    else if c == q then ['\\', q]
    else if c == '\n' then "\\n"
    else if c == '\r' then "\\r"
    else if c == '\t' then "\\t"
    else if c < ' ' || ('\U{007F}' <= c <= '\U{00A0}') || c == '\U{00AD}' then "\\x" + [HexDigit(c as int / 16), HexDigit(c as int % 16)]
    else [c]
  }

  function ReprEscape(s: string, q: char): string {
    if s == [] then [] else ReprEscapeChar(s[0], q) + ReprEscape(s[1..], q)
  }

  /** Python's `repr()` of a string. */
  function ReprStr(s: string): string {
    [ReprQuote(s)] + ReprEscape(s, ReprQuote(s)) + [ReprQuote(s)]
  }

  /** Python's `repr()` of a value. */
  function PyRepr(v: Json): string
    decreases v
  {
    match v
    case JNull => "None"
    case JBool(b) => if b then "True" else "False"
    case JInt(i) => Decimal.IntToString(i)
    case JStr(s) => ReprStr(s)
    case JArr(items) => "[" + ReprItems(items) + "]"
    case JObj(members) => "{" + ReprMembers(members) + "}"
  }

  function ReprItems(items: seq<Json>): string
    decreases items
  {
    if items == [] then ""
    else if |items| == 1 then PyRepr(items[0])
    else ReprItems(items[..|items| - 1]) + ", " + PyRepr(items[|items| - 1])
  }

  function ReprMembers(members: seq<Member>): string
    decreases members
  {
    if members == [] then ""
    else
      var last := members[|members| - 1];
      var one := ReprStr(last.key) + ": " + PyRepr(last.value);
      if |members| == 1 then one else ReprMembers(members[..|members| - 1]) + ", " + one
  }

  /** Python's `str()`: a string is itself, anything else its `repr`. */
  function PyStr(v: Json): (r: string)
    ensures v.JStr? ==> r == v.s
  {
    if v.JStr? then v.s else PyRepr(v)
  }

  /** A `repr` never comes out empty, so `str(v)` is empty only for "". */
  lemma PyStrEmpty(v: Json)
    ensures PyStr(v) == [] <==> v == JStr([])
  {
  }
}
