/**
 * Query strings and JSON text, as the browser produces them.
 *
 * `URLSearchParams` is an ordered list of name/value pairs; `toString` writes each
 * pair as `name=value` in the application/x-www-form-urlencoded byte serialisation
 * of the UTF-8 encoding, and joins the pairs with '&'. `encodeURIComponent` and
 * `JSON.stringify` are modelled on the same terms.
 */
module Query {
  import opened Base

  datatype Param = Param(key: string, value: string)

  // ---------------------------------------------------------------------------
  // UTF-8 and percent-encoding

  /** The UTF-8 bytes of one Unicode scalar value. */
  function Utf8(c: char): (r: seq<int>)
    ensures 1 <= |r| <= 4
    ensures forall i :: 0 <= i < |r| ==> 0 <= r[i] < 256
  {
    var cp := c as int;
    if cp < 0x80 then [cp]
    else if cp < 0x800 then [0xC0 + cp / 64, 0x80 + cp % 64]
    else if cp < 0x10000 then [0xE0 + cp / 4096, 0x80 + (cp / 64) % 64, 0x80 + cp % 64]
    else [0xF0 + cp / 262144, 0x80 + (cp / 4096) % 64, 0x80 + (cp / 64) % 64, 0x80 + cp % 64]
  }

  function HexDigit(d: int): char
    requires 0 <= d < 16
  {
    "0123456789ABCDEF"[d]
  }

  /** `%XX` with upper-case hexadecimal digits. */
  function PercentByte(b: int): (r: string)
    requires 0 <= b < 256
    ensures |r| == 3 && r[0] == '%'
  {
    ['%', HexDigit(b / 16), HexDigit(b % 16)]
  }

  predicate IsAlnum(c: char)
  {
    ('0' <= c <= '9') || ('A' <= c <= 'Z') || ('a' <= c <= 'z')
  }

  /** Bytes that the form-urlencoded serialiser leaves alone. */
  predicate FormSafeByte(b: int)
  {
    (0 <= b < 128 && IsAlnum(b as char)) || b == '*' as int || b == '-' as int || b == '.' as int || b == '_' as int
  }

  function FormEncodeByte(b: int): string
    requires 0 <= b < 256
  {
    if b == 0x20 then "+"
    else if FormSafeByte(b) then [b as char]
    else PercentByte(b)
  }

  function FormEncodeBytes(bs: seq<int>): string
    requires forall i :: 0 <= i < |bs| ==> 0 <= bs[i] < 256
  {
    if bs == [] then "" else FormEncodeByte(bs[0]) + FormEncodeBytes(bs[1..])
  }

  /** The application/x-www-form-urlencoded serialisation of one name or value. */
  function FormEncode(s: string): string
  {
    if s == [] then "" else FormEncodeBytes(Utf8(s[0])) + FormEncode(s[1..])
  }

  /** Characters the serialiser can emit: none of them is '&' or '='. */
  predicate FormOutputChar(c: char)
  {
    IsAlnum(c) || c == '*' || c == '-' || c == '.' || c == '_' || c == '+' || c == '%'
  }

  lemma {:induction false} FormEncodeBytesOutput(bs: seq<int>)
    requires forall i :: 0 <= i < |bs| ==> 0 <= bs[i] < 256
    ensures forall i :: 0 <= i < |FormEncodeBytes(bs)| ==> FormOutputChar(FormEncodeBytes(bs)[i])
  {
    if bs != [] {
      FormEncodeBytesOutput(bs[1..]);
      var head := FormEncodeByte(bs[0]);
      var tail := FormEncodeBytes(bs[1..]);
      var r := FormEncodeBytes(bs);
      assert r == head + tail;
      FormEncodeByteOutput(bs[0]);
      forall i | 0 <= i < |r| ensures FormOutputChar(r[i]) {
        if i < |head| {
          assert r[i] == head[i];
        } else {
          assert r[i] == tail[i - |head|];
        }
      }
    }
  }

  lemma FormEncodeByteOutput(b: int)
    requires 0 <= b < 256
    ensures forall i :: 0 <= i < |FormEncodeByte(b)| ==> FormOutputChar(FormEncodeByte(b)[i])
  {
    if b != 0x20 && !FormSafeByte(b) {
      HexDigitAlnum(b / 16);
      HexDigitAlnum(b % 16);
    }
  }

  lemma HexDigitAlnum(d: int)
    requires 0 <= d < 16
    ensures IsAlnum(HexDigit(d))
  {
    var digits := "0123456789ABCDEF";
    assert forall k :: 0 <= k < 16 ==> IsAlnum(digits[k]);
  }

  lemma {:induction false} FormEncodeOutput(s: string)
    ensures forall i :: 0 <= i < |FormEncode(s)| ==> FormOutputChar(FormEncode(s)[i])
  {
    if s != [] {
      FormEncodeBytesOutput(Utf8(s[0]));
      FormEncodeOutput(s[1..]);
    }
  }

  /** An encoded name or value never contains the pair separator '&'. */
  lemma FormEncodeNoAmpersand(s: string)
    ensures '&' !in FormEncode(s)
    ensures '=' !in FormEncode(s)
  {
    FormEncodeOutput(s);
  }

  /** Bytes that `encodeURIComponent` leaves alone. */
  predicate UriSafeByte(b: int)
  {
    (0 <= b < 128 && IsAlnum(b as char)) || b == '-' as int || b == '_' as int || b == '.' as int
    || b == '!' as int || b == '~' as int || b == '*' as int || b == '\'' as int
    || b == '(' as int || b == ')' as int
  }

  function UriEncodeBytes(bs: seq<int>): string
    requires forall i :: 0 <= i < |bs| ==> 0 <= bs[i] < 256
  {
    if bs == [] then ""
    else (if UriSafeByte(bs[0]) then [bs[0] as char] else PercentByte(bs[0])) + UriEncodeBytes(bs[1..])
  }

  /** `encodeURIComponent(s)` */
  function EncodeUriComponent(s: string): string
  {
    if s == [] then "" else UriEncodeBytes(Utf8(s[0])) + EncodeUriComponent(s[1..])
  }

  // ---------------------------------------------------------------------------
  // URLSearchParams

  /** A primitive parameter value and its `String(v)` / `v.toString()` text. */
  datatype Scalar = SStr(s: string) | SNum(n: int) | SBool(b: bool)

  function ScalarText(v: Scalar): string
  {
    match v
    case SStr(s) => s
    case SNum(n) => IntToString(n)
    case SBool(b) => if b then "true" else "false"
  }

  /** JavaScript truthiness of a primitive: '', 0 and false are falsy. */
  predicate TruthyScalar(v: Scalar)
  {
    match v
    case SStr(s) => s != ""
    case SNum(n) => n != 0
    case SBool(b) => b
  }

  function PairText(p: Param): string
  {
    FormEncode(p.key) + "=" + FormEncode(p.value)
  }

  function PairTexts(ps: seq<Param>): (r: seq<string>)
    ensures |r| == |ps|
    ensures forall i :: 0 <= i < |ps| ==> r[i] == PairText(ps[i])
  {
    if ps == [] then [] else [PairText(ps[0])] + PairTexts(ps[1..])
  }

  /** `params.toString()` */
  function Serialize(ps: seq<Param>): string
  {
    Join(PairTexts(ps), "&")
  }

  /** `qs ? path + '?' + qs : path`, the URL shape every resource client uses. */
  function WithQuery(path: string, ps: seq<Param>): string
  {
    var qs := Serialize(ps);
    if qs != "" then path + "?" + qs else path
  }

  /** The serialised query is empty exactly when there are no pairs. */
  lemma SerializeEmpty(ps: seq<Param>)
    ensures Serialize(ps) == "" <==> ps == []
  {
    if ps != [] {
      var t := PairTexts(ps);
      assert t[0] == PairText(ps[0]);
      assert |PairText(ps[0])| > 0;
      if |t| == 1 { assert Join(t, "&") == t[0]; }
      else { assert |Join(t, "&")| >= |t[0]|; }
    }
  }

  /** Without pairs the URL is the bare path; with pairs it is path, '?', query. */
  lemma WithQueryShape(path: string, ps: seq<Param>)
    ensures ps == [] ==> WithQuery(path, ps) == path
    ensures ps != [] ==> WithQuery(path, ps) == path + "?" + Serialize(ps)
  {
    SerializeEmpty(ps);
  }

  /** Splitting the serialised query on '&' gives back exactly the encoded pairs, in order. */
  lemma SerializeSplits(ps: seq<Param>)
    requires ps != []
    ensures Split(Serialize(ps), '&') == PairTexts(ps)
  {
    var t := PairTexts(ps);
    forall i | 0 <= i < |t| ensures '&' !in t[i] {
      FormEncodeNoAmpersand(ps[i].key);
      FormEncodeNoAmpersand(ps[i].value);
    }
    SplitJoin(t, '&');
  }

  // ---------------------------------------------------------------------------
  // JSON text

  datatype Json =
    | JNull
    | JBool(b: bool)
    | JNum(n: int)
    | JStr(s: string)
    | JArr(items: seq<Json>)
    | JObj(members: seq<(string, Json)>)

  /** JavaScript truthiness of a parsed JSON value. */
  predicate JsonTruthy(v: Json)
  {
    match v
    case JNull => false
    case JBool(b) => b
    case JNum(n) => n != 0
    case JStr(s) => s != ""
    case JArr(_) => true
    case JObj(_) => true
  }

  /** `v[name]` on a parsed value: the last member of that name, as `JSON.parse` keeps it. */
  function Member(v: Json, name: string): (r: Option<Json>)
    ensures r.Some? ==> v.JObj? && exists i :: 0 <= i < |v.members| && v.members[i] == (name, r.value)
  {
    if v.JObj? then MemberIn(v.members, name) else None
  }

  function MemberIn(ms: seq<(string, Json)>, name: string): (r: Option<Json>)
    ensures r.Some? ==> exists i :: 0 <= i < |ms| && ms[i] == (name, r.value)
    ensures r.None? ==> forall i :: 0 <= i < |ms| ==> ms[i].0 != name
  {
    if ms == [] then None
    else if ms[|ms| - 1].0 == name then Some(ms[|ms| - 1].1)
    else MemberIn(ms[..|ms| - 1], name)
  }

  /** `String(v)` of a parsed value, as a template literal or `join` renders it. */
  function ToText(v: Json): string
    decreases v, 1
  {
    match v
    case JNull => "null"
    case JBool(b) => if b then "true" else "false"
    case JNum(n) => IntToString(n)
    case JStr(s) => s
    case JArr(items) => Join(ItemTexts(v, items), ",")
    case JObj(_) => "[object Object]"
  }

  /** `Array.prototype.join` writes null elements as the empty string. */
  function ItemTexts(parent: Json, items: seq<Json>): (r: seq<string>)
    requires forall x :: x in items ==> x < parent
    ensures |r| == |items|
    decreases parent, 0, |items|
  {
    if items == [] then []
    else
      assert items[0] in items;
      assert forall x :: x in items[1..] ==> x in items;
      [if items[0] == JNull then "" else ToText(items[0])] + ItemTexts(parent, items[1..])
  }

  function JsonEscapeChar(c: char): string
  {
    if c == '"' then "\\\""
    else if c == '\\' then "\\\\"
    else if c == '\U{0008}' then "\\b"
    else if c == '\U{000C}' then "\\f"
    else if c == '\n' then "\\n"
    else if c == '\r' then "\\r"
    else if c == '\t' then "\\t"
    else if (c as int) < 0x20 then "\\u00" + [HexLower((c as int) / 16), HexLower((c as int) % 16)]
    else [c]
  }

  function HexLower(d: int): char
    requires 0 <= d < 16
  {
    "0123456789abcdef"[d]
  }

  function JsonEscape(s: string): string
  {
    if s == [] then "" else JsonEscapeChar(s[0]) + JsonEscape(s[1..])
  }

  /** A JSON string literal. */
  function JsonQuote(s: string): string
  {
    "\"" + JsonEscape(s) + "\""
  }

  /** `JSON.stringify(v)` without white space. */
  function Stringify(v: Json): string
    decreases v, 1
  {
    match v
    case JNull => "null"
    case JBool(b) => if b then "true" else "false"
    case JNum(n) => IntToString(n)
    case JStr(s) => JsonQuote(s)
    case JArr(items) => "[" + Join(StringifyItems(v, items), ",") + "]"
    case JObj(members) => "{" + Join(StringifyMembers(v, members), ",") + "}"
  }

  function StringifyItems(parent: Json, items: seq<Json>): (r: seq<string>)
    requires forall x :: x in items ==> x < parent
    ensures |r| == |items|
    decreases parent, 0, |items|
  {
    if items == [] then []
    else
      assert items[0] in items;
      assert forall x :: x in items[1..] ==> x in items;
      [Stringify(items[0])] + StringifyItems(parent, items[1..])
  }

  function StringifyMembers(parent: Json, members: seq<(string, Json)>): (r: seq<string>)
    requires forall m :: m in members ==> m.1 < parent
    ensures |r| == |members|
    decreases parent, 0, |members|
  {
    if members == [] then []
    else
      assert members[0] in members;
      [JsonQuote(members[0].0) + ":" + Stringify(members[0].1)] + StringifyMembers(parent, members[1..])
  }
}
