/** JSON values as `JSON.parse` produces them and `JSON.stringify` writes them. */
module Json {
  import opened Wrappers
  import Decimal

  /** A JSON value. Numbers are integers here (the service only writes integer ids).
      An object is the list of its members; `Stringify` writes them in list order, so the
      list stands for an object whose keys are distinct and already in JavaScript's
      property order. */
  datatype Value = Null | Bool(b: bool) | Num(n: int) | Str(s: string) | Arr(items: seq<Value>) | Obj(members: seq<Member>)

  datatype Member = Member(key: string, value: Value)

  /** Property read on an object: the value of the last member with the key (for a parsed
      text with a repeated key, `JSON.parse` keeps the last value). */
  function Get(members: seq<Member>, key: string): (r: Option<Value>)
    ensures r.None? <==> forall i :: 0 <= i < |members| ==> members[i].key != key
    ensures r.Some? ==> exists i :: 0 <= i < |members| && members[i] == Member(key, r.value)
                                    && forall j :: i < j < |members| ==> members[j].key != key
  {
    if members == [] then None
    else if members[|members| - 1].key == key then Some(members[|members| - 1].value)
    else Get(members[..|members| - 1], key)
  }

  const HexDigits := "0123456789abcdef"

  /** How `JSON.stringify` writes one character inside a string literal. */
  function EscapeChar(c: char): (r: string)
    ensures Plain(c) ==> r == [c]
    ensures !Plain(c) ==> 2 <= |r| <= 6 && r[0] == '\\'
  {
    if c == '"' then "\\\""
    else if c == '\\' then "\\\\"
    else if c == '\U{0008}' then "\\b"
    else if c == '\U{000C}' then "\\f"
    else if c == '\n' then "\\n"
    else if c == '\r' then "\\r"
    else if c == '\t' then "\\t"
    else if c < ' ' then "\\u00" + [HexDigits[c as int / 16], HexDigits[c as int % 16]]
    else [c]
  }

  /** A character that `JSON.stringify` copies unchanged into a string literal. */
  predicate Plain(c: char) {
    c >= ' ' && c != '"' && c != '\\'
  }

  /** The body of a string literal: every character written as `EscapeChar` writes it. */
  function Escape(s: string): (r: string)
    ensures |s| <= |r| <= 6 * |s|
  {
    if s == [] then [] else EscapeChar(s[0]) + Escape(s[1..])
  }

  /** A string literal: the escaped text between double quotes. */
  function Quote(s: string): (r: string)
    ensures |r| >= 2 && r[0] == '"' && r[|r| - 1] == '"'
  {
    "\"" + Escape(s) + "\""
  }

  /** Text without quotes, backslashes or control characters is written unchanged. */
  lemma {:induction false} EscapePlain(s: string)
    requires forall i :: 0 <= i < |s| ==> Plain(s[i])
    ensures Escape(s) == s
  {
    if s != [] {
      EscapePlain(s[1..]);
    }
  }

  /** Comma-separated concatenation. */
  function Join(parts: seq<string>): string {
    if parts == [] then ""
    else if |parts| == 1 then parts[0]
    else Join(parts[..|parts| - 1]) + "," + parts[|parts| - 1]
  }

  function ShowInt(n: int): string {
    if n < 0 then "-" + Decimal.Show(-n) else Decimal.Show(n)
  }

  /** `JSON.stringify(v)`: no whitespace, members in order. */
  function Stringify(v: Value): (r: string)
    ensures r != []
    ensures v.Obj? ==> r[0] == '{' && r[|r| - 1] == '}'
  {
    match v
    case Null => "null"
    case Bool(b) => if b then "true" else "false"
    case Num(n) => ShowInt(n)
    case Str(s) => Quote(s)
    case Arr(items) => "[" + Join(seq(|items|, i requires 0 <= i < |items| => Stringify(items[i]))) + "]"
    case Obj(ms) =>
      "{" + Join(seq(|ms|, i requires 0 <= i < |ms| => Quote(ms[i].key) + ":" + Stringify(ms[i].value))) + "}"
  }

  /** An object with one member is written as the quoted key, a colon and the value, in braces. */
  lemma StringifyOneMember(key: string, v: Value)
    ensures Stringify(Obj([Member(key, v)])) == "{" + Quote(key) + ":" + Stringify(v) + "}"
  {
    var ms := [Member(key, v)];
    var part := Quote(key) + ":" + Stringify(v);
    assert seq(|ms|, i requires 0 <= i < |ms| => Quote(ms[i].key) + ":" + Stringify(ms[i].value)) == [part];
    assert Join([part]) == part;
  }

  /** The key `error` is written without escapes. */
  lemma QuoteErrorKey()
    ensures Quote("error") == "\"error\""
  {
    EscapePlain("error");
  }

  /** The error envelope `{error: message}` is written as `{"error":` and the quoted message. */
  lemma ErrorEnvelopeText(message: string)
    ensures Stringify(Obj([Member("error", Str(message))])) == "{\"error\":" + Quote(message) + "}"
  {
    StringifyOneMember("error", Str(message));
    QuoteErrorKey();
    assert "{" + "\"error\"" + ":" == "{\"error\":";
  }
}
