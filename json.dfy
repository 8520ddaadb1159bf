/** JSON values as the core receives and sends them: what `response.json()`
    and `JSON.parse` produce, what `JSON.stringify` writes, and the
    JavaScript truthiness of a value that may be `undefined`.

    Numbers are integers here: no part of the core computes with a fraction.
    An object keeps its members in order; looking a key up finds its last
    binding, as `JSON.parse` keeps the last of duplicate keys. */
module Json {
  import opened Wrappers
  import opened Text

  datatype Json =
    | Null
    | Bool(b: bool)
    | Number(n: int)
    | Str(s: string)
    | Array(items: seq<Json>)
    | Object(members: seq<(string, Json)>)

  /** The value bound to `key` in an object's members (the last binding),
      or `None` (`undefined`) when it has none. */
  function Lookup(members: seq<(string, Json)>, key: string): Option<Json>
  {
    if members == [] then None
    else if members[|members| - 1].0 == key then Some(members[|members| - 1].1)
    else Lookup(members[..|members| - 1], key)
  }

  /** A key is found exactly when some member binds it, and what is found
      is the value of the last such member. */
  lemma {:induction false} LookupFound(members: seq<(string, Json)>, key: string)
    ensures Lookup(members, key).None? <==> forall i :: 0 <= i < |members| ==> members[i].0 != key
    ensures Lookup(members, key).Some? ==>
      exists i :: 0 <= i < |members| && members[i] == (key, Lookup(members, key).value)
        && forall j :: i < j < |members| ==> members[j].0 != key
  {
    if members != [] && members[|members| - 1].0 != key {
      var front := members[..|members| - 1];
      LookupFound(front, key);
      if Lookup(members, key).Some? {
        var i :| 0 <= i < |front| && front[i] == (key, Lookup(front, key).value)
          && forall j :: i < j < |front| ==> front[j].0 != key;
        assert members[i] == front[i];
      }
    }
  }

  /** `value.key` on a parsed value: `undefined` unless it is an object
      binding the key. */
  function Member(value: Json, key: string): Option<Json>
  {
    if value.Object? then Lookup(value.members, key) else None
  }

  /** JavaScript truthiness of a value that may be `undefined` (`None`). */
  predicate Truthy(value: Option<Json>)
  {
    match value
    case None => false
    case Some(Null) => false
    case Some(Bool(b)) => b
    case Some(Number(n)) => n != 0
    case Some(Str(s)) => s != ""
    case Some(Array(_)) => true
    case Some(Object(_)) => true
  }

  /** The four hexadecimal digits JSON writes after `\u`. */
  function Hex4(n: nat): (r: string)
    requires n < 0x10000
    ensures |r| == 4
  {
    [HexDigit(n / 0x1000), HexDigit(n / 0x100 % 16), HexDigit(n / 16 % 16), HexDigit(n % 16)]
  }

  function HexDigit(d: nat): char
    requires d < 16
  {
    if d < 10 then DigitChar(d) else (('a' as int) + d - 10) as char
  }

  /** How `JSON.stringify` writes one character inside a string literal. */
  function EscapeChar(c: char): (r: string)
    ensures |r| >= 1
    ensures r[0] == '\\' <==> (c == '"' || c == '\\' || c < ' ')
    ensures r[0] != '\\' ==> r == [c]
  {
    if c == '"' then "\\\""
    else if c == '\\' then "\\\\"
    else if c == '\n' then "\\n"
    else if c == '\r' then "\\r"
    else if c == '\t' then "\\t"
    else if c == '\U{8}' then "\\b"
    else if c == '\U{C}' then "\\f"
    else if c < ' ' then "\\u" + Hex4(c as nat)
    else [c]
  }

  function EscapeString(s: string): string
  {
    if s == [] then "" else EscapeChar(s[0]) + EscapeString(s[1..])
  }

  /** `JSON.stringify(s)` for a string `s`: a quoted literal. */
  function Quote(s: string): (r: string)
    ensures |r| >= 2 && r[0] == '"' && r[|r| - 1] == '"'
  {
    "\"" + EscapeString(s) + "\""
  }

  /** Reads back the body of a string literal written by `EscapeString`. */
  function UnescapeString(t: string): Option<string>
  {
    if t == [] then Some("")
    else if t[0] != '\\' then
      match UnescapeString(t[1..])
      case Some(rest) => Some([t[0]] + rest)
      case None => None
    else if |t| >= 2 && t[1] in EscapeLetters then
      match UnescapeString(t[2..])
      case Some(rest) => Some([EscapeLetters[t[1]]] + rest)
      case None => None
    else if |t| >= 6 && t[1] == 'u' && IsHex4(t[2..6]) && (HexValue(t[2..6]) < 0xD800 || 0xE000 <= HexValue(t[2..6])) then
      match UnescapeString(t[6..])
      case Some(rest) => Some([HexValue(t[2..6]) as char] + rest)
      case None => None
    else None
  }

  const EscapeLetters: map<char, char> :=
    map['"' := '"', '\\' := '\\', 'n' := '\n', 'r' := '\r', 't' := '\t', 'b' := '\U{8}', 'f' := '\U{C}']

  predicate IsHexChar(c: char)
  {
    IsDigit(c) || 'a' <= c <= 'f'
  }

  predicate IsHex4(t: string)
  {
    |t| == 4 && forall i :: 0 <= i < 4 ==> IsHexChar(t[i])
  }

  function HexCharValue(c: char): nat
    requires IsHexChar(c)
  {
    if IsDigit(c) then DigitValue(c) else (c as int) - ('a' as int) + 10
  }

  function HexValue(t: string): (v: nat)
    requires IsHex4(t)
    ensures v < 0x10000
  {
    HexCharValue(t[0]) * 0x1000 + HexCharValue(t[1]) * 0x100 + HexCharValue(t[2]) * 16 + HexCharValue(t[3])
  }

  lemma HexDigitValue(d: nat)
    requires d < 16
    ensures IsHexChar(HexDigit(d)) && HexCharValue(HexDigit(d)) == d
  {
  }

  lemma Hex4Value(n: nat)
    requires n < 0x20
    ensures IsHex4(Hex4(n)) && HexValue(Hex4(n)) == n
  {
    HexDigitValue(n / 0x1000);
    HexDigitValue(n / 0x100 % 16);
    HexDigitValue(n / 16 % 16);
    HexDigitValue(n % 16);
  }

  /** Reading back one escaped character gives the character. */
  lemma UnescapeChar(c: char, rest: string)
    ensures UnescapeString(EscapeChar(c) + EscapeString(rest)) ==
            match UnescapeString(EscapeString(rest))
            case Some(r) => Some([c] + r)
            case None => None
  {
    var t := EscapeChar(c) + EscapeString(rest);
    var tail := EscapeString(rest);
    if c < ' ' && c != '\n' && c != '\r' && c != '\t' && c != '\U{8}' && c != '\U{C}' {
      Hex4Value(c as nat);
      assert t[1] == 'u' && t[2..6] == Hex4(c as nat) && t[6..] == tail;
      assert 'u' !in EscapeLetters;
    } else if |EscapeChar(c)| == 2 {
      assert t[2..] == tail;
    } else {
      assert t[1..] == tail;
    }
  }

  /** The string literal `Quote` writes reads back as the string. */
  lemma {:induction false} UnescapeEscape(s: string)
    ensures UnescapeString(EscapeString(s)) == Some(s)
  {
    if s != [] {
      UnescapeEscape(s[1..]);
      UnescapeChar(s[0], s[1..]);
      assert [s[0]] + s[1..] == s;
    }
  }

  /** Distinct strings are written as distinct literals. */
  lemma QuoteInjective(s: string, t: string)
    requires Quote(s) == Quote(t)
    ensures s == t
  {
    var qs := Quote(s);
    assert EscapeString(s) == qs[1..|qs| - 1];
    assert EscapeString(t) == qs[1..|qs| - 1];
    UnescapeEscape(s);
    UnescapeEscape(t);
  }

  /** `JSON.stringify` of an object whose members are all strings, with no
      white space: `{"k1":"v1","k2":"v2"}`. */
  function StringifyStringObject(members: seq<(string, string)>): (r: string)
    ensures |r| >= 2 && r[0] == '{' && r[|r| - 1] == '}'
  {
    "{" + Join(MemberTexts(members), ",") + "}"
  }

  /** One member of an object: the quoted key, a colon, the quoted value. */
  function MemberText(key: string, value: string): string
  {
    Quote(key) + ":" + Quote(value)
  }

  function MemberTexts(members: seq<(string, string)>): (r: seq<string>)
    ensures |r| == |members|
    ensures forall i :: 0 <= i < |members| ==> r[i] == MemberText(members[i].0, members[i].1)
  {
    if members == [] then []
    else [MemberText(members[0].0, members[0].1)] + MemberTexts(members[1..])
  }

  /** `JSON.stringify` of an array of already written values:
      `[v1,v2]`. */
  function StringifyArray(items: seq<string>): (r: string)
    ensures |r| >= 2 && r[0] == '[' && r[|r| - 1] == ']'
  {
    "[" + Join(items, ",") + "]"
  }
}
