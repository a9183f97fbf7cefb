/** `JSON.stringify` on the JSON values a request body may carry, and a
    parser for the compact text it produces. The parser is the partner that
    makes the serialisation checkable: every JSON value comes back from its
    own text, with the properties whose value is undefined dropped, exactly
    as `JSON.stringify` drops them. */
module Json {
  import opened Wrappers
  import opened Text
  import opened JsValues

  /** Values `Is.JsonArray` / `Is.JsonObject` accept all the way down: null,
      booleans, numbers, strings, arrays of JSON values and plain objects
      whose properties are JSON values or undefined (optional keys). */
  predicate IsJson(v: Value)
    decreases v
  {
    match v
    case VNull => true
    case VBool(_) => true
    case VInt(_) => true
    case VString(_) => true
    case VArray(items) => forall i | 0 <= i < |items| :: IsJson(items[i])
    case VObject(fields) =>
      forall i | 0 <= i < |fields| :: fields[i].1.VUndefined? || IsJson(fields[i].1)
    case _ => false
  }

  /** `Is.JsonArray(v)`. */
  predicate IsJsonArray(v: Value) { v.VArray? && IsJson(v) }

  /** `Is.JsonObject(v)`. */
  predicate IsJsonObject(v: Value) { v.VObject? && IsJson(v) }

  /** The JSON values a JSON text can denote: no undefined anywhere. */
  predicate IsJsonData(v: Value)
    decreases v
  {
    match v
    case VNull => true
    case VBool(_) => true
    case VInt(_) => true
    case VString(_) => true
    case VArray(items) => forall i | 0 <= i < |items| :: IsJsonData(items[i])
    case VObject(fields) => forall i | 0 <= i < |fields| :: IsJsonData(fields[i].1)
    case _ => false
  }

  function HexDigit(d: nat): char
    requires d < 16
  {
    "0123456789abcdef"[d]
  }

  function HexValue(c: char): (r: Option<nat>)
    ensures r.Some? ==> r.value < 16
  {
    if '0' <= c <= '9' then Some(c as int - '0' as int)
    else if 'a' <= c <= 'f' then Some(c as int - 'a' as int + 10)
    else if 'A' <= c <= 'F' then Some(c as int - 'A' as int + 10)
    else None
  }

  /** How `JSON.stringify` writes one character inside a string literal:
      the quote and the backslash escaped, the named control escapes, the
      other control characters as `\u00xx` with lower-case hex. */
  function EscapeChar(c: char): (e: string)
    ensures |e| >= 1
  {
    if c == '"' then "\\\""
    else if c == '\\' then "\\\\"
    else if c == 8 as char then "\\b"
    else if c == 12 as char then "\\f"
    else if c == '\n' then "\\n"
    else if c == '\r' then "\\r"
    else if c == '\t' then "\\t"
    else if c < ' ' then "\\u00" + [HexDigit(c as int / 16), HexDigit(c as int % 16)]
    else [c]
  }

  function Escape(s: string): string
    decreases |s|
  {
    if s == [] then "" else EscapeChar(s[0]) + Escape(s[1..])
  }

  /** `JSON.stringify` of a string. */
  function Quote(s: string): string {
    "\"" + Escape(s) + "\""
  }

  /** `JSON.stringify(v)` for a JSON value: compact, no whitespace. */
  function Stringify(v: Value): (s: string)
    requires IsJson(v)
    ensures s != []
    decreases v
  {
    match v
    case VNull => "null"
    case VBool(b) => if b then "true" else "false"
    case VInt(i) => IntToString(i)
    case VString(t) => Quote(t)
    case VArray(items) => "[" + Items(items) + "]"
    case VObject(fields) => "{" + Members(fields) + "}"
  }

  /** The items of an array, separated by commas. */
  function Items(items: seq<Value>): string
    requires forall i | 0 <= i < |items| :: IsJson(items[i])
    decreases items
  {
    if items == [] then ""
    else Stringify(items[0]) + (if |items| == 1 then "" else "," + Items(items[1..]))
  }

  function Member(field: (string, Value)): string
    requires IsJson(field.1)
    decreases field
  {
    Quote(field.0) + ":" + Stringify(field.1)
  }

  /** The members of an object, separated by commas; properties whose value
      is undefined are left out. */
  function Members(fields: seq<(string, Value)>): string
    requires forall i | 0 <= i < |fields| :: fields[i].1.VUndefined? || IsJson(fields[i].1)
    decreases fields
  {
    if fields == [] then ""
    else if fields[0].1.VUndefined? then Members(fields[1..])
    else
      var tail := Members(fields[1..]);
      Member(fields[0]) + (if tail == "" then "" else "," + tail)
  }

  /** The value a JSON value denotes once serialised: properties holding
      undefined removed at every depth. */
  function Prune(v: Value): Value
    requires IsJson(v)
    decreases v
  {
    match v
    case VArray(items) => VArray(PruneItems(items))
    case VObject(fields) => VObject(PruneFields(fields))
    case _ => v
  }

  function PruneItems(items: seq<Value>): (r: seq<Value>)
    requires forall i | 0 <= i < |items| :: IsJson(items[i])
    ensures |r| == |items|
    decreases items
  {
    if items == [] then [] else [Prune(items[0])] + PruneItems(items[1..])
  }

  function PruneField(field: (string, Value)): (string, Value)
    requires IsJson(field.1)
    decreases field
  {
    (field.0, Prune(field.1))
  }

  function PruneFields(fields: seq<(string, Value)>): seq<(string, Value)>
    requires forall i | 0 <= i < |fields| :: fields[i].1.VUndefined? || IsJson(fields[i].1)
    decreases fields
  {
    if fields == [] then []
    else if fields[0].1.VUndefined? then PruneFields(fields[1..])
    else [PruneField(fields[0])] + PruneFields(fields[1..])
  }

  // ---------------------------------------------------------------------
  // The parser of compact JSON text.

  /** One escape sequence at the head of `s` (which starts with a backslash):
      the character it stands for and the number of characters it takes.
      Surrogate code units are not characters here, so `\ud800`-style
      escapes are refused. */
  function ParseEscape(s: string): (r: Option<(char, nat)>)
    requires |s| >= 1 && s[0] == '\\'
    ensures r.Some? ==> 2 <= r.value.1 <= |s|
  {
    if |s| < 2 then None
    else if s[1] == '"' then Some(('"', 2))
    else if s[1] == '\\' then Some(('\\', 2))
    else if s[1] == '/' then Some(('/', 2))
    else if s[1] == 'b' then Some((8 as char, 2))
    else if s[1] == 'f' then Some((12 as char, 2))
    else if s[1] == 'n' then Some(('\n', 2))
    else if s[1] == 'r' then Some(('\r', 2))
    else if s[1] == 't' then Some(('\t', 2))
    else if s[1] == 'u' && |s| >= 6 then
      match (HexValue(s[2]), HexValue(s[3]), HexValue(s[4]), HexValue(s[5]))
      case (Some(a), Some(b), Some(c), Some(d)) =>
        var code := CodeUnit(a, b, c, d);
        if code < 0xD800 || 0xE000 <= code then Some((code as char, 6)) else None
      case _ => None
    else None
  }

  /** The UTF-16 code unit four hex digits spell. */
  function CodeUnit(a: nat, b: nat, c: nat, d: nat): (code: nat)
    requires a < 16 && b < 16 && c < 16 && d < 16
    ensures code < 0x10000
  {
    assert a * 16 + b < 256;
    assert (a * 16 + b) * 16 + c < 4096;
    ((a * 16 + b) * 16 + c) * 16 + d
  }

  /** The characters of a string literal up to its closing quote, and the
      text after that quote. */
  function ParseChars(s: string): (r: Option<(string, string)>)
    ensures r.Some? ==> |r.value.1| < |s|
    decreases |s|
  {
    if s == [] then None
    else if s[0] == '"' then Some(([], s[1..]))
    else if s[0] == '\\' then
      match ParseEscape(s)
      case None => None
      case Some((c, k)) =>
        match ParseChars(s[k..])
        case None => None
        case Some((t, rest)) => Some(([c] + t, rest))
    else if s[0] < ' ' then None
    else
      match ParseChars(s[1..])
      case None => None
      case Some((t, rest)) => Some(([s[0]] + t, rest))
  }

  /** Number of decimal digits at the head of `s`. */
  function DigitSpan(s: string): (n: nat)
    ensures n <= |s| && AllDigits(s[..n])
    ensures n < |s| ==> !IsDigit(s[n])
    decreases |s|
  {
    if s != [] && IsDigit(s[0]) then
      var n := 1 + DigitSpan(s[1..]);
      assert s[..n] == [s[0]] + s[1..][..n - 1];
      n
    else 0
  }

  /** An integer: an optional minus sign and as many digits as follow. */
  function ParseNumber(s: string): (r: Option<(Value, string)>)
    ensures r.Some? ==> |r.value.1| < |s|
  {
    if s != [] && s[0] == '-' then
      var n := DigitSpan(s[1..]);
      if n == 0 then None else Some((VInt(0 - DigitsValue(s[1..][..n])), s[1 + n..]))
    else
      var n := DigitSpan(s);
      if n == 0 then None else Some((VInt(DigitsValue(s[..n])), s[n..]))
  }

  /** One JSON value at the head of `s`, and the text after it. */
  function ParseValue(s: string): (r: Option<(Value, string)>)
    ensures r.Some? ==> |r.value.1| < |s|
    decreases |s|, 0
  {
    if s == [] then None
    else if s[0] == 'n' then (if StartsWith(s, "null") then Some((VNull, s[4..])) else None)
    else if s[0] == 't' then (if StartsWith(s, "true") then Some((VBool(true), s[4..])) else None)
    else if s[0] == 'f' then (if StartsWith(s, "false") then Some((VBool(false), s[5..])) else None)
    else if s[0] == '"' then
      match ParseChars(s[1..])
      case None => None
      case Some((t, rest)) => Some((VString(t), rest))
    else if s[0] == '[' then
      if |s| >= 2 && s[1] == ']' then Some((VArray([]), s[2..]))
      else
        match ParseItems(s[1..])
        case None => None
        case Some((items, rest)) => Some((VArray(items), rest))
    else if s[0] == '{' then
      if |s| >= 2 && s[1] == '}' then Some((VObject([]), s[2..]))
      else
        match ParseMembers(s[1..])
        case None => None
        case Some((fields, rest)) => Some((VObject(fields), rest))
    else ParseNumber(s)
  }

  /** Comma-separated values up to and including the closing bracket. */
  function ParseItems(s: string): (r: Option<(seq<Value>, string)>)
    ensures r.Some? ==> |r.value.1| < |s|
    decreases |s|, 1
  {
    match ParseValue(s)
    case None => None
    case Some((v, rest)) =>
      if rest != [] && rest[0] == ']' then Some(([v], rest[1..]))
      else if rest != [] && rest[0] == ',' then
        match ParseItems(rest[1..])
        case None => None
        case Some((vs, rest')) => Some(([v] + vs, rest'))
      else None
  }

  /** Comma-separated `"key":value` members up to and including the closing
      brace. */
  function ParseMembers(s: string): (r: Option<(seq<(string, Value)>, string)>)
    ensures r.Some? ==> |r.value.1| < |s|
    decreases |s|, 1
  {
    if s == [] || s[0] != '"' then None
    else
      match ParseChars(s[1..])
      case None => None
      case Some((k, afterKey)) =>
        if afterKey == [] || afterKey[0] != ':' then None
        else
          match ParseValue(afterKey[1..])
          case None => None
          case Some((v, rest)) =>
            if rest != [] && rest[0] == '}' then Some(([(k, v)], rest[1..]))
            else if rest != [] && rest[0] == ',' then
              match ParseMembers(rest[1..])
              case None => None
              case Some((fs, rest')) => Some(([(k, v)] + fs, rest'))
            else None
  }

  /** `JSON.parse` restricted to compact text: the whole input must be one value. */
  function Parse(s: string): Option<Value> {
    match ParseValue(s)
    case Some((v, rest)) => if rest == [] then Some(v) else None
    case None => None
  }

  // ---------------------------------------------------------------------
  // Round trip.

  /** Text that cannot continue a number. */
  predicate Delimited(rest: string) { rest == [] || !IsDigit(rest[0]) }

  lemma HexRoundTrip(d: nat)
    requires d < 16
    ensures HexValue(HexDigit(d)) == Some(d)
  {
  }

  /** Reading one escaped character back yields the character, and the
      parser goes on right after its escape. */
  lemma {:induction false} EscapeCharRoundTrip(c: char, t: string)
    ensures ParseChars(EscapeChar(c) + t) ==
      match ParseChars(t)
      case None => None
      case Some((u, rest)) => Some(([c] + u, rest))
  {
    var s := EscapeChar(c) + t;
    if c < ' ' && c != 8 as char && c != 12 as char && c != '\n' && c != '\r' && c != '\t' {
      ControlEscape(c, t);
      ParseCharsEscape(s, c, 6);
    } else if |EscapeChar(c)| == 2 {
      NamedEscape(c, t);
      ParseCharsEscape(s, c, 2);
    } else {
      assert EscapeChar(c) == [c];
      assert s[0] == c && s[1..] == t;
      ParseCharsPlain(s);
    }
  }

  /** A control character without a short escape is written `\u00xx`. */
  lemma ControlEscape(c: char, t: string)
    requires c < ' ' && c != 8 as char && c != 12 as char && c != '\n' && c != '\r' && c != '\t'
    ensures var s := EscapeChar(c) + t; |s| >= 6 && s[0] == '\\' && ParseEscape(s) == Some((c, 6)) && s[6..] == t
  {
    var s := EscapeChar(c) + t;
    var hi, lo := c as int / 16, c as int % 16;
    HexRoundTrip(hi);
    HexRoundTrip(lo);
    assert s[..6] == "\\u00" + [HexDigit(hi), HexDigit(lo)];
    assert HexValue(s[2]) == Some(0) && HexValue(s[3]) == Some(0);
  }

  /** The quote, the backslash and the named control characters take a
      two-character escape. */
  lemma NamedEscape(c: char, t: string)
    requires |EscapeChar(c)| == 2
    ensures var s := EscapeChar(c) + t; |s| >= 2 && s[0] == '\\' && ParseEscape(s) == Some((c, 2)) && s[2..] == t
  {
  }

  /** One step of `ParseChars` over an escape sequence. */
  lemma ParseCharsEscape(s: string, c: char, k: nat)
    requires |s| >= 1 && s[0] == '\\' && ParseEscape(s) == Some((c, k))
    ensures ParseChars(s) ==
      match ParseChars(s[k..])
      case None => None
      case Some((u, rest)) => Some(([c] + u, rest))
  {
  }

  /** One step of `ParseChars` over a character written as itself. */
  lemma ParseCharsPlain(s: string)
    requires s != [] && s[0] != '"' && s[0] != '\\' && s[0] >= ' '
    ensures ParseChars(s) ==
      match ParseChars(s[1..])
      case None => None
      case Some((u, rest)) => Some(([s[0]] + u, rest))
  {
  }

  lemma {:induction false} EscapeRoundTrip(s: string, rest: string)
    ensures ParseChars(Escape(s) + "\"" + rest) == Some((s, rest))
    decreases |s|
  {
    if s == [] {
      assert Escape(s) + "\"" + rest == "\"" + rest;
    } else {
      var t := Escape(s[1..]) + "\"" + rest;
      EscapeRoundTrip(s[1..], rest);
      EscapeCharRoundTrip(s[0], t);
      assert Escape(s) + "\"" + rest == EscapeChar(s[0]) + t;
      assert [s[0]] + s[1..] == s;
    }
  }

  lemma {:induction false} DigitSpanOf(d: string, rest: string)
    requires AllDigits(d) && Delimited(rest)
    ensures DigitSpan(d + rest) == |d|
    decreases |d|
  {
    if d != [] {
      assert (d + rest)[1..] == d[1..] + rest;
      DigitSpanOf(d[1..], rest);
    } else {
      assert d + rest == rest;
    }
  }

  lemma NatRoundTrip(d: string, n: nat, rest: string)
    requires d == NatToString(n) && Delimited(rest)
    ensures DigitSpan(d + rest) == |d| && (d + rest)[..|d|] == d && (d + rest)[|d|..] == rest
    ensures DigitsValue(d) == n
  {
    DigitSpanOf(d, rest);
    NatToStringValue(n);
  }

  lemma NumberRoundTrip(i: int, rest: string)
    requires Delimited(rest)
    ensures ParseNumber(IntToString(i) + rest) == Some((VInt(i), rest))
  {
    if i < 0 {
      var d := NatToString(-i);
      SignText(d, rest);
      NatRoundTrip(d, -i, rest);
    } else {
      var d := NatToString(i);
      NatRoundTrip(d, i, rest);
    }
  }

  /** The layout of a minus sign, digits and what follows them. */
  lemma SignText(d: string, rest: string)
    ensures var s := "-" + d + rest;
      s[0] == '-' && s[1..] == d + rest && s[1 + |d|..] == rest
  {
    var s := "-" + d + rest;
    assert s == "-" + (d + rest);
  }

  lemma ParseValueAtNumber(s: string)
    requires s != [] && (s[0] == '-' || IsDigit(s[0]))
    ensures ParseValue(s) == ParseNumber(s)
  {
  }

  lemma ParseValueAtString(s: string)
    requires s != [] && s[0] == '"'
    ensures ParseValue(s) ==
      match ParseChars(s[1..])
      case None => None
      case Some((t, rest)) => Some((VString(t), rest))
  {
  }

  lemma ParseValueAtArray(s: string)
    requires |s| >= 2 && s[0] == '[' && s[1] != ']'
    ensures ParseValue(s) ==
      match ParseItems(s[1..])
      case None => None
      case Some((items, rest)) => Some((VArray(items), rest))
  {
  }

  lemma ParseValueAtObject(s: string)
    requires |s| >= 2 && s[0] == '{' && s[1] != '}'
    ensures ParseValue(s) ==
      match ParseMembers(s[1..])
      case None => None
      case Some((fields, rest)) => Some((VObject(fields), rest))
  {
  }

  lemma {:induction false} MembersEmpty(fields: seq<(string, Value)>)
    requires forall i | 0 <= i < |fields| :: IsJsonData(fields[i].1) && IsJson(fields[i].1)
    ensures Members(fields) == "" <==> fields == []
  {
    if fields != [] {
      assert Member(fields[0])[0] == '"';
    }
  }

  /** Lemma: IsJsonData values are JSON values. */
  lemma {:induction false} DataIsJson(v: Value)
    requires IsJsonData(v)
    ensures IsJson(v)
    decreases v
  {
    match v
    case VArray(items) =>
      forall i | 0 <= i < |items| ensures IsJson(items[i]) { DataIsJson(items[i]); }
    case VObject(fields) =>
      forall i | 0 <= i < |fields| ensures IsJson(fields[i].1) {
        assert fields[i] in fields;
        DataIsJson(fields[i].1);
      }
    case _ =>
  }

  /** The parser reads back every JSON value from its serialisation, leaving
      the text that follows untouched. */
  lemma {:induction false} ValueRoundTrip(v: Value, rest: string)
    requires IsJsonData(v) && IsJson(v) && Delimited(rest)
    ensures ParseValue(Stringify(v) + rest) == Some((v, rest))
    decreases v, 2
  {
    match v
    case VNull => LiteralRoundTrip("null", VNull, rest);
    case VBool(b) =>
      if b { LiteralRoundTrip("true", v, rest); } else { LiteralRoundTrip("false", v, rest); }
    case VInt(i) => IntValueRoundTrip(i, rest);
    case VString(t) => StringValueRoundTrip(t, rest);
    case VArray(items) => ArrayRoundTrip(v, rest);
    case VObject(fields) => ObjectRoundTrip(v, rest);
  }

  /** `null`, `true` and `false` read back. */
  lemma LiteralRoundTrip(lit: string, v: Value, rest: string)
    requires (lit, v) in {("null", VNull), ("true", VBool(true)), ("false", VBool(false))}
    ensures ParseValue(lit + rest) == Some((v, rest))
  {
    LiteralText(lit, rest);
  }

  /** The layout of a literal followed by more text. */
  lemma LiteralText(lit: string, rest: string)
    requires lit != []
    ensures var s := lit + rest; s != [] && s[0] == lit[0] && StartsWith(s, lit) && s[|lit|..] == rest
  {
  }

  lemma IntValueRoundTrip(i: int, rest: string)
    requires Delimited(rest)
    ensures ParseValue(IntToString(i) + rest) == Some((VInt(i), rest))
  {
    var s := IntToString(i) + rest;
    NumberRoundTrip(i, rest);
    assert s[0] == '-' || IsDigit(s[0]);
    ParseValueAtNumber(s);
  }

  lemma StringValueRoundTrip(t: string, rest: string)
    ensures ParseValue(Quote(t) + rest) == Some((VString(t), rest))
  {
    var s := Quote(t) + rest;
    EscapeRoundTrip(t, rest);
    OpenText("\"", Escape(t), "\"", rest);
    ParseValueAtString(s);
  }

  /** The layout of an opening character, a body, a closing character and
      what follows. */
  lemma OpenText(open: string, x: string, close: string, rest: string)
    requires |open| == 1 && |close| == 1
    ensures var s := open + x + close + rest;
      s[0] == open[0] && s[1..] == x + close + rest &&
      (x == [] ==> |s| >= 2 && s[1] == close[0] && s[2..] == rest) &&
      (x != [] ==> s[1] == x[0])
  {
    var s := open + x + close + rest;
    assert s == open + (x + close + rest);
  }

  lemma {:induction false} ArrayRoundTrip(v: Value, rest: string)
    requires v.VArray? && IsJsonData(v) && IsJson(v)
    ensures ParseValue(Stringify(v) + rest) == Some((v, rest))
    decreases v, 1
  {
    var s := Stringify(v) + rest;
    var items := v.items;
    OpenText("[", Items(items), "]", rest);
    if items != [] {
      ItemsRoundTrip(items, rest);
      ItemsHead(items);
      FirstChar(items[0]);
      ParseValueAtArray(s);
    }
  }

  /** The items text starts with the first item's text. */
  lemma ItemsHead(items: seq<Value>)
    requires items != [] && forall i | 0 <= i < |items| :: IsJson(items[i])
    ensures Items(items) != [] && Items(items)[0] == Stringify(items[0])[0]
  {
  }

  lemma {:induction false} ObjectRoundTrip(v: Value, rest: string)
    requires v.VObject? && IsJsonData(v) && IsJson(v)
    ensures ParseValue(Stringify(v) + rest) == Some((v, rest))
    decreases v, 1
  {
    var fields := v.fields;
    assert forall i | 0 <= i < |fields| :: IsJsonData(fields[i].1) && IsJson(fields[i].1);
    var s := Stringify(v) + rest;
    OpenText("{", Members(fields), "}", rest);
    if fields == [] {
      assert Members(fields) == [];
    } else {
      MembersRoundTrip(fields, rest);
      MembersCons(fields);
      ParseValueAtObject(s);
    }
  }

  /** A serialised value never starts with a closing bracket. */
  lemma FirstChar(v: Value)
    requires IsJson(v)
    ensures Stringify(v)[0] != ']'
  {
    if v.VInt? && v.i < 0 {
      assert Stringify(v)[0] == '-';
    }
  }

  lemma {:induction false} ItemsRoundTrip(items: seq<Value>, rest: string)
    requires items != []
    requires forall i | 0 <= i < |items| :: IsJsonData(items[i]) && IsJson(items[i])
    ensures ParseItems(Items(items) + "]" + rest) == Some((items, rest))
    decreases items
  {
    var head := Stringify(items[0]);
    if |items| == 1 {
      assert Items(items) == head;
      CloseText(head, "]", rest);
      ValueRoundTrip(items[0], "]" + rest);
      ParseItemsStep(head + ("]" + rest), items[0], "]" + rest);
      assert [items[0]] == items;
    } else {
      var x := Items(items[1..]);
      assert Items(items) == head + ("," + x);
      CommaText(head, x, "]", rest);
      ValueRoundTrip(items[0], "," + (x + "]" + rest));
      ItemsRoundTrip(items[1..], rest);
      ParseItemsStep(head + ("," + (x + "]" + rest)), items[0], "," + (x + "]" + rest));
      HeadTail(items);
    }
  }

  lemma HeadTail<T>(s: seq<T>)
    requires s != []
    ensures [s[0]] + s[1..] == s
  {
  }

  /** One step of `ParseItems`: a value read, then a bracket or a comma. */
  lemma ParseItemsStep(s: string, v: Value, rest: string)
    requires ParseValue(s) == Some((v, rest))
    ensures ParseItems(s) ==
      if rest != [] && rest[0] == ']' then Some(([v], rest[1..]))
      else if rest != [] && rest[0] == ',' then
        match ParseItems(rest[1..])
        case None => None
        case Some((vs, rest')) => Some(([v] + vs, rest'))
      else None
  {
  }

  /** The layout of the last element, its closing character and what follows. */
  lemma CloseText(h: string, close: string, rest: string)
    requires |close| == 1
    ensures h + close + rest == h + (close + rest)
    ensures var a := close + rest; a[0] == close[0] && a[1..] == rest
  {
  }

  /** The layout of an element, a comma, the other elements, the closing
      character and what follows. */
  lemma CommaText(h: string, x: string, close: string, rest: string)
    ensures h + ("," + x) + close + rest == h + ("," + (x + close + rest))
    ensures var a := "," + (x + close + rest); a[0] == ',' && a[1..] == x + close + rest
  {
    assert h + ("," + x) + close + rest == h + ("," + (x + close + rest));
  }

  lemma MembersCons(fields: seq<(string, Value)>)
    requires fields != []
    requires forall i | 0 <= i < |fields| :: IsJsonData(fields[i].1) && IsJson(fields[i].1)
    ensures Members(fields) ==
      Member(fields[0]) + (if |fields| == 1 then "" else "," + Members(fields[1..]))
    ensures Members(fields)[0] == '"'
  {
    MembersEmpty(fields[1..]);
  }

  lemma {:induction false} MembersRoundTrip(fields: seq<(string, Value)>, rest: string)
    requires fields != []
    requires forall i | 0 <= i < |fields| :: IsJsonData(fields[i].1) && IsJson(fields[i].1)
    ensures ParseMembers(Members(fields) + "}" + rest) == Some((fields, rest))
    decreases fields, 1
  {
    var f := fields[0];
    var head := Member(f);
    MembersCons(fields);
    if |fields| == 1 {
      assert Members(fields) == head;
      CloseText(head, "}", rest);
      MemberHead(f, "}" + rest);
      assert [f] == fields;
    } else {
      var x := Members(fields[1..]);
      CommaText(head, x, "}", rest);
      MemberHead(f, "," + (x + "}" + rest));
      MembersRoundTrip(fields[1..], rest);
      HeadTail(fields);
    }
  }

  /** Reading one member: its key, the colon and its value, leaving what follows. */
  lemma {:induction false} MemberHead(f: (string, Value), after: string)
    requires IsJsonData(f.1) && IsJson(f.1) && Delimited(after)
    ensures ParseMembers(Member(f) + after) ==
      if after != [] && after[0] == '}' then Some(([f], after[1..]))
      else if after != [] && after[0] == ',' then
        match ParseMembers(after[1..])
        case None => None
        case Some((fs, rest')) => Some(([f] + fs, rest'))
      else None
    decreases f, 0
  {
    var afterKey := ":" + (Stringify(f.1) + after);
    MemberText(f, after);
    EscapeRoundTrip(f.0, afterKey);
    ValueRoundTrip(f.1, after);
    ParseMembersStep(Member(f) + after, f.0, afterKey, f.1, after);
  }

  /** The layout of a member followed by more text. */
  lemma MemberText(f: (string, Value), after: string)
    requires IsJson(f.1)
    ensures var s := Member(f) + after;
      s != [] && s[0] == '"' && s[1..] == Escape(f.0) + "\"" + (":" + (Stringify(f.1) + after))
  {
    Regroup(Escape(f.0), Stringify(f.1), after);
  }

  /** Regrouping a quoted key, a colon, a value and what follows. */
  lemma Regroup(e: string, j: string, after: string)
    ensures var s := "\"" + e + "\"" + ":" + j + after;
      s != [] && s[0] == '"' && s[1..] == e + "\"" + (":" + (j + after))
  {
    var s := "\"" + e + "\"" + ":" + j + after;
    assert s == "\"" + (e + "\"" + (":" + (j + after)));
  }

  /** One step of `ParseMembers`: a key, a colon and a value read in turn. */
  lemma ParseMembersStep(s: string, k: string, afterKey: string, v: Value, rest: string)
    requires s != [] && s[0] == '"' && ParseChars(s[1..]) == Some((k, afterKey))
    requires afterKey != [] && afterKey[0] == ':' && ParseValue(afterKey[1..]) == Some((v, rest))
    ensures ParseMembers(s) ==
      if rest != [] && rest[0] == '}' then Some(([(k, v)], rest[1..]))
      else if rest != [] && rest[0] == ',' then
        match ParseMembers(rest[1..])
        case None => None
        case Some((fs, rest')) => Some(([(k, v)] + fs, rest'))
      else None
  {
  }

  /** Serialising a JSON value gives the same text as serialising its pruned
      form, and the pruned form has no undefined left. */
  lemma {:induction false} PruneSpec(v: Value)
    requires IsJson(v)
    ensures IsJsonData(Prune(v)) && IsJson(Prune(v))
    ensures Stringify(Prune(v)) == Stringify(v)
    decreases v, 1
  {
    match v
    case VArray(items) => PruneItemsSpec(items);
    case VObject(fields) => PruneFieldsSpec(fields);
    case _ =>
  }

  lemma {:induction false} PruneItemsSpec(items: seq<Value>)
    requires forall i | 0 <= i < |items| :: IsJson(items[i])
    ensures forall i | 0 <= i < |items| ::
      IsJsonData(PruneItems(items)[i]) && IsJson(PruneItems(items)[i])
    ensures Items(PruneItems(items)) == Items(items)
    decreases items
  {
    if items != [] {
      PruneSpec(items[0]);
      PruneItemsSpec(items[1..]);
      var r := PruneItems(items);
      assert r[0] == Prune(items[0]) && r[1..] == PruneItems(items[1..]);
      forall i | 0 <= i < |r| ensures IsJsonData(r[i]) && IsJson(r[i]) {
        if i > 0 { assert r[i] == r[1..][i - 1]; }
      }
    }
  }

  lemma {:induction false} PruneFieldsSpec(fields: seq<(string, Value)>)
    requires forall i | 0 <= i < |fields| :: fields[i].1.VUndefined? || IsJson(fields[i].1)
    ensures forall i | 0 <= i < |PruneFields(fields)| ::
      IsJsonData(PruneFields(fields)[i].1) && IsJson(PruneFields(fields)[i].1)
    ensures Members(PruneFields(fields)) == Members(fields)
    decreases fields
  {
    if fields != [] {
      PruneFieldsSpec(fields[1..]);
      if !fields[0].1.VUndefined? {
        PruneFieldSpec(fields[0]);
        var r := PruneFields(fields);
        assert r[0] == PruneField(fields[0]) && r[1..] == PruneFields(fields[1..]);
        forall i | 0 <= i < |r| ensures IsJsonData(r[i].1) && IsJson(r[i].1) {
          if i > 0 { assert r[i] == r[1..][i - 1]; }
        }
      }
    }
  }

  lemma {:induction false} PruneFieldSpec(field: (string, Value))
    requires IsJson(field.1)
    ensures IsJsonData(PruneField(field).1) && IsJson(PruneField(field).1)
    ensures Member(PruneField(field)) == Member(field)
    decreases field
  {
    PruneSpec(field.1);
  }

  /** `JSON.parse(JSON.stringify(v))` gives back `v` without its undefined
      properties; for values with none it is `v` itself. */
  lemma StringifyRoundTrip(v: Value)
    requires IsJson(v)
    ensures Parse(Stringify(v)) == Some(Prune(v))
    ensures IsJsonData(v) ==> Prune(v) == v
  {
    PruneSpec(v);
    ValueRoundTrip(Prune(v), "");
    assert Stringify(Prune(v)) + "" == Stringify(v);
    if IsJsonData(v) { PruneIdentity(v); }
  }

  lemma {:induction false} PruneIdentity(v: Value)
    requires IsJson(v) && IsJsonData(v)
    ensures Prune(v) == v
    decreases v, 1
  {
    match v
    case VArray(items) => PruneItemsIdentity(items);
    case VObject(fields) => PruneFieldsIdentity(fields);
    case _ =>
  }

  lemma {:induction false} PruneItemsIdentity(items: seq<Value>)
    requires forall i | 0 <= i < |items| :: IsJson(items[i]) && IsJsonData(items[i])
    ensures PruneItems(items) == items
    decreases items
  {
    if items != [] {
      PruneIdentity(items[0]);
      PruneItemsIdentity(items[1..]);
      HeadTail(items);
    }
  }

  lemma {:induction false} PruneFieldsIdentity(fields: seq<(string, Value)>)
    requires forall i | 0 <= i < |fields| :: IsJson(fields[i].1) && IsJsonData(fields[i].1)
    ensures PruneFields(fields) == fields
    decreases fields
  {
    if fields != [] {
      PruneFieldIdentity(fields[0]);
      PruneFieldsIdentity(fields[1..]);
      assert [fields[0]] + fields[1..] == fields;
    }
  }

  lemma {:induction false} PruneFieldIdentity(field: (string, Value))
    requires IsJson(field.1) && IsJsonData(field.1)
    ensures PruneField(field) == field
    decreases field
  {
    PruneIdentity(field.1);
  }
}
