/**
 * The JSON text under which the history list is kept in the key-value store:
 * `JSON.stringify` of an array of strings, and the `JSON.parse` that reads it back.
 */
module Json {
  import opened Wrappers

  /** A lower-case hexadecimal digit, as `JSON.stringify` writes them in `\u00XX` escapes. */
  function HexDigit(n: nat): (c: char)
    requires n < 16
    ensures HexValue(c) == Some(n)
  {
    if n < 10 then ('0' as int + n) as char else ('a' as int + n - 10) as char
  }

  /** The value of a hexadecimal digit in either case, or `None` for any other character. */
  function HexValue(c: char): (r: Option<nat>)
    ensures r.Some? ==> r.value < 16
  {
    if '0' <= c <= '9' then Some(c as int - '0' as int)
    else if 'a' <= c <= 'f' then Some(c as int - 'a' as int + 10)
    else if 'A' <= c <= 'F' then Some(c as int - 'A' as int + 10)
    else None
  }

  /** How `JSON.stringify` writes one character inside a string literal. */
  function EscapeChar(c: char): (e: string)
    ensures 1 <= |e| <= 6
    ensures e == [c] <==> (c != '"' && c != '\\' && ' ' <= c)
    ensures e != [c] ==> 2 <= |e| && e[0] == '\\'
  {
    if c == '"' then "\\\""
    else if c == '\\' then "\\\\"
    else if c == '\U{8}' then "\\b"
    else if c == '\t' then "\\t"
    else if c == '\n' then "\\n"
    else if c == '\U{C}' then "\\f"
    else if c == '\r' then "\\r"
    else if c < ' ' then "\\u00" + [HexDigit(c as int / 16), HexDigit(c as int % 16)]
    else [c]
  }

  /** The characters of a string literal between its quotes. */
  function EscapeAll(s: string): string {
    if s == [] then [] else EscapeChar(s[0]) + EscapeAll(s[1..])
  }

  /** `JSON.stringify` of one string. */
  function Quote(s: string): string {
    "\"" + EscapeAll(s) + "\""
  }

  /** The comma-separated elements of an array literal. */
  function Elements(h: seq<string>): string {
    if h == [] then ""
    else if |h| == 1 then Quote(h[0])
    else Quote(h[0]) + "," + Elements(h[1..])
  }

  /** `JSON.stringify` of an array of strings. */
  function Stringify(h: seq<string>): (r: string)
    ensures |r| >= 2 && r[0] == '[' && r[|r| - 1] == ']'
    ensures r == "[]" <==> h == []
  {
    "[" + Elements(h) + "]"
  }

  /**
   * The escape sequence after a backslash: the character it stands for and how many
   * characters of `t` it takes. A `\u` escape naming a surrogate code unit is refused.
   */
  function Unescape(t: string): (r: Option<(char, nat)>)
    ensures r.Some? ==> 1 <= r.value.1 <= |t|
  {
    if t == [] then None
    else if t[0] == '"' then Some(('"', 1))
    else if t[0] == '\\' then Some(('\\', 1))
    else if t[0] == '/' then Some(('/', 1))
    else if t[0] == 'b' then Some(('\U{8}', 1))
    else if t[0] == 'f' then Some(('\U{C}', 1))
    else if t[0] == 'n' then Some(('\n', 1))
    else if t[0] == 'r' then Some(('\r', 1))
    else if t[0] == 't' then Some(('\t', 1))
    else if t[0] == 'u' && |t| >= 5 then
      match HexQuad(t[1..5])
      case None => None
      case Some(code) => if 0xD800 <= code < 0xE000 then None else Some((code as char, 5))
    else None
  }

  /** The value of four hexadecimal digits, below 0x10000, or `None` if any is not a digit. */
  function HexQuad(d: string): (r: Option<nat>)
    requires |d| == 4
    ensures r.Some? ==> r.value < 0x10000
  {
    match (HexValue(d[0]), HexValue(d[1]), HexValue(d[2]), HexValue(d[3]))
    case (Some(a), Some(b), Some(c), Some(e)) => Some(((a * 16 + b) * 16 + c) * 16 + e)
    case _ => None
  }

  /**
   * Reads the body of a string literal whose opening quote is already consumed:
   * the decoded string and what follows the closing quote.
   */
  function StringBody(t: string): (r: Option<(string, string)>)
    ensures r.Some? ==> |r.value.1| < |t|
  {
    if t == [] then None
    else if t[0] == '"' then Some(([], t[1..]))
    else if t[0] == '\\' then
      match Unescape(t[1..])
      case None => None
      case Some((c, n)) =>
        match StringBody(t[1 + n..])
        case None => None
        case Some((s, rest)) => Some(([c] + s, rest))
    else if t[0] < ' ' then None
    else
      match StringBody(t[1..])
      case None => None
      case Some((s, rest)) => Some(([t[0]] + s, rest))
  }

  /** Reads `"…","…",…]`: the strings of a non-empty array after its opening bracket. */
  function Items(t: string): (r: Option<seq<string>>)
    ensures r.Some? ==> r.value != []
    decreases |t|
  {
    if t == [] || t[0] != '"' then None
    else
      match StringBody(t[1..])
      case None => None
      case Some((s, rest)) =>
        if rest == "]" then Some([s])
        else if rest != [] && rest[0] == ',' then
          match Items(rest[1..])
          case None => None
          case Some(more) => Some([s] + more)
        else None
  }

  /** `JSON.parse` restricted to arrays of strings; `None` stands for the text being refused. */
  function Parse(s: string): (r: Option<seq<string>>)
    ensures r.Some? ==> s != [] && s[0] == '['
    ensures r == Some([]) <==> s == "[]"
  {
    if s == "[]" then Some([])
    else if s != [] && s[0] == '[' then Items(s[1..])
    else None
  }

  /** Decoding the escape `JSON.stringify` wrote for `c` gives `c` back, whatever follows it. */
  lemma StringBodyEscapeChar(c: char, rest: string)
    ensures EscapeChar(c)[0] == '\\' ==>
      Unescape(EscapeChar(c)[1..] + rest) == Some((c, |EscapeChar(c)| - 1))
  {
    var e := EscapeChar(c);
    if c < ' ' && c != '\U{8}' && c != '\t' && c != '\n' && c != '\U{C}' && c != '\r' {
      var t := e[1..] + rest;
      assert t[1..5] == ['0', '0', HexDigit(c as int / 16), HexDigit(c as int % 16)];
    }
  }

  /** Reading back an escaped string and its closing quote gives the string and what follows. */
  lemma {:induction false} StringBodyRoundTrip(s: string, rest: string)
    ensures StringBody(EscapeAll(s) + "\"" + rest) == Some((s, rest))
  {
    if s == [] {
      assert EscapeAll(s) + "\"" + rest == "\"" + rest;
    } else {
      var tail := EscapeAll(s[1..]) + "\"" + rest;
      assert EscapeAll(s) + "\"" + rest == EscapeChar(s[0]) + tail;
      StringBodyRoundTrip(s[1..], rest);
      StringBodyStep(s[0], tail, s[1..], rest);
      assert [s[0]] + s[1..] == s;
    }
  }

  /** One escaped character in front of a string body adds that character to what is read. */
  lemma StringBodyStep(c: char, tail: string, s: string, rest: string)
    requires StringBody(tail) == Some((s, rest))
    ensures StringBody(EscapeChar(c) + tail) == Some(([c] + s, rest))
  {
    var e := EscapeChar(c);
    var t := e + tail;
    if e[0] == '\\' {
      StringBodyEscapeChar(c, tail);
      assert t[1..] == e[1..] + tail;
      assert t[1 + (|e| - 1)..] == tail;
    } else {
      assert t[1..] == tail;
    }
  }

  /** Reading back the elements of a non-empty list and the closing bracket gives the list. */
  lemma {:induction false} ItemsRoundTrip(h: seq<string>)
    requires h != []
    ensures Items(Elements(h) + "]") == Some(h)
  {
    if |h| == 1 {
      ItemsRoundTripLast(h[0]);
      assert h == [h[0]];
    } else {
      ItemsRoundTrip(h[1..]);
      ItemsRoundTripCons(h[0], h[1..]);
      assert [h[0]] + h[1..] == h;
    }
  }

  /** The text of a one-element list, after its opening bracket, reads back as that list. */
  lemma ItemsRoundTripLast(s: string)
    ensures Items(Elements([s]) + "]") == Some([s])
  {
    var close := "]";
    var body := EscapeAll(s) + "\"" + close;
    var t := Elements([s]) + "]";
    assert Elements([s]) == Quote(s);
    assert t == "\"" + body;
    StringBodyRoundTrip(s, close);
    assert t[1..] == body;
    ItemsLast(t, s);
  }

  /** Prepending one element to a list whose text reads back also reads back. */
  lemma ItemsRoundTripCons(s: string, more: seq<string>)
    requires more != [] && Items(Elements(more) + "]") == Some(more)
    ensures Items(Elements([s] + more) + "]") == Some([s] + more)
  {
    var after := "," + (Elements(more) + "]");
    var t := Elements([s] + more) + "]";
    ElementsCons(s, more);
    StringBodyRoundTrip(s, after);
    ItemsStep(t, s, after, more);
  }

  /** The text of a list of two or more elements: the first one quoted, a comma, then the rest. */
  lemma ElementsCons(s: string, more: seq<string>)
    requires more != []
    ensures var t := Elements([s] + more) + "]";
      t != [] && t[0] == '"' && t[1..] == EscapeAll(s) + "\"" + ("," + (Elements(more) + "]"))
  {
    var h := [s] + more;
    assert h[0] == s && h[1..] == more;
    var e := EscapeAll(s);
    var rest := Elements(more) + "]";
    var body := e + "\"" + ("," + rest);
    calc {
      Elements(h) + "]";
      (Quote(s) + "," + Elements(more)) + "]";
      (("\"" + e + "\"") + "," + Elements(more)) + "]";
      { Regroup(e, Elements(more)); }
      "\"" + body;
    }
  }

  /** Regrouping the text of a quoted element followed by a comma and the rest. */
  lemma Regroup(e: string, m: string)
    ensures (("\"" + e + "\"") + "," + m) + "]" == "\"" + (e + "\"" + ("," + (m + "]")))
  {
  }

  /** The last step of `Items`: a string literal and the closing bracket. */
  lemma ItemsLast(t: string, s: string)
    requires t != [] && t[0] == '"'
    requires StringBody(t[1..]) == Some((s, "]"))
    ensures Items(t) == Some([s])
  {
  }

  /** One step of `Items`: a string literal, a comma, and the remaining elements. */
  lemma ItemsStep(t: string, s: string, after: string, more: seq<string>)
    requires t != [] && t[0] == '"'
    requires StringBody(t[1..]) == Some((s, after))
    requires after != [] && after[0] == ',' && Items(after[1..]) == Some(more)
    ensures Items(t) == Some([s] + more)
  {
  }

  /** Whatever list is stringified into the store is what parsing the store gives back. */
  lemma ParseStringify(h: seq<string>)
    ensures Parse(Stringify(h)) == Some(h)
  {
    var s := Stringify(h);
    if h != [] {
      ItemsRoundTrip(h);
      assert s[1..] == Elements(h) + "]";
      assert s[1] == '"';
    }
  }

  /** Two lists are stored as the same text only if they are the same list. */
  lemma StringifyInjective(a: seq<string>, b: seq<string>)
    ensures Stringify(a) == Stringify(b) ==> a == b
  {
    ParseStringify(a);
    ParseStringify(b);
  }
}
