/** The TOML string escaper of crates/codex-host-agent/src/lib.rs against the basic strings of
    section "String" of TOML v1.0.0. */
module TomlString {
  import opened Prelude

  /** `str::replace` with a character pattern. */
  function Replace(s: string, c: char, to: string): string {
    if s == [] then [] else (if s[0] == c then to else [s[0]]) + Replace(s[1..], c, to)
  }

  /** `toml_string`: three whole-string replacements, then quotes. */
  function Quote(value: string): string {
    "\"" + Replace(Replace(Replace(value, '\\', "\\\\"), '"', "\\\""), '\n', "\\n") + "\""
  }

  // ----- One-pass escaping ---------------------------------------------------------------------

  function EscapeChar(c: char): string {
    if c == '\\' then "\\\\" else if c == '"' then "\\\"" else if c == '\n' then "\\n" else [c]
  }

  function Escape(s: string): string {
    if s == [] then [] else EscapeChar(s[0]) + Escape(s[1..])
  }

  lemma {:induction false} ReplaceAppend(a: string, b: string, c: char, to: string)
    ensures Replace(a + b, c, to) == Replace(a, c, to) + Replace(b, c, to)
  {
    if a == [] {
      assert a + b == b;
    } else {
      ReplaceAppend(a[1..], b, c, to);
      var ab := a + b;
      assert ab[0] == a[0] && ab[1..] == a[1..] + b;
      var head := if a[0] == c then to else [a[0]];
      ConcatAssoc(head, Replace(a[1..], c, to), Replace(b, c, to));
    }
  }

  /** All three passes on what the first pass makes of one character. */
  lemma {:induction false} PassesOnChar(c: char)
    ensures Replace(Replace(Replace([c], '\\', "\\\\"), '"', "\\\""), '\n', "\\n") == EscapeChar(c)
  {
    assert [c][1..] == [];
    assert Replace([c], '\\', "\\\\") == if c == '\\' then "\\\\" else [c];
    if c == '\\' {
      assert "\\\\"[1..] == "\\" && "\\"[1..] == "";
      assert Replace("\\", '"', "\\\"") == "\\" && Replace("\\\\", '"', "\\\"") == "\\\\";
      assert Replace("\\", '\n', "\\n") == "\\" && Replace("\\\\", '\n', "\\n") == "\\\\";
    } else if c == '"' {
      assert Replace([c], '"', "\\\"") == "\\\"";
      assert "\\\""[1..] == "\"" && "\""[1..] == "";
      assert Replace("\"", '\n', "\\n") == "\"" && Replace("\\\"", '\n', "\\n") == "\\\"";
    } else {
      assert Replace([c], '"', "\\\"") == [c];
      assert Replace([c], '\n', "\\n") == if c == '\n' then "\\n" else [c];
    }
  }

  /** The three successive replacements equal one pass over the characters: no pass touches what
      an earlier one inserted. */
  lemma {:induction false} ThreePassesAreOne(s: string)
    ensures Replace(Replace(Replace(s, '\\', "\\\\"), '"', "\\\""), '\n', "\\n") == Escape(s)
  {
    if s != [] {
      var c, t := [s[0]], s[1..];
      assert s == c + t;
      var c1, t1 := Replace(c, '\\', "\\\\"), Replace(t, '\\', "\\\\");
      var c2, t2 := Replace(c1, '"', "\\\""), Replace(t1, '"', "\\\"");
      ReplaceAppend(c, t, '\\', "\\\\");
      ReplaceAppend(c1, t1, '"', "\\\"");
      ReplaceAppend(c2, t2, '\n', "\\n");
      PassesOnChar(s[0]);
      ThreePassesAreOne(t);
    }
  }

  // ----- Reading a basic string back ---------------------------------------------------------------

  /** Characters a basic string must not contain raw: controls other than tab, and delete. */
  predicate Forbidden(c: char) {
    (c < ' ' && c != '\t') || c == '\U{7f}'
  }

  /** The short escapes; `\uXXXX` and `\UXXXXXXXX` follow below. */
  function ShortEscape(c: char): Option<char> {
    if c == 'b' then Some('\U{8}')
    else if c == 't' then Some('\t')
    else if c == 'n' then Some('\n')
    else if c == 'f' then Some('\U{c}')
    else if c == 'r' then Some('\r')
    else if c == '"' then Some('"')
    else if c == '\\' then Some('\\')
    else None
  }

  function HexDigit(c: char): Option<nat> {
    if '0' <= c <= '9' then Some(c as int - '0' as int)
    else if 'a' <= c <= 'f' then Some(c as int - 'a' as int + 10)
    else if 'A' <= c <= 'F' then Some(c as int - 'A' as int + 10)
    else None
  }

  function HexValue(s: string): Option<nat> {
    if s == [] then Some(0)
    else match (HexValue(s[..|s| - 1]), HexDigit(s[|s| - 1]))
      case (Some(n), Some(d)) => Some(16 * n + d)
      case _ => None
  }

  function CodePoint(s: string): Option<char> {
    match HexValue(s)
    case Some(n) => if n < 0xD800 || 0xE000 <= n < 0x11_0000 then Some(n as char) else None
    case None => None
  }

  /** One escape sequence after its backslash: the character it denotes and its length. */
  function ReadEscape(s: string): Option<(char, nat)> {
    if s == [] then None
    else if ShortEscape(s[0]).Some? then Some((ShortEscape(s[0]).value, 1))
    else
      var n := if s[0] == 'u' then 4 else if s[0] == 'U' then 8 else 0;
      if n == 0 || |s| < n + 1 || CodePoint(s[1..n + 1]).None? then None
      else Some((CodePoint(s[1..n + 1]).value, n + 1))
  }

  /** Read up to the closing quote, which must end the text. With `strict`, raw control characters
      are rejected as the standard demands. */
  function ReadBody(s: string, strict: bool): Option<string>
    decreases |s|
  {
    if s == [] then None
    else if s[0] == '"' then if |s| == 1 then Some("") else None
    else if s[0] == '\\' then
      match ReadEscape(s[1..])
      case None => None
      case Some((c, n)) => if |s| < n + 1 then None else Prepend(c, ReadBody(s[n + 1..], strict))
    else if strict && Forbidden(s[0]) then None
    else Prepend(s[0], ReadBody(s[1..], strict))
  }

  function Prepend(c: char, rest: Option<string>): Option<string> {
    if rest.Some? then Some([c] + rest.value) else None
  }

  function Read(s: string, strict: bool): Option<string> {
    if s == [] || s[0] != '"' then None else ReadBody(s[1..], strict)
  }

  predicate Quotable(s: string) {
    forall i :: 0 <= i < |s| ==> s[i] == '\n' || !Forbidden(s[i])
  }

  /** Reading one escaped character. */
  lemma {:induction false} ReadOne(c: char, rest: string, strict: bool)
    ensures ReadBody(EscapeChar(c) + rest, strict) ==
            if strict && c != '\n' && Forbidden(c) then None else Prepend(c, ReadBody(rest, strict))
  {
    var text := EscapeChar(c) + rest;
    if c == '\\' || c == '"' || c == '\n' {
      assert text[0] == '\\' && text[2..] == rest;
      assert ReadEscape(text[1..]) == Some((c, 1));
    } else {
      assert text[0] == c && text[1..] == rest;
    }
  }

  lemma {:induction false} QuotableCons(s: string)
    requires s != []
    ensures Quotable(s) <==> (s[0] == '\n' || !Forbidden(s[0])) && Quotable(s[1..])
  {
    if Quotable(s) {
      forall i | 0 <= i < |s[1..]| ensures s[1..][i] == '\n' || !Forbidden(s[1..][i]) {
        assert s[1..][i] == s[i + 1];
      }
    }
  }

  lemma {:induction false} ReadEscaped(s: string, strict: bool)
    ensures ReadBody(Escape(s) + "\"", strict) == if strict && !Quotable(s) then None else Some(s)
  {
    if s == [] {
      assert Escape(s) + "\"" == "\"";
    } else {
      hide ReadBody, Quotable, EscapeChar;
      var rest := Escape(s[1..]) + "\"";
      assert Escape(s) + "\"" == EscapeChar(s[0]) + rest;
      ReadOne(s[0], rest, strict);
      ReadEscaped(s[1..], strict);
      QuotableCons(s);
      assert [s[0]] + s[1..] == s;
    }
  }

  /** Reading a quoted value gives back the value; under the standard's ban on raw control characters
      this holds exactly when the only one in the value is the newline, since the escaper leaves the
      others alone. */
  lemma {:induction false} QuoteRoundTrip(value: string)
    ensures Read(Quote(value), false) == Some(value)
    ensures Read(Quote(value), true) == if Quotable(value) then Some(value) else None
  {
    ThreePassesAreOne(value);
    var q := Quote(value);
    assert q[1..] == Escape(value) + "\"";
    ReadEscaped(value, false);
    ReadEscaped(value, true);
  }

  lemma {:induction false} QuoteInjective(a: string, b: string)
    requires Quote(a) == Quote(b)
    ensures a == b
  {
    QuoteRoundTrip(a);
    QuoteRoundTrip(b);
  }

  /** A carriage return is quoted into text that no TOML reader accepts. */
  lemma {:induction false} CarriageReturnIsLost()
    ensures Read(Quote("\r"), true) == None
  {
    QuoteRoundTrip("\r");
    assert "\r"[0] == '\r' && Forbidden('\r');
  }
}
