/**
 Quoting a password for the cloud-init document, and a reader of double-quoted scalars on one line
 (sections 5.7 and 7.3.1 of YAML 1.2) that undoes it.
 */
module YamlScalar {
  import opened Prelude

  function EscapedChar(c: char): string {
    if c == '\\' then "\\\\" else if c == '"' then "\\\"" else [c]
  }

  function Escaped(s: string): string {
    if s == "" then "" else EscapedChar(s[0]) + Escaped(s[1..])
  }

  function YamlQuote(s: string): string {
    "\"" + Escaped(s) + "\""
  }

  // ----- the reader -----

  /** A character that may stand for itself inside double quotes. */
  predicate Bare(c: char) {
    c == '\t' || c >= ' '
  }

  function HexDigit(c: char): Option<nat> {
    if '0' <= c <= '9' then Some(c as int - '0' as int)
    else if 'a' <= c <= 'f' then Some(c as int - 'a' as int + 10)
    else if 'A' <= c <= 'F' then Some(c as int - 'A' as int + 10)
    else None
  }

  function HexNumber(digits: string): Option<nat> {
    if digits == "" then Some(0)
    else
      match (HexNumber(digits[..|digits| - 1]), HexDigit(digits[|digits| - 1]))
      case (Some(high), Some(low)) => Some(16 * high + low)
      case _ => None
  }

  function CodePoint(n: nat): Option<char> {
    if n < 0xD800 || 0xE000 <= n < 0x11_0000 then Some(n as char) else None
  }

  /** The escapes of one letter. */
  function Letter(c: char): Option<char> {
    match c
    case '0' => Some(0 as char)
    case 'a' => Some(7 as char)
    case 'b' => Some(8 as char)
    case 't' => Some('\t')
    case '\t' => Some('\t')
    case 'n' => Some('\n')
    case 'v' => Some(11 as char)
    case 'f' => Some(12 as char)
    case 'r' => Some('\r')
    case 'e' => Some(27 as char)
    case ' ' => Some(' ')
    case '"' => Some('"')
    case '/' => Some('/')
    case '\\' => Some('\\')
    case 'N' => Some(0x85 as char)
    case '_' => Some(0xA0 as char)
    case 'L' => Some(0x2028 as char)
    case 'P' => Some(0x2029 as char)
    case _ => None
  }

  function HexWidth(c: char): nat {
    if c == 'x' then 2 else if c == 'u' then 4 else if c == 'U' then 8 else 0
  }

  datatype Token = Token(value: char, width: nat)

  /** The escape at the front of the text, which starts with a backslash. */
  function Escape(text: string): (token: Option<Token>)
    requires text != ""
    ensures token.Some? ==> 1 <= token.value.width <= |text|
  {
    if |text| < 2 then None
    else
      var width := HexWidth(text[1]);
      if width == 0 then
        match Letter(text[1])
        case Some(c) => Some(Token(c, 2))
        case None => None
      else if |text| < 2 + width then None
      else
        match HexNumber(text[2..2 + width])
        case Some(n) => if CodePoint(n).Some? then Some(Token(CodePoint(n).value, 2 + width)) else None
        case None => None
  }

  datatype Scalar = Scalar(value: string, length: nat)

  function Front(text: string): (token: Option<Token>)
    requires text != ""
    ensures token.Some? ==> 1 <= token.value.width <= |text|
  {
    if text[0] == '\\' then Escape(text) else if Bare(text[0]) then Some(Token(text[0], 1)) else None
  }

  /** The scalar's text after its opening quote, up to and with the closing one. */
  function Body(text: string): Option<Scalar>
    decreases |text|
  {
    if text == "" then None
    else if text[0] == '"' then Some(Scalar("", 1))
    else
      var token := Front(text);
      if token.None? then None
      else
        match Body(text[token.value.width..])
        case Some(rest) => Some(Scalar([token.value.value] + rest.value, token.value.width + rest.length))
        case None => None
  }

  function ReadScalar(text: string): Option<Scalar> {
    if text == "" || text[0] != '"' then None
    else
      match Body(text[1..])
      case Some(body) => Some(Scalar(body.value, 1 + body.length))
      case None => None
  }

  // ----- quoting is undone by reading -----

  predicate OneLine(s: string) {
    forall i :: 0 <= i < |s| ==> Bare(s[i])
  }

  function Prefixed(c: char, width: nat, body: Option<Scalar>): Option<Scalar> {
    match body
    case Some(body) => Some(Scalar([c] + body.value, width + body.length))
    case None => None
  }

  lemma SimpleEscape(c: char, rest: string)
    requires c == '\\' || c == '"'
    ensures Escape("\\" + [c] + rest) == Some(Token(c, 2))
  {
    hide HexNumber;
    hide CodePoint;
  }

  lemma FrontOfEscaped(c: char, rest: string)
    requires Bare(c)
    ensures Front(EscapedChar(c) + rest) == Some(Token(c, |EscapedChar(c)|))
    ensures (EscapedChar(c) + rest)[0] != '"' && (EscapedChar(c) + rest)[|EscapedChar(c)|..] == rest
  {
    hide Escape;
    if c == '\\' || c == '"' {
      assert EscapedChar(c) + rest == "\\" + [c] + rest;
      SimpleEscape(c, rest);
    }
  }

  lemma FrontToken(c: char, rest: string)
    requires Bare(c)
    ensures Body(EscapedChar(c) + rest) == Prefixed(c, |EscapedChar(c)|, Body(rest))
  {
    hide Front;
    hide EscapedChar;
    FrontOfEscaped(c, rest);
  }

  lemma {:induction false} BodyReadsBack(s: string, rest: string)
    ensures OneLine(s) ==> Body(Escaped(s) + "\"" + rest) == Some(Scalar(s, |Escaped(s)| + 1))
    ensures !OneLine(s) ==> Body(Escaped(s) + "\"" + rest) == None
  {
    hide EscapedChar;
    hide Escape;
    var text := Escaped(s) + "\"" + rest;
    if s == "" {
      assert text == "\"" + rest;
    } else {
      var tail := Escaped(s[1..]) + "\"" + rest;
      assert text == EscapedChar(s[0]) + tail;
      assert s == [s[0]] + s[1..];
      if Bare(s[0]) {
        hide Body;
        BodyReadsBack(s[1..], rest);
        FrontToken(s[0], tail);
        assert OneLine(s) <==> OneLine(s[1..]);
      } else {
        NotBare(s[0]);
      }
    }
  }

  lemma NotBare(c: char)
    requires !Bare(c)
    ensures EscapedChar(c) == [c] && c != '"' && c != '\\'
  {
  }

  /** Reading what was quoted gives the string back and stops at the quoted text's own end, whatever
      follows; and exactly the strings with a control character other than tab cannot be read. */
  lemma QuoteReadsBack(s: string, rest: string)
    ensures OneLine(s) <==> ReadScalar(YamlQuote(s) + rest) == Some(Scalar(s, |YamlQuote(s)|))
    ensures !OneLine(s) <==> ReadScalar(YamlQuote(s) + rest) == None
  {
    hide Body;
    var text := YamlQuote(s) + rest;
    assert text[1..] == Escaped(s) + "\"" + rest;
    BodyReadsBack(s, rest);
  }

  /** So two passwords are never written alike, in whatever document. */
  lemma QuoteInjective(s: string, t: string, after: string, after': string)
    requires OneLine(s) && YamlQuote(s) + after == YamlQuote(t) + after'
    ensures s == t && after == after'
  {
    hide ReadScalar;
    QuoteReadsBack(s, after);
    QuoteReadsBack(t, after');
    assert (YamlQuote(s) + after)[|YamlQuote(s)|..] == after;
    assert (YamlQuote(t) + after')[|YamlQuote(t)|..] == after';
  }
}
