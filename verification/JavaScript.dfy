/** Quoting a string for JavaScript, a reader for double-quoted literals (ECMA-262, section 12.9.4), and a
    scanner that splits a script into its code and the values of its string literals. */
module JavaScript {
  import opened Wrappers

  function EscapeChar(c: char): string {
    match c
    case '\\' => "\\\\"
    case '"' => "\\\""
    case '\n' => "\\n"
    case '\r' => "\\r"
    case _ => [c]
  }

  function Escape(s: string): string {
    if s == "" then "" else EscapeChar(s[0]) + Escape(s[1..])
  }

  function Quote(s: string): string {
    "\"" + Escape(s) + "\""
  }

  /** The LineTerminatorSequence characters that a backslash continues a literal over. */
  predicate IsLineTerminator(c: char) {
    c == '\n' || c == '\r' || c == '\U{2028}' || c == '\U{2029}'
  }

  /** What a backslash followed by `c` denotes. Numeric and Unicode escapes are refused. */
  function Unescape(c: char): Option<string> {
    if IsLineTerminator(c) then Some("")
    else if '0' <= c <= '9' || c == 'x' || c == 'u' then None
    else Some(match c
      case 'b' => "\U{0008}"
      case 't' => "\t"
      case 'n' => "\n"
      case 'v' => "\U{000B}"
      case 'f' => "\U{000C}"
      case 'r' => "\r"
      case _ => [c])
  }

  /** The escapes of ECMA-262 by their code points: single characters, and line breaks, which a literal continues over;
      digits, x and u begin escapes that are refused. */
  lemma SingleEscapes(digit: char)
    requires '0' <= digit <= '9'
    ensures Unescape('b') == Some([8 as char]) && Unescape('t') == Some([9 as char])
    ensures Unescape('n') == Some([10 as char]) && Unescape('v') == Some([11 as char])
    ensures Unescape('f') == Some([12 as char]) && Unescape('r') == Some([13 as char])
    ensures Unescape(10 as char) == Some("") && Unescape(13 as char) == Some("")
    ensures Unescape(0x2028 as char) == Some("") && Unescape(0x2029 as char) == Some("")
    ensures Unescape(digit) == None && Unescape('x') == None && Unescape('u') == None
  {
  }

  /** Reads a literal from just after its opening quote: its value, and what follows the closing quote. */
  function ReadLiteral(s: string): (r: Option<(string, string)>)
    ensures r.Some? ==> |r.value.1| < |s|
  {
    if s == "" || s[0] == '\n' || s[0] == '\r' then None
    else if s[0] == '"' then Some(("", s[1..]))
    else if s[0] == '\\' then
      if |s| == 1 then None
      else
        var c :- Unescape(s[1]);
        var next := if s[1] == '\r' && |s| > 2 && s[2] == '\n' then s[3..] else s[2..];
        var (value, rest) :- ReadLiteral(next);
        Some((c + value, rest))
    else
      var (value, rest) :- ReadLiteral(s[1..]);
      Some(([s[0]] + value, rest))
  }

  /** Every string, line breaks and quotes included, survives quoting. */
  lemma {:induction false} ReadEscaped(s: string, rest: string)
    ensures ReadLiteral(Escape(s) + "\"" + rest) == Some((s, rest))
  {
    if s == "" {
      assert Escape(s) + "\"" + rest == "\"" + rest;
      assert ("\"" + rest)[1..] == rest;
    } else {
      var tail := Escape(s[1..]) + "\"" + rest;
      ReadEscaped(s[1..], rest);
      ReadOneChar(s[0], tail);
      assert Escape(s) + "\"" + rest == EscapeChar(s[0]) + tail;
      assert s == [s[0]] + s[1..];
    }
  }

  predicate IsPlain(c: char) {
    c != '\\' && c != '"' && c != '\n' && c != '\r'
  }

  lemma ReadPlain(c: char, tail: string)
    requires IsPlain(c) && ReadLiteral(tail).Some?
    ensures ReadLiteral([c] + tail) == Some(([c] + ReadLiteral(tail).value.0, ReadLiteral(tail).value.1))
  {
    assert ([c] + tail)[1..] == tail;
  }

  lemma ReadPair(d: char, v: string, tail: string)
    requires Unescape(d) == Some(v) && d != '\r' && ReadLiteral(tail).Some?
    ensures ReadLiteral(['\\', d] + tail) == Some((v + ReadLiteral(tail).value.0, ReadLiteral(tail).value.1))
  {
    var whole := ['\\', d] + tail;
    assert whole[0] == '\\' && whole[1] == d && whole[2..] == tail;
  }

  /** An escape is a backslash and the letter that denotes the character. */
  function Letter(c: char): (d: char)
    requires !IsPlain(c)
    ensures EscapeChar(c) == ['\\', d] && Unescape(d) == Some([c]) && d != '\r'
  {
    match c
    case '\n' => 'n'
    case '\r' => 'r'
    case _ => c
  }

  lemma ReadOneChar(c: char, tail: string)
    requires ReadLiteral(tail).Some?
    ensures ReadLiteral(EscapeChar(c) + tail) == Some(([c] + ReadLiteral(tail).value.0, ReadLiteral(tail).value.1))
  {
    if IsPlain(c) {
      ReadPlain(c, tail);
    } else {
      ReadPair(Letter(c), [c], tail);
    }
  }

  datatype Token = Code(c: char) | Str(value: string)

  /** Code the scanner understands: no comment, regular expression, template or single-quoted literal
      can begin in it. */
  predicate IsPlainCode(c: char) {
    c != '"' && c != '\'' && c != '`' && c != '/' && c != '\\'
  }

  function Codes(text: string): seq<Token> {
    seq(|text|, i requires 0 <= i < |text| => Code(text[i]))
  }

  function Scan(js: string): Option<seq<Token>>
    decreases |js|
  {
    if js == "" then Some([])
    else if js[0] == '"' then
      var (value, rest) :- ReadLiteral(js[1..]);
      var tokens :- Scan(rest);
      Some([Str(value)] + tokens)
    else if IsPlainCode(js[0]) then
      var tokens :- Scan(js[1..]);
      Some([Code(js[0])] + tokens)
    else None
  }

  lemma {:induction false} ScanCode(text: string, rest: string)
    requires forall c <- text :: IsPlainCode(c)
    requires Scan(rest).Some?
    ensures Scan(text + rest) == Some(Codes(text) + Scan(rest).value)
  {
    if text == "" {
      assert text + rest == rest;
      assert Codes(text) + Scan(rest).value == Scan(rest).value;
    } else {
      assert text[0] in text;
      ScanCode(text[1..], rest);
      assert (text + rest)[1..] == text[1..] + rest;
      var tokens := Scan(rest).value;
      assert Codes(text) + tokens == [Code(text[0])] + (Codes(text[1..]) + tokens);
    }
  }

  lemma ScanLiteral(body: string, value: string, rest: string)
    requires ReadLiteral(body) == Some((value, rest)) && Scan(rest).Some?
    ensures Scan("\"" + body) == Some([Str(value)] + Scan(rest).value)
  {
    assert ("\"" + body)[1..] == body;
  }

  lemma ScanQuoted(s: string, rest: string)
    requires Scan(rest).Some?
    ensures Scan(Quote(s) + rest) == Some([Str(s)] + Scan(rest).value)
  {
    ReadEscaped(s, rest);
    ScanLiteral(Escape(s) + "\"" + rest, s, rest);
    assert Quote(s) + rest == "\"" + (Escape(s) + "\"" + rest);
  }

  /** A script assembled from fixed code with quoted names in it. */
  datatype Template = Done | Fixed(code: string, rest: Template) | Hole(name: string, rest: Template)

  function Render(t: Template): string {
    match t
    case Done => ""
    case Fixed(code, rest) => code + Render(rest)
    case Hole(name, rest) => Quote(name) + Render(rest)
  }

  function Tokens(t: Template): seq<Token> {
    match t
    case Done => []
    case Fixed(code, rest) => Codes(code) + Tokens(rest)
    case Hole(name, rest) => [Str(name)] + Tokens(rest)
  }

  predicate PlainTemplate(t: Template) {
    match t
    case Done => true
    case Fixed(code, rest) => (forall c <- code :: IsPlainCode(c)) && PlainTemplate(rest)
    case Hole(_, rest) => PlainTemplate(rest)
  }

  function Names(t: Template): seq<string> {
    match t
    case Done => []
    case Fixed(_, rest) => Names(rest)
    case Hole(name, rest) => [name] + Names(rest)
  }

  /** The code of a template, with nothing where its names go. */
  function CodeAround(t: Template): string {
    match t
    case Done => ""
    case Fixed(code, rest) => code + CodeAround(rest)
    case Hole(_, rest) => CodeAround(rest)
  }

  lemma {:induction false} ScanTemplate(t: Template)
    requires PlainTemplate(t)
    ensures Scan(Render(t)) == Some(Tokens(t))
  {
    match t
    case Done =>
    case Fixed(code, rest) =>
      ScanTemplate(rest);
      ScanCode(code, Render(rest));
    case Hole(name, rest) =>
      ScanTemplate(rest);
      ScanQuoted(name, Render(rest));
  }

  /** The values of the literals, and the code between them. */
  function Literals(tokens: seq<Token>): seq<string> {
    if tokens == [] then []
    else (match tokens[0] case Code(_) => [] case Str(value) => [value]) + Literals(tokens[1..])
  }

  function CodeOf(tokens: seq<Token>): string {
    if tokens == [] then ""
    else (match tokens[0] case Code(c) => [c] case Str(_) => "") + CodeOf(tokens[1..])
  }

  lemma {:induction false} CodesThen(text: string, more: seq<Token>)
    ensures Literals(Codes(text) + more) == Literals(more)
    ensures CodeOf(Codes(text) + more) == text + CodeOf(more)
  {
    if text == "" {
      assert Codes(text) + more == more;
    } else {
      CodesThen(text[1..], more);
      OneCodeThen(text[0], Codes(text[1..]) + more);
      assert Codes(text) + more == [Code(text[0])] + (Codes(text[1..]) + more);
      assert text + CodeOf(more) == [text[0]] + (text[1..] + CodeOf(more));
    }
  }

  lemma OneCodeThen(c: char, more: seq<Token>)
    ensures Literals([Code(c)] + more) == Literals(more)
    ensures CodeOf([Code(c)] + more) == [c] + CodeOf(more)
  {
    assert ([Code(c)] + more)[1..] == more;
  }

  lemma {:induction false} TokensOfTemplate(t: Template)
    ensures Literals(Tokens(t)) == Names(t)
    ensures CodeOf(Tokens(t)) == CodeAround(t)
  {
    match t
    case Done =>
    case Fixed(code, rest) =>
      TokensOfTemplate(rest);
      CodesThen(code, Tokens(rest));
    case Hole(name, rest) =>
      TokensOfTemplate(rest);
      assert ([Str(name)] + Tokens(rest))[1..] == Tokens(rest);
  }

  /** No name, whatever characters it is made of, can change the code around it or another name: the
      script scans to the template's code with each name as the value of one literal. */
  lemma NamesStayNames(t: Template)
    requires PlainTemplate(t)
    ensures Scan(Render(t)).Some?
    ensures Literals(Scan(Render(t)).value) == Names(t)
    ensures CodeOf(Scan(Render(t)).value) == CodeAround(t)
  {
    ScanTemplate(t);
    TokensOfTemplate(t);
  }

  lemma {:induction false} EscapeAddsNone(s: string, c: char)
    requires c != '\\' && c != '"' && c != 'n' && c != 'r'
    ensures c in Escape(s) ==> c in s
  {
    if s != "" {
      EscapeAddsNone(s[1..], c);
    }
  }

  lemma {:induction false} EscapeKeeps(s: string, c: char)
    requires c != '\n' && c != '\r'
    ensures c in s ==> c in Escape(s)
  {
    if s != "" {
      EscapeKeeps(s[1..], c);
      assert s[0] != '\n' && s[0] != '\r' ==> s[0] in EscapeChar(s[0]);
    }
  }

  /** A character that is neither a line break nor part of an escape is in the script exactly when it is in
      the code or in a name. */
  lemma {:induction false} CharsOfTemplate(t: Template, c: char)
    requires c != '\\' && c != '"' && c != 'n' && c != 'r' && c != '\n' && c != '\r'
    ensures c in Render(t) <==> c in CodeAround(t) || exists name <- Names(t) :: c in name
  {
    match t
    case Done =>
    case Fixed(code, rest) => CharsOfTemplate(rest, c);
    case Hole(name, rest) =>
      CharsOfTemplate(rest, c);
      EscapeAddsNone(name, c);
      EscapeKeeps(name, c);
      assert forall n <- Names(t) :: n == name || n in Names(rest);
      assert forall n <- Names(rest) :: n in Names(t);
      assert name in Names(t);
  }

  /** Where a comment, a regular expression, a template, another literal or an escape could begin, the scanner refuses
      the script. */
  lemma ScannerIsStrict(c: char, rest: string)
    requires c == '\'' || c == '`' || c == '/' || c == '\\'
    ensures Scan([c] + rest) == None
  {
  }
}
