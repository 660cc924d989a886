/** Quoting a word for the shell, and a reader for the words of the POSIX Shell Command Language
    (POSIX.1-2017, sections 2.2 and 2.3): backslash escapes, single quotes, and the unquoted characters
    that stand for themselves. */
module Shell {
  import opened Wrappers

  const QUOTE := '\''
  const NUL := '\0'

  function EscapeChar(c: char): string {
    if c == QUOTE then "'\\''" else [c]
  }

  function Escape(s: string): string {
    if s == "" then "" else EscapeChar(s[0]) + Escape(s[1..])
  }

  function Quote(s: string): string {
    "'" + Escape(s) + "'"
  }

  /** Characters that end an unquoted word (section 2.3). */
  predicate EndsWord(c: char) {
    match c
    case ';' | '|' | '&' | '<' | '>' | '(' | ')' | ' ' | '\t' | '\n' => true
    case _ => false
  }

  /** Unquoted characters that would start an expansion, another kind of quoting, a pattern or a comment.
      The reader refuses them rather than guess what the shell would do. */
  predicate Special(c: char) {
    match c
    case '"' | '$' | '`' | '*' | '?' | '[' | ']' | '~' | '#' | '{' | '}' | '!' | '\0' => true
    case _ => false
  }

  predicate StandsForItself(c: char) {
    !EndsWord(c) && !Special(c) && c != QUOTE && c != '\\'
  }

  /** Reads one word: the value the shell gives it, and the input left over. */
  function ReadWord(s: string): Option<(string, string)> {
    if s == "" || EndsWord(s[0]) then Some(("", s))
    else if s[0] == QUOTE then ReadQuoted(s[1..])
    else if s[0] == '\\' then
      if |s| == 1 || s[1] == NUL then None
      else if s[1] == '\n' then ReadWord(s[2..])
      else
        var (word, rest) :- ReadWord(s[2..]);
        Some(([s[1]] + word, rest))
    else if Special(s[0]) then None
    else
      var (word, rest) :- ReadWord(s[1..]);
      Some(([s[0]] + word, rest))
  }

  /** The same, inside single quotes, where every character but the quote stands for itself (2.2.2). */
  function ReadQuoted(s: string): Option<(string, string)> {
    if s == "" || s[0] == NUL then None
    else if s[0] == QUOTE then ReadWord(s[1..])
    else
      var (word, rest) :- ReadQuoted(s[1..]);
      Some(([s[0]] + word, rest))
  }

  /** Why names need quoting: outside quotes, what would begin an expansion, a pattern, another quoting or a comment is
      refused, and what ends a word ends it. */
  lemma Unquoted(c: char, rest: string)
    requires c == '"' || c == '$' || c == '`' || c == '*' || c == '?' || c == '[' || c == ']' || c == '~' || c == '#'
      || c == '{' || c == '}' || c == '!' || c == NUL
    ensures ReadWord([c] + rest) == None
  {
  }

  lemma UnquotedEnd(c: char, rest: string)
    requires c == ';' || c == '|' || c == '&' || c == '<' || c == '>' || c == '(' || c == ')' || c == ' ' || c == '\t'
      || c == '\n'
    ensures ReadWord([c] + rest) == Some(("", [c] + rest))
  {
  }

  /** An escaped quote closes the quotes, adds one literal quote and opens them again. */
  lemma ReadEscapedQuote(tail: string)
    ensures ReadQuoted("'\\''" + tail) ==
            if ReadQuoted(tail).None? then None
            else Some(([QUOTE] + ReadQuoted(tail).value.0, ReadQuoted(tail).value.1))
  {
    var reopened := "'" + tail;
    assert reopened[1..] == tail;
    assert ReadWord(reopened) == ReadQuoted(tail);
    var escaped := "\\'" + reopened;
    assert escaped[0] == '\\' && escaped[1] == QUOTE && escaped[2..] == reopened;
    assert ReadWord(escaped).None? == ReadQuoted(tail).None?;
    var whole := "'\\''" + tail;
    assert whole[1..] == escaped;
  }

  lemma {:induction false} ReadEscaped(s: string, rest: string)
    requires rest == "" || EndsWord(rest[0])
    ensures ReadQuoted(Escape(s) + "'" + rest) == if NUL in s then None else Some((s, rest))
  {
    var whole := Escape(s) + "'" + rest;
    if s == "" {
      assert whole[1..] == rest;
    } else {
      var tail := Escape(s[1..]) + "'" + rest;
      ReadEscaped(s[1..], rest);
      assert s == [s[0]] + s[1..];
      assert whole == EscapeChar(s[0]) + tail;
      if s[0] == QUOTE {
        ReadEscapedQuote(tail);
      } else {
        assert whole[1..] == tail;
      }
    }
  }

  /** A quoted string, wherever a word may end after it, reads back as exactly itself. The one exception
      is a string no argument vector can carry: one with a NUL. */
  lemma ReadQuotedWord(s: string, rest: string)
    requires rest == "" || EndsWord(rest[0])
    ensures ReadWord(Quote(s) + rest) == if NUL in s then None else Some((s, rest))
  {
    ReadEscaped(s, rest);
    assert Quote(s) + rest == "'" + (Escape(s) + "'" + rest);
    assert (Quote(s) + rest)[1..] == Escape(s) + "'" + rest;
  }

  /** Plain text in front of a quoted string, such as the name of an assignment, joins its word. */
  lemma {:induction false} ReadPrefixed(prefix: string, s: string, rest: string)
    requires forall c <- prefix :: StandsForItself(c)
    requires rest == "" || EndsWord(rest[0])
    ensures ReadWord(prefix + Quote(s) + rest) == if NUL in s then None else Some((prefix + s, rest))
  {
    if prefix == "" {
      assert prefix + Quote(s) + rest == Quote(s) + rest && prefix + s == s;
      ReadQuotedWord(s, rest);
    } else {
      assert prefix[0] in prefix;
      ReadPrefixed(prefix[1..], s, rest);
      var whole := prefix + Quote(s) + rest;
      assert whole[1..] == prefix[1..] + Quote(s) + rest;
      assert prefix + s == [prefix[0]] + (prefix[1..] + s);
    }
  }
}
