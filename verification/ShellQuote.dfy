/**
 Quoting one word for a POSIX shell, and reading it back by sections 2.2.2 (single quotes) and
 2.2.3 (double quotes) of the POSIX.1-2017 Shell Command Language.
 */
module ShellQuote {
  import opened Common

  /** Replaces every single quote: leaves single quotes, writes one in double quotes, and re-enters. */
  function Escape(s: string): string
  {
    if s == "" then ""
    else (if s[0] == '\'' then "'\"'\"'" else [s[0]]) + Escape(s[1..])
  }

  function Quote(value: string): string
  {
    "'" + Escape(value) + "'"
  }

  datatype Mode = Plain | Single | Double

  /** Characters with a meaning of their own outside quotes (section 2.2), other than the two quotes. */
  const SPECIAL := "|&;<>()$`\\\n*?[#~=%"

  predicate IsBlank(c: char) { c == ' ' || c == '\t' }

  /**
   Reads words from left to right, removing quotes. None when the text uses an expansion or an
   operator, or ends inside quotes.
   */
  function Lex(s: string, mode: Mode, word: Option<string>, words: seq<string>): Option<seq<string>>
    decreases |s|
  {
    var sofar := if word.Some? then word.value else "";
    if s == "" then
      if mode != Plain then None else if word.Some? then Some(words + [word.value]) else Some(words)
    else
      var c, rest := s[0], s[1..];
      match mode
      case Plain =>
        if c == '\'' then Lex(rest, Single, Some(sofar), words)
        else if c == '"' then Lex(rest, Double, Some(sofar), words)
        else if IsBlank(c) then Lex(rest, Plain, None, if word.Some? then words + [word.value] else words)
        else if c in SPECIAL then None
        else Lex(rest, Plain, Some(sofar + [c]), words)
      case Single =>
        if c == '\'' then Lex(rest, Plain, Some(sofar), words) else Lex(rest, Single, Some(sofar + [c]), words)
      case Double =>
        if c == '"' then Lex(rest, Plain, Some(sofar), words)
        else if c == '$' || c == '`' || c == '\\' then None
        else Lex(rest, Double, Some(sofar + [c]), words)
  }

  /** The words of a command line. */
  function Words(line: string): Option<seq<string>>
  {
    Lex(line, Plain, None, [])
  }

  lemma LexSingle(c: char, rest: string, word: string, words: seq<string>)
    requires c != '\''
    ensures Lex([c] + rest, Single, Some(word), words) == Lex(rest, Single, Some(word + [c]), words)
  {
    assert ([c] + rest)[1..] == rest;
  }

  /** The five characters written for a single quote add exactly that quote, inside the same quotes. */
  lemma LexEscapedQuote(rest: string, word: string, words: seq<string>)
    ensures Lex("'\"'\"'" + rest, Single, Some(word), words) == Lex(rest, Single, Some(word + "'"), words)
  {
    var s0 := "'\"'\"'" + rest;
    var s1, s2, s3, s4 := s0[1..], s0[2..], s0[3..], s0[4..];
    assert s0[1..][1..] == s2 && s2[1..] == s3 && s3[1..] == s4 && s4[1..] == rest;
    assert s0[0] == '\'' && s1[0] == '"' && s2[0] == '\'' && s3[0] == '"' && s4[0] == '\'';
    calc {
      Lex(s0, Single, Some(word), words);
      Lex(s1, Plain, Some(word), words);
      Lex(s2, Double, Some(word), words);
      Lex(s3, Double, Some(word + "'"), words);
      Lex(s4, Plain, Some(word + "'"), words);
      Lex(rest, Single, Some(word + "'"), words);
    }
  }

  /** Reading escaped text inside single quotes adds the original text to the word. */
  lemma {:induction false} LexEscape(s: string, rest: string, word: string, words: seq<string>)
    ensures Lex(Escape(s) + rest, Single, Some(word), words) == Lex(rest, Single, Some(word + s), words)
  {
    if s == "" {
      assert Escape(s) + rest == rest && word + s == word;
    } else {
      var tail := Escape(s[1..]) + rest;
      assert word + s == word + [s[0]] + s[1..];
      if s[0] == '\'' {
        assert Escape(s) + rest == "'\"'\"'" + tail;
        LexEscapedQuote(tail, word, words);
        LexEscape(s[1..], rest, word + "'", words);
      } else {
        assert Escape(s) + rest == [s[0]] + tail;
        LexSingle(s[0], tail, word, words);
        LexEscape(s[1..], rest, word + [s[0]], words);
      }
    }
  }

  /** A quoted value extends the word being read by exactly that value, whatever surrounds it. */
  lemma QuoteReads(value: string, rest: string, word: Option<string>, words: seq<string>)
    ensures Lex(Quote(value) + rest, Plain, word, words)
            == Lex(rest, Plain, Some((if word.Some? then word.value else "") + value), words)
  {
    var sofar := if word.Some? then word.value else "";
    var line := Quote(value) + rest;
    assert line[1..] == Escape(value) + ("'" + rest);
    LexEscape(value, "'" + rest, sofar, words);
    assert ("'" + rest)[1..] == rest;
  }

  /** Quote removal gives back one word, equal to the value. */
  lemma QuoteRoundTrip(value: string)
    ensures Words(Quote(value)) == Some([value])
  {
    QuoteReads(value, "", None, []);
    assert Quote(value) + "" == Quote(value) && "" + value == value && [] + [value] == [value];
  }

  /** A command line of quoted arguments. */
  function QuoteLine(args: seq<string>): string
  {
    if args == [] then "" else Quote(args[0]) + " " + QuoteLine(args[1..])
  }

  lemma {:induction false} QuoteLineReads(args: seq<string>, words: seq<string>)
    ensures Lex(QuoteLine(args), Plain, None, words) == Some(words + args)
  {
    if args == [] {
      assert words + args == words;
    } else {
      var rest := " " + QuoteLine(args[1..]);
      assert QuoteLine(args) == Quote(args[0]) + rest;
      QuoteReads(args[0], rest, None, words);
      assert "" + args[0] == args[0] && rest[1..] == QuoteLine(args[1..]);
      QuoteLineReads(args[1..], words + [args[0]]);
      assert words + [args[0]] + args[1..] == words + args;
    }
  }

  /** Quoted arguments next to each other stay separate and come back unchanged. */
  lemma QuoteLineRoundTrip(args: seq<string>)
    ensures Words(QuoteLine(args)) == Some(args)
  {
    QuoteLineReads(args, []);
    assert [] + args == args;
  }
}
