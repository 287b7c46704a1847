/**
  * Reading a command line as a POSIX shell does, as far as the wrapper needs it: token
  * recognition (section 2.3 of the POSIX.1-2017 Shell Command Language) with single and
  * double quotes (sections 2.2.2 and 2.2.3). Text with an expansion in it has no reading here.
  */
module Shell {
  import opened Options

  datatype Mode = Plain | Single | Double

  datatype Word = Word(value: string, rest: string)

  predicate Blank(c: char) {
    c == ' ' || c == '\t'
  }

  /** Characters that end a word unless quoted. */
  predicate Delimiter(c: char) {
    Blank(c) || c == '\n' || c == '&' || c == '|' || c == ';' || c == '<' || c == '>' || c == '(' || c == ')'
  }

  /** Unquoted characters that may stand for something else than themselves. */
  predicate Special(c: char) {
    c == '\\' || c == '$' || c == '`' || c == '*' || c == '?' || c == '[' || c == '#' || c == '~' || c == '!'
  }

  predicate SpecialInDouble(c: char) {
    c == '\\' || c == '$' || c == '`' || c == '!'
  }

  function Cons(c: char, w: Option<Word>): Option<Word> {
    if w.None? then None else Some(Word([c] + w.value.value, w.value.rest))
  }

  /** The rest of a word: its value with the quotes removed, and what follows it. */
  function ReadWord(s: string, mode: Mode): Option<Word>
    decreases |s|
  {
    match mode
    case Plain =>
      if s == "" || Delimiter(s[0]) then Some(Word("", s))
      else if s[0] == '\'' then ReadWord(s[1..], Single)
      else if s[0] == '"' then ReadWord(s[1..], Double)
      else if Special(s[0]) then None
      else Cons(s[0], ReadWord(s[1..], Plain))
    case Single =>
      if s == "" then None
      else if s[0] == '\'' then ReadWord(s[1..], Plain)
      else Cons(s[0], ReadWord(s[1..], Single))
    case Double =>
      if s == "" then None
      else if s[0] == '"' then ReadWord(s[1..], Plain)
      else if SpecialInDouble(s[0]) then None
      else Cons(s[0], ReadWord(s[1..], Double))
  }

  datatype Token = Text(value: string) | AndIf | Newline

  datatype Lexed = Lexed(tokens: seq<Token>, rest: string)

  function NextToken(s: string): Option<Lexed>
    decreases |s|
  {
    if s == "" then None
    else if Blank(s[0]) then NextToken(s[1..])
    else if s[0] == '\n' then Some(Lexed([Newline], s[1..]))
    else if |s| >= 2 && s[0] == '&' && s[1] == '&' then Some(Lexed([AndIf], s[2..]))
    else if Delimiter(s[0]) then None
    else
      var w := ReadWord(s, Plain);
      if w.None? then None else Some(Lexed([Text(w.value.value)], w.value.rest))
  }

  /** The first `n` tokens and the text after them. */
  function Lex(s: string, n: nat): Option<Lexed>
    decreases n
  {
    if n == 0 then Some(Lexed([], s))
    else
      var t := NextToken(s);
      if t.None? then None
      else
        var more := Lex(t.value.rest, n - 1);
        if more.None? then None else Some(Lexed(t.value.tokens + more.value.tokens, more.value.rest))
  }

  // -------------------------------------------------------------------------- quoting

  /** The characters `shlex.quote` leaves alone. */
  predicate Safe(c: char) {
    || 'a' <= c <= 'z' || 'A' <= c <= 'Z' || '0' <= c <= '9' || c == '_' || c == '@' || c == '%' || c == '+'
    || c == '=' || c == ':' || c == ',' || c == '.' || c == '/' || c == '-'
  }

  predicate AllSafe(s: string) {
    forall i :: 0 <= i < |s| ==> Safe(s[i])
  }

  /** Every single quote becomes: end the quotes, a double-quoted single quote, start again. */
  function Escape(s: string): string {
    if s == "" then "" else (if s[0] == '\'' then "'\"'\"'" else [s[0]]) + Escape(s[1..])
  }

  function Quote(s: string): (q: string)
    ensures q != ""
  {
    if s == "" then "''" else if AllSafe(s) then s else "'" + Escape(s) + "'"
  }

  predicate Ends(rest: string) {
    rest == "" || Delimiter(rest[0])
  }

  lemma SafeFirst(s: string)
    requires s != "" && Safe(s[0])
    ensures ReadWord(s, Plain) == Cons(s[0], ReadWord(s[1..], Plain))
  {
  }

  /** Safe characters read as themselves and join the word that follows. */
  lemma {:induction false} SafeThen(prefix: string, tail: string, w: Word)
    requires AllSafe(prefix) && ReadWord(tail, Plain) == Some(w)
    ensures ReadWord(prefix + tail, Plain) == Some(Word(prefix + w.value, w.rest))
  {
    if prefix == "" {
      assert prefix + tail == tail;
      assert prefix + w.value == w.value;
    } else {
      var s := prefix + tail;
      assert Safe(prefix[0]) && s[0] == prefix[0];
      SafeFirst(s);
      assert s[1..] == prefix[1..] + tail;
      SafeThen(prefix[1..], tail, w);
      assert [prefix[0]] + (prefix[1..] + w.value) == prefix + w.value;
    }
  }

  lemma SafeReads(s: string, rest: string)
    requires AllSafe(s) && Ends(rest)
    ensures ReadWord(s + rest, Plain) == Some(Word(s, rest))
  {
    SafeThen(s, rest, Word("", rest));
    assert s + "" == s;
  }

  /** Leaving the single quotes, a double-quoted single quote, and entering them again. */
  lemma DetourReads(tail: string)
    ensures ReadWord("'\"'\"'" + tail, Single) == Cons('\'', ReadWord(tail, Single))
  {
    var s := "'\"'\"'" + tail;
    assert s[1..] == "\"'\"'" + tail;
    assert s[1..][1..] == "'\"'" + tail;
    assert s[1..][1..][1..] == "\"'" + tail;
    assert s[1..][1..][1..][1..] == "'" + tail;
    assert s[1..][1..][1..][1..][1..] == tail;
    assert ReadWord("'" + tail, Plain) == ReadWord(tail, Single);
    assert ReadWord("\"'" + tail, Double) == ReadWord(tail, Single);
    assert ReadWord("'\"'" + tail, Double) == Cons('\'', ReadWord(tail, Single));
  }

  lemma {:induction false} EscapedReads(s: string, rest: string)
    requires Ends(rest)
    ensures ReadWord(Escape(s) + "'" + rest, Single) == Some(Word(s, rest))
  {
    var tail := Escape(s) + "'" + rest;
    if s == "" {
      assert tail == "'" + rest;
      assert tail[1..] == rest;
    } else {
      EscapedReads(s[1..], rest);
      var more := Escape(s[1..]) + "'" + rest;
      if s[0] == '\'' {
        assert tail == "'\"'\"'" + more;
        DetourReads(more);
      } else {
        assert tail == [s[0]] + more;
        assert tail[1..] == more;
      }
      assert [s[0]] + s[1..] == s;
    }
  }

  /** A shell reads a quoted text back as the text, whatever is in it. */
  lemma QuoteReads(s: string, rest: string)
    requires Ends(rest)
    ensures ReadWord(Quote(s) + rest, Plain) == Some(Word(s, rest))
  {
    if s == "" {
      var t := "''" + rest;
      assert t[1..] == "'" + rest;
      assert t[1..][1..] == rest;
      assert ReadWord(t[1..], Single) == ReadWord(rest, Plain);
    } else if AllSafe(s) {
      SafeReads(s, rest);
    } else {
      EscapedReads(s, rest);
      var t := "'" + Escape(s) + "'" + rest;
      assert t[1..] == Escape(s) + "'" + rest;
    }
  }

  /** A quoted text may follow unquoted text in the same word. */
  lemma PrefixedQuoteReads(prefix: string, s: string, rest: string)
    requires AllSafe(prefix) && Ends(rest)
    ensures ReadWord(prefix + Quote(s) + rest, Plain) == Some(Word(prefix + s, rest))
  {
    QuoteReads(s, rest);
    SafeThen(prefix, Quote(s) + rest, Word(s, rest));
    assert prefix + Quote(s) + rest == prefix + (Quote(s) + rest);
  }

  // ---------------------------------------------------------------------------- tokens

  /** A text that reads as a word is the next token, unless it begins with a blank. */
  lemma WordToken(word: string, value: string, rest: string)
    requires word != "" && !Delimiter(word[0]) && ReadWord(word + rest, Plain) == Some(Word(value, rest))
    ensures NextToken(word + rest) == Some(Lexed([Text(value)], rest))
  {
  }

  lemma QuoteStarts(s: string)
    ensures !Delimiter(Quote(s)[0])
  {
    if s != "" && AllSafe(s) {
      assert Safe(s[0]);
    }
  }

  /** After a blank, the tokens are those of what follows it. */
  lemma LexBlank(s: string, n: nat)
    requires n > 0
    ensures Lex(" " + s, n) == Lex(s, n)
  {
    assert (" " + s)[1..] == s;
  }

  lemma LexNext(s: string, n: nat, token: Token, rest: string, more: Lexed)
    requires NextToken(s) == Some(Lexed([token], rest)) && Lex(rest, n) == Some(more)
    ensures Lex(s, n + 1) == Some(Lexed([token] + more.tokens, more.rest))
  {
  }

  lemma LexSafe(word: string, rest: string, n: nat, more: Lexed)
    requires word != "" && AllSafe(word) && Ends(rest) && Lex(rest, n) == Some(more)
    ensures Lex(word + rest, n + 1) == Some(Lexed([Text(word)] + more.tokens, more.rest))
  {
    assert Safe(word[0]);
    SafeReads(word, rest);
    WordToken(word, word, rest);
    LexNext(word + rest, n, Text(word), rest, more);
  }

  lemma LexQuoted(s: string, rest: string, n: nat, more: Lexed)
    requires Ends(rest) && Lex(rest, n) == Some(more)
    ensures Lex(Quote(s) + rest, n + 1) == Some(Lexed([Text(s)] + more.tokens, more.rest))
  {
    QuoteReads(s, rest);
    QuoteStarts(s);
    WordToken(Quote(s), s, rest);
    LexNext(Quote(s) + rest, n, Text(s), rest, more);
  }

  // the same, after a blank

  lemma NextSafe(word: string, rest: string, n: nat, more: Lexed)
    requires word != "" && AllSafe(word) && Ends(rest) && Lex(rest, n) == Some(more)
    ensures Lex(" " + (word + rest), n + 1) == Some(Lexed([Text(word)] + more.tokens, more.rest))
  {
    LexSafe(word, rest, n, more);
    LexBlank(word + rest, n + 1);
  }

  lemma NextQuoted(s: string, rest: string, n: nat, more: Lexed)
    requires Ends(rest) && Lex(rest, n) == Some(more)
    ensures Lex(" " + (Quote(s) + rest), n + 1) == Some(Lexed([Text(s)] + more.tokens, more.rest))
  {
    LexQuoted(s, rest, n, more);
    LexBlank(Quote(s) + rest, n + 1);
  }

  lemma NextAnd(rest: string, n: nat, more: Lexed)
    requires Lex(rest, n) == Some(more)
    ensures Lex(" " + ("&&" + rest), n + 1) == Some(Lexed([AndIf] + more.tokens, more.rest))
  {
    var s := "&&" + rest;
    assert s[2..] == rest;
    LexNext(s, n, AndIf, rest, more);
    LexBlank(s, n + 1);
  }

  lemma NextBrace(rest: string, n: nat, more: Lexed)
    requires Ends(rest) && Lex(rest, n) == Some(more)
    ensures Lex(" " + ("{" + rest), n + 1) == Some(Lexed([Text("{")] + more.tokens, more.rest))
  {
    var s := "{" + rest;
    assert s[1..] == rest;
    assert ReadWord(s, Plain) == Cons('{', ReadWord(rest, Plain));
    assert ['{'] + "" == "{";
    WordToken("{", "{", rest);
    LexNext(s, n, Text("{"), rest, more);
    LexBlank(s, n + 1);
  }

  lemma LexNewline(rest: string, n: nat, more: Lexed)
    requires Lex(rest, n) == Some(more)
    ensures Lex("\n" + rest, n + 1) == Some(Lexed([Newline] + more.tokens, more.rest))
  {
    var s := "\n" + rest;
    assert s[1..] == rest;
    LexNext(s, n, Newline, rest, more);
  }

  lemma NextAssigned(name: string, s: string, rest: string, n: nat, more: Lexed)
    requires name != "" && AllSafe(name) && Ends(rest) && Lex(rest, n) == Some(more)
    ensures Lex(" " + (name + Quote(s) + rest), n + 1) == Some(Lexed([Text(name + s)] + more.tokens, more.rest))
  {
    assert Safe(name[0]);
    PrefixedQuoteReads(name, s, rest);
    WordToken(name + Quote(s), name + s, rest);
    LexNext(name + Quote(s) + rest, n, Text(name + s), rest, more);
    LexBlank(name + Quote(s) + rest, n + 1);
  }

  /** A text is left as it is exactly when it is not empty and has only safe characters; any other is put in quotes. */
  lemma QuotesIff(s: string)
    ensures Quote(s) == s <==> s != "" && AllSafe(s)
    ensures Quote(s) != s ==> |Quote(s)| >= |s| + 2 && Quote(s)[0] == '\'' && Quote(s)[|Quote(s)| - 1] == '\''
  {
    EscapeLengthens(s);
  }

  lemma {:induction false} EscapeLengthens(s: string)
    ensures |Escape(s)| >= |s|
  {
    if s != "" {
      EscapeLengthens(s[1..]);
    }
  }
}
