/** How a POSIX shell splits a command string into words: quoting (section 2.2 of the Shell
    Command Language, XCU of POSIX.1-2017) and token recognition (section 2.3).

    The lexer is deliberately strict. An unquoted or double-quoted character that would make
    the shell expand something (parameters, commands, patterns, tildes, braces, comments)
    makes it fail, so a successful result is exactly what the command receives. */
module ShellSyntax {
  import opened Common

  datatype Token = Word(text: string) | AndIf | Operator(symbol: char)

  datatype Mode = Bare | BareEscape | Single | Double | DoubleEscape | Ampersand

  datatype Lexer =
    | Failed
    | Lexer(tokens: seq<Token>, word: Option<string>, mode: Mode)

  const START := Lexer([], None, Bare)

  predicate IsBlank(c: char) {
    c == ' ' || c == '\t'
  }

  predicate IsOperator(c: char) {
    c == ';' || c == '|' || c == '<' || c == '>' || c == '(' || c == ')' || c == '\n'
  }

  /** Characters that stand for something else unless they are quoted. */
  predicate IsExpansion(c: char) {
    || c == '$' || c == '`' || c == '*' || c == '?' || c == '[' || c == ']'
    || c == '{' || c == '}' || c == '~' || c == '#' || c == '!'
  }

  function WordSoFar(l: Lexer): string
    requires l.Lexer?
  {
    match l.word
    case None => ""
    case Some(w) => w
  }

  function Append(l: Lexer, text: string, mode: Mode): Lexer
    requires l.Lexer?
  {
    Lexer(l.tokens, Some(WordSoFar(l) + text), mode)
  }

  /** Delimit the current word, if there is one, and go on in `mode`. */
  function EndWord(l: Lexer, mode: Mode): (r: Lexer)
    requires l.Lexer?
    ensures r.Lexer?
  {
    match l.word
    case None => Lexer(l.tokens, None, mode)
    case Some(w) => Lexer(l.tokens + [Word(w)], None, mode)
  }

  function AddToken(l: Lexer, t: Token): (r: Lexer)
    requires l.Lexer?
    ensures r.Lexer?
  {
    Lexer(EndWord(l, Bare).tokens + [t], None, Bare)
  }

  /** One character outside quotes, not following an ampersand. */
  function StepBare(l: Lexer, c: char): Lexer
    requires l.Lexer?
  {
    if IsBlank(c) then EndWord(l, Bare)
    else if c == '&' then EndWord(l, Ampersand)
    else if IsOperator(c) then AddToken(l, Operator(c))
    else if c == '\'' then Append(l, "", Single)
    else if c == '\"' then Append(l, "", Double)
    else if c == '\\' then l.(mode := BareEscape)
    else if IsExpansion(c) then Failed
    else Append(l, [c], Bare)
  }

  function Step(l: Lexer, c: char): Lexer {
    if l.Failed? || c == '\0' then Failed
    else
      match l.mode
      case Bare => StepBare(l, c)
      case BareEscape => if c == '\n' then l.(mode := Bare) else Append(l, [c], Bare)
      case Single => if c == '\'' then l.(mode := Bare) else Append(l, [c], Single)
      case Double =>
        if c == '\"' then l.(mode := Bare)
        else if c == '\\' then l.(mode := DoubleEscape)
        else if c == '$' || c == '`' then Failed
        else Append(l, [c], Double)
      case DoubleEscape =>
        if c == '\n' then l.(mode := Double)
        else if c == '$' || c == '`' || c == '\"' || c == '\\' then Append(l, [c], Double)
        else Append(l, ['\\', c], Double)
      case Ampersand =>
        if c == '&' then AddToken(l, AndIf)
        else StepBare(AddToken(l, Operator('&')), c)
  }

  function Feed(l: Lexer, s: string): Lexer
    decreases |s|
  {
    if s == "" then l else Feed(Step(l, s[0]), s[1..])
  }

  /** The tokens of a complete command string, or None when it is not literal text. */
  function Tokens(s: string): Option<seq<Token>> {
    var l := Feed(START, s);
    if l.Failed? then None
    else if l.mode == Bare then Some(EndWord(l, Bare).tokens)
    else if l.mode == Ampersand then Some(AddToken(l, Operator('&')).tokens)
    else None
  }

  lemma {:induction false} FeedConcat(l: Lexer, a: string, b: string)
    ensures Feed(l, a + b) == Feed(Feed(l, a), b)
    decreases |a|
  {
    if a == "" {
      assert a + b == b;
    } else {
      assert (a + b)[1..] == a[1..] + b;
      FeedConcat(Step(l, a[0]), a[1..], b);
    }
  }

  lemma FeedCons(l: Lexer, c: char, s: string)
    ensures Feed(l, [c] + s) == Feed(Step(l, c), s)
  {
    assert ([c] + s)[0] == c && ([c] + s)[1..] == s;
  }

  lemma FeedOne(l: Lexer, c: char)
    ensures Feed(l, [c]) == Step(l, c)
  {
    assert [c][1..] == "";
  }

  // ---- Python's shlex --------------------------------------------------------------------

  /** `shlex.quote` leaves a string alone when it has only these characters. */
  predicate IsSafe(c: char) {
    || 'a' <= c <= 'z' || 'A' <= c <= 'Z' || '0' <= c <= '9'
    || c == '_' || c == '@' || c == '%' || c == '+' || c == '=' || c == ':'
    || c == ',' || c == '.' || c == '/' || c == '-'
  }

  predicate AllSafe(s: string) {
    forall i :: 0 <= i < |s| ==> IsSafe(s[i])
  }

  const ESCAPED_QUOTE: string := ['\'', '\"', '\'', '\"', '\'']

  /** Each single quote leaves the quotes, is double-quoted, and enters them again. */
  function EscapeQuotes(s: string): string {
    if s == "" then ""
    else (if s[0] == '\'' then ESCAPED_QUOTE else [s[0]]) + EscapeQuotes(s[1..])
  }

  function Quote(s: string): string {
    if s == "" then "''"
    else if AllSafe(s) then s
    else "'" + EscapeQuotes(s) + "'"
  }

  function Join(words: seq<string>): string {
    if words == [] then ""
    else if |words| == 1 then Quote(words[0])
    else Join(words[..|words| - 1]) + " " + Quote(words[|words| - 1])
  }

  predicate NoNul(s: string) {
    '\0' !in s
  }

  predicate NoNuls(words: seq<string>) {
    forall i :: 0 <= i < |words| ==> NoNul(words[i])
  }

  function Words(words: seq<string>): (r: seq<Token>)
    ensures |r| == |words|
  {
    seq(|words|, i requires 0 <= i < |words| => Word(words[i]))
  }

  lemma SafeStep(l: Lexer, c: char)
    requires l.Lexer? && l.mode == Bare && IsSafe(c)
    ensures Step(l, c) == Append(l, [c], Bare)
  {
  }

  lemma AppendTwice(l: Lexer, a: string, b: string, mode: Mode)
    requires l.Lexer?
    ensures Append(Append(l, a, mode), b, mode) == Append(l, a + b, mode)
  {
    assert WordSoFar(l) + a + b == WordSoFar(l) + (a + b);
  }

  lemma {:induction false} SafeFeeds(l: Lexer, s: string)
    requires l.Lexer? && l.mode == Bare && AllSafe(s) && s != ""
    ensures Feed(l, s) == Append(l, s, Bare)
    decreases |s|
  {
    SafeStep(l, s[0]);
    assert s == [s[0]] + s[1..];
    if |s| > 1 {
      SafeFeeds(Append(l, [s[0]], Bare), s[1..]);
      AppendTwice(l, [s[0]], s[1..], Bare);
    } else {
      FeedOne(l, s[0]);
      assert s == [s[0]];
    }
  }

  /** Five characters, one after the other. */
  lemma FeedFive(l: Lexer, a: char, b: char, c: char, d: char, e: char)
    ensures Feed(l, [a, b, c, d, e]) == Step(Step(Step(Step(Step(l, a), b), c), d), e)
  {
    assert [a, b, c, d, e] == [a] + [b, c, d, e];
    FeedCons(l, a, [b, c, d, e]);
    FeedFour(Step(l, a), b, c, d, e);
  }

  lemma FeedFour(l: Lexer, b: char, c: char, d: char, e: char)
    ensures Feed(l, [b, c, d, e]) == Step(Step(Step(Step(l, b), c), d), e)
  {
    assert [b, c, d, e] == [b] + [c, d, e];
    assert [c, d, e] == [c] + [d, e];
    assert [d, e] == [d] + [e];
    FeedCons(l, b, [c, d, e]);
    FeedCons(Step(l, b), c, [d, e]);
    FeedCons(Step(Step(l, b), c), d, [e]);
    FeedOne(Step(Step(Step(l, b), c), d), e);
  }

  /** Out of the quotes, a quoted quote, and back in: one literal single quote. */
  lemma EscapedQuoteSteps(l: Lexer)
    requires l.Lexer? && l.mode == Single && l.word.Some?
    ensures Step(Step(Step(Step(Step(l, '\''), '\"'), '\''), '\"'), '\'') == Append(l, ['\''], Single)
  {
    var out := l.(mode := Bare);
    assert Step(l, '\'') == out;
    var inside := Append(out, "", Double);
    assert Step(out, '\"') == inside;
    assert WordSoFar(l) + "" == WordSoFar(l);
    var literal := Append(inside, ['\''], Double);
    assert Step(inside, '\'') == literal;
    assert Step(literal, '\"') == literal.(mode := Bare);
    assert WordSoFar(l) + ['\''] + "" == WordSoFar(l) + ['\''];
  }

  lemma EscapedQuoteFeeds(l: Lexer)
    requires l.Lexer? && l.mode == Single && l.word.Some?
    ensures Feed(l, ESCAPED_QUOTE) == Append(l, ['\''], Single)
  {
    assert ESCAPED_QUOTE == ['\'', '\"', '\'', '\"', '\''];
    FeedFive(l, '\'', '\"', '\'', '\"', '\'');
    EscapedQuoteSteps(l);
  }

  /** Inside single quotes the escaped text reads back as the text. */
  lemma {:induction false} EscapedFeeds(l: Lexer, s: string)
    requires l.Lexer? && l.mode == Single && l.word.Some? && NoNul(s)
    ensures Feed(l, EscapeQuotes(s)) == Append(l, s, Single)
    decreases |s|
  {
    if s == "" {
      assert WordSoFar(l) + "" == WordSoFar(l);
    } else {
      var head := if s[0] == '\'' then ESCAPED_QUOTE else [s[0]];
      FeedConcat(l, head, EscapeQuotes(s[1..]));
      if s[0] == '\'' {
        EscapedQuoteFeeds(l);
      } else {
        FeedOne(l, s[0]);
      }
      EscapedFeeds(Append(l, [s[0]], Single), s[1..]);
      AppendTwice(l, [s[0]], s[1..], Single);
      assert s == [s[0]] + s[1..];
    }
  }

  /** A text between two characters. */
  lemma FeedBetween(l: Lexer, a: char, s: string, b: char)
    ensures Feed(l, [a] + s + [b]) == Step(Feed(Step(l, a), s), b)
  {
    FeedConcat(l, [a] + s, [b]);
    FeedCons(l, a, s);
    FeedOne(Feed(Step(l, a), s), b);
  }

  lemma InQuotesFeeds(l: Lexer, s: string)
    requires l.Lexer? && l.mode == Bare && NoNul(s)
    ensures Feed(l, "'" + EscapeQuotes(s) + "'") == Append(l, s, Bare)
  {
    var inQuotes := Append(l, "", Single);
    FeedBetween(l, '\'', EscapeQuotes(s), '\'');
    EscapedFeeds(inQuotes, s);
    AppendTwice(l, "", s, Single);
    assert "" + s == s;
  }

  /** A quoted string reads back as that string, whatever it contains but NUL. */
  lemma QuoteFeeds(l: Lexer, s: string)
    requires l.Lexer? && l.mode == Bare && NoNul(s)
    ensures Feed(l, Quote(s)) == Append(l, s, Bare)
  {
    if s != "" && AllSafe(s) {
      SafeFeeds(l, s);
    } else {
      InQuotesFeeds(l, s);
      assert "'" + EscapeQuotes("") + "'" == "''";
    }
  }

  /** The lexer after `words`, the next word being `word`. */
  function After(l: Lexer, words: seq<string>, word: Option<string>): Lexer
    requires l.Lexer?
  {
    Lexer(l.tokens + Words(words), word, Bare)
  }

  lemma BlankFeeds(l: Lexer, words: seq<string>)
    requires l.Lexer? && words != []
    ensures Feed(After(l, words[..|words| - 1], Some(words[|words| - 1])), " ") == After(l, words, None)
  {
    var front := words[..|words| - 1];
    FeedOne(After(l, front, Some(words[|words| - 1])), ' ');
    assert Words(words) == Words(front) + [Word(words[|words| - 1])];
    assert l.tokens + Words(words) == l.tokens + Words(front) + [Word(words[|words| - 1])];
  }

  /** Joined words read back as these words, the last one still open. */
  lemma {:induction false} JoinFeeds(l: Lexer, words: seq<string>)
    requires l.Lexer? && l.mode == Bare && l.word.None? && NoNuls(words) && words != []
    ensures Feed(l, Join(words)) == After(l, words[..|words| - 1], Some(words[|words| - 1]))
    decreases |words|
  {
    var n := |words| - 1;
    if n == 0 {
      QuoteFeeds(l, words[0]);
      assert "" + words[0] == words[0];
      assert l.tokens + Words(words[..0]) == l.tokens;
    } else {
      var front := words[..n];
      JoinFeeds(l, front);
      BlankFeeds(l, front);
      FeedConcat(l, Join(front) + " ", Quote(words[n]));
      FeedConcat(l, Join(front), " ");
      QuoteFeeds(After(l, front, None), words[n]);
      assert "" + words[n] == words[n];
    }
  }

  /** Plain words stay as they are; anything else, the empty word included, is put in quotes. */
  lemma QuotesWhenNeeded(s: string)
    ensures Quote(s) == s <==> s != "" && AllSafe(s)
    ensures !(s != "" && AllSafe(s)) ==> |Quote(s)| >= 2 && Quote(s)[0] == '\'' && Quote(s)[|Quote(s)| - 1] == '\''
  {
    if s != "" && !AllSafe(s) {
      EscapingGrows(s);
    }
  }

  lemma {:induction false} EscapingGrows(s: string)
    ensures |EscapeQuotes(s)| >= |s|
    decreases |s|
  {
    if s != "" {
      EscapingGrows(s[1..]);
    }
  }
}
