/** Splitting a command line into words by the quoting rules of the POSIX Shell Command Language, section 2.2. */
module ShellWords {
  import opened Wrappers

  datatype Mode =
    | Delimiter | Backslash | Unquoted | UnquotedBackslash
    | SingleQuoted | DoubleQuoted | DoubleQuotedBackslash | Comment

  /** The words finished so far and the one being read. */
  datatype Scanner = Scanner(mode: Mode, words: seq<string>, word: string)

  datatype SplitError = UnclosedQuote

  predicate IsBlank(c: char) {
    c == ' ' || c == '\t' || c == '\n'
  }

  function Push(k: Scanner, mode: Mode, text: string): Scanner {
    Scanner(mode, k.words, k.word + text)
  }

  function Close(k: Scanner, mode: Mode): Scanner {
    Scanner(mode, k.words + [k.word], "")
  }

  function Step(k: Scanner, c: char): Scanner {
    match k.mode
    case Delimiter =>
      if c == '\'' then k.(mode := SingleQuoted)
      else if c == '"' then k.(mode := DoubleQuoted)
      else if c == '\\' then k.(mode := Backslash)
      else if IsBlank(c) then k
      else if c == '#' then k.(mode := Comment)
      else Push(k, Unquoted, [c])
    case Backslash =>
      if c == '\n' then k.(mode := Delimiter) else Push(k, Unquoted, [c])
    case Unquoted =>
      if c == '\'' then k.(mode := SingleQuoted)
      else if c == '"' then k.(mode := DoubleQuoted)
      else if c == '\\' then k.(mode := UnquotedBackslash)
      else if IsBlank(c) then Close(k, Delimiter)
      else Push(k, Unquoted, [c])
    case UnquotedBackslash =>
      if c == '\n' then k.(mode := Unquoted) else Push(k, Unquoted, [c])
    case SingleQuoted =>
      if c == '\'' then k.(mode := Unquoted) else Push(k, SingleQuoted, [c])
    case DoubleQuoted =>
      if c == '"' then k.(mode := Unquoted)
      else if c == '\\' then k.(mode := DoubleQuotedBackslash)
      else Push(k, DoubleQuoted, [c])
    case DoubleQuotedBackslash =>
      if c == '\n' then k.(mode := DoubleQuoted)
      else if c == '$' || c == '`' || c == '"' || c == '\\' then Push(k, DoubleQuoted, [c])
      else Push(k, DoubleQuoted, ['\\', c])
    case Comment =>
      if c == '\n' then k.(mode := Delimiter) else k
  }

  function Feed(k: Scanner, s: string): Scanner
    decreases s
  {
    if s == "" then k else Feed(Step(k, s[0]), s[1..])
  }

  function Finish(k: Scanner): Result<seq<string>, SplitError> {
    match k.mode
    case Delimiter => Ok(k.words)
    case Comment => Ok(k.words)
    case Unquoted => Ok(k.words + [k.word])
    case Backslash => Ok(k.words + [k.word + "\\"])
    case UnquotedBackslash => Ok(k.words + [k.word + "\\"])
    case _ => Err(UnclosedQuote)
  }

  function Split(s: string): Result<seq<string>, SplitError> {
    Finish(Feed(Scanner(Delimiter, [], ""), s))
  }

  lemma {:induction false} FeedConcat(k: Scanner, s: string, t: string)
    ensures Feed(k, s + t) == Feed(Feed(k, s), t)
    decreases s
  {
    if s == "" {
      assert s + t == t;
    } else {
      assert (s + t)[0] == s[0] && (s + t)[1..] == s[1..] + t;
      FeedConcat(Step(k, s[0]), s[1..], t);
    }
  }

  // ---- quoting ----

  /** Closes the quote, writes an escaped quote, opens the quote again. */
  const ESCAPED_QUOTE := "'\\''"

  /** Single-quote escaping: every `'` is replaced by `'\''`. */
  function Sq(s: string): string {
    if s == "" then "" else (if s[0] == '\'' then ESCAPED_QUOTE else [s[0]]) + Sq(s[1..])
  }

  function Quoted(s: string): string {
    "'" + Sq(s) + "'"
  }

  lemma {:induction false} SqConcat(s: string, t: string)
    ensures Sq(s + t) == Sq(s) + Sq(t)
  {
    if s == "" {
      assert s + t == t;
    } else {
      assert (s + t)[0] == s[0] && (s + t)[1..] == s[1..] + t;
      SqConcat(s[1..], t);
      var head := if s[0] == '\'' then ESCAPED_QUOTE else [s[0]];
      assert head + (Sq(s[1..]) + Sq(t)) == (head + Sq(s[1..])) + Sq(t);
    }
  }

  lemma FeedEscapedQuote(words: seq<string>, word: string)
    ensures Feed(Scanner(SingleQuoted, words, word), ESCAPED_QUOTE) == Scanner(SingleQuoted, words, word + "'")
  {
    var q := ESCAPED_QUOTE;
    assert q[1..] == ['\\', '\'', '\''] && q[1..][1..] == ['\'', '\''] && q[1..][1..][1..] == ['\''];
    var a := Scanner(Unquoted, words, word);
    var b := Scanner(UnquotedBackslash, words, word);
    var c := Scanner(Unquoted, words, word + "'");
    assert Feed(c, ['\'']) == Scanner(SingleQuoted, words, word + "'");
    assert Feed(b, ['\'', '\'']) == Feed(c, ['\'']);
    assert Feed(a, q[1..]) == Feed(b, ['\'', '\'']);
  }

  /** Inside single quotes the escaped text reads back as the text, whatever it contains. */
  lemma {:induction false} FeedSq(words: seq<string>, word: string, s: string)
    ensures Feed(Scanner(SingleQuoted, words, word), Sq(s)) == Scanner(SingleQuoted, words, word + s)
    decreases s
  {
    var k := Scanner(SingleQuoted, words, word);
    if s == "" {
      assert word + s == word;
    } else {
      var head := if s[0] == '\'' then ESCAPED_QUOTE else [s[0]];
      FeedConcat(k, head, Sq(s[1..]));
      var next := Scanner(SingleQuoted, words, word + [s[0]]);
      assert Feed(k, head) == next by {
        if s[0] == '\'' {
          FeedEscapedQuote(words, word);
          assert word + "'" == word + [s[0]];
        } else {
          assert Feed(k, [s[0]]) == Feed(next, [s[0]][1..]);
        }
      }
      FeedSq(words, word + [s[0]], s[1..]);
      assert word + [s[0]] + s[1..] == word + s;
    }
  }

  lemma FeedQuoted(words: seq<string>, s: string)
    ensures Feed(Scanner(Delimiter, words, ""), Quoted(s)) == Scanner(Unquoted, words, s)
  {
    var k := Scanner(Delimiter, words, "");
    var open := Scanner(SingleQuoted, words, "");
    FeedConcat(k, "'" + Sq(s), "'");
    FeedConcat(k, "'", Sq(s));
    FeedOne(k, '\'');
    FeedSq(words, "", s);
    assert "" + s == s;
    FeedOne(Scanner(SingleQuoted, words, s), '\'');
  }

  lemma FeedOne(k: Scanner, c: char)
    ensures Feed(k, [c]) == Step(k, c)
  {
    assert [c][1..] == "";
    assert Feed(Step(k, c), "") == Step(k, c);
  }

  /** A quoted word, alone on a line, is exactly that word: for every text at all. */
  lemma QuotedIsOneWord(s: string)
    ensures Split(Quoted(s)) == Ok([s])
  {
    FeedQuoted([], s);
    assert [] + [s] == [s];
  }

  // ---- bare words and line continuations ----

  predicate PlainChar(c: char) {
    c != '\'' && c != '"' && c != '\\' && c != '#' && !IsBlank(c)
  }

  predicate Plain(s: string) {
    s != "" && forall i | 0 <= i < |s| :: PlainChar(s[i])
  }

  lemma {:induction false} FeedUnquoted(words: seq<string>, word: string, s: string)
    requires forall i | 0 <= i < |s| :: PlainChar(s[i])
    ensures Feed(Scanner(Unquoted, words, word), s) == Scanner(Unquoted, words, word + s)
    decreases s
  {
    if s == "" {
      assert word + s == word;
    } else {
      FeedUnquoted(words, word + [s[0]], s[1..]);
      assert word + [s[0]] + s[1..] == word + s;
    }
  }

  lemma FeedPlain(words: seq<string>, s: string)
    requires Plain(s)
    ensures Feed(Scanner(Delimiter, words, ""), s) == Scanner(Unquoted, words, s)
  {
    assert PlainChar(s[0]) && "" + [s[0]] == [s[0]];
    assert Step(Scanner(Delimiter, words, ""), s[0]) == Scanner(Unquoted, words, [s[0]]);
    FeedUnquoted(words, [s[0]], s[1..]);
    assert [s[0]] + s[1..] == s;
  }

  /** A blank, an escaped newline and indentation: what separates the printed options. */
  const CONTINUATION := " \\\n     "

  lemma FeedContinuation(words: seq<string>, word: string)
    ensures Feed(Scanner(Unquoted, words, word), CONTINUATION) == Scanner(Delimiter, words + [word], "")
  {
    assert CONTINUATION == [' '] + (['\\'] + (['\n'] + "     "));
    FeedBreak(words, word, "     ");
    FeedBlanks(Scanner(Delimiter, words + [word], ""), "     ");
  }

  lemma FeedHead(k: Scanner, c: char, tail: string)
    ensures Feed(k, [c] + tail) == Feed(Step(k, c), tail)
  {
    assert ([c] + tail)[1..] == tail;
  }

  /** A blank ends the word, and a backslash takes the end of the line away. */
  lemma FeedBreak(words: seq<string>, word: string, tail: string)
    ensures Feed(Scanner(Unquoted, words, word), [' '] + (['\\'] + (['\n'] + tail)))
         == Feed(Scanner(Delimiter, words + [word], ""), tail)
  {
    FeedHead(Scanner(Unquoted, words, word), ' ', ['\\'] + (['\n'] + tail));
    FeedHead(Scanner(Delimiter, words + [word], ""), '\\', ['\n'] + tail);
    FeedHead(Scanner(Backslash, words + [word], ""), '\n', tail);
  }

  lemma {:induction false} FeedBlanks(k: Scanner, s: string)
    requires k.mode == Delimiter && forall i | 0 <= i < |s| :: s[i] == ' '
    ensures Feed(k, s) == k
  {
    if s != "" {
      FeedBlanks(k, s[1..]);
    }
  }
}
