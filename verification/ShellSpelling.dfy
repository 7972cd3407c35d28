/** Every way to write a word by the quoting rules of the POSIX Shell Command Language, section 2.2, and
    that the splitter reads each of them as the word it stands for. */
module ShellSpelling {
  import opened Wrappers
  import opened ShellWords
  import T = Text

  // ---- what stands between double quotes ----

  /** A character that stands for itself, an escaped one, a backslash that stands for itself with the
      character behind it, or an escaped end of line. */
  datatype Inner = Char(c: char) | Escaped(c: char) | Kept(c: char) | Joined

  predicate Escapable(c: char) {
    c == '$' || c == '`' || c == '"' || c == '\\'
  }

  predicate InnerOk(x: Inner) {
    match x
    case Char(c) => c != '"' && c != '\\'
    case Escaped(c) => Escapable(c)
    case Kept(c) => !Escapable(c) && c != '\n'
    case Joined => true
  }

  function InnerText(x: Inner): string {
    match x
    case Char(c) => [c]
    case Escaped(c) => ['\\'] + [c]
    case Kept(c) => ['\\'] + [c]
    case Joined => ['\\'] + ['\n']
  }

  function InnerValue(x: Inner): string {
    match x
    case Char(c) => [c]
    case Escaped(c) => [c]
    case Kept(c) => ['\\', c]
    case Joined => ""
  }

  function InnerTexts(xs: seq<Inner>): string {
    if xs == [] then "" else InnerText(xs[0]) + InnerTexts(xs[1..])
  }

  function InnerValues(xs: seq<Inner>): string {
    if xs == [] then "" else InnerValue(xs[0]) + InnerValues(xs[1..])
  }

  lemma FeedTwo(k: Scanner, c: char, d: char)
    ensures Feed(k, [c] + [d]) == Step(Step(k, c), d)
  {
    FeedHead(k, c, [d]);
    FeedOne(Step(k, c), d);
  }

  lemma FeedInner(words: seq<string>, word: string, x: Inner)
    requires InnerOk(x)
    ensures Feed(Scanner(DoubleQuoted, words, word), InnerText(x)) == Scanner(DoubleQuoted, words, word + InnerValue(x))
  {
    var k := Scanner(DoubleQuoted, words, word);
    match x {
      case Char(c) => FeedOne(k, c);
      case Escaped(c) => FeedTwo(k, '\\', c);
      case Kept(c) => FeedTwo(k, '\\', c);
      case Joined =>
        FeedTwo(k, '\\', '\n');
        assert word + "" == word;
    }
  }

  lemma {:induction false} FeedInners(words: seq<string>, word: string, xs: seq<Inner>)
    requires forall i | 0 <= i < |xs| :: InnerOk(xs[i])
    ensures Feed(Scanner(DoubleQuoted, words, word), InnerTexts(xs)) == Scanner(DoubleQuoted, words, word + InnerValues(xs))
    decreases |xs|
  {
    if xs == [] {
      assert word + "" == word;
    } else {
      FeedConcat(Scanner(DoubleQuoted, words, word), InnerText(xs[0]), InnerTexts(xs[1..]));
      FeedInner(words, word, xs[0]);
      FeedInners(words, word + InnerValue(xs[0]), xs[1..]);
      T.Associative(word, InnerValue(xs[0]), InnerValues(xs[1..]));
    }
  }

  // ---- the bits of a word ----

  /** A bare character, an escaped one, a single-quoted or double-quoted stretch, or an escaped end of line. */
  datatype Bit = Bare(c: char) | Slashed(c: char) | Single(s: string) | Double(xs: seq<Inner>) | Break

  predicate BitOk(b: Bit) {
    match b
    case Bare(c) => c != '\'' && c != '"' && c != '\\' && c != ' ' && c != '\t' && c != '\n'
    case Slashed(c) => c != '\n'
    case Single(s) => '\'' !in s
    case Double(xs) => forall i | 0 <= i < |xs| :: InnerOk(xs[i])
    case Break => true
  }

  function BitText(b: Bit): string {
    match b
    case Bare(c) => [c]
    case Slashed(c) => ['\\'] + [c]
    case Single(s) => ['\''] + (s + ['\''])
    case Double(xs) => ['"'] + (InnerTexts(xs) + ['"'])
    case Break => ['\\'] + ['\n']
  }

  function BitValue(b: Bit): string {
    match b
    case Bare(c) => [c]
    case Slashed(c) => [c]
    case Single(s) => s
    case Double(xs) => InnerValues(xs)
    case Break => ""
  }

  lemma {:induction false} FeedSingle(words: seq<string>, word: string, s: string)
    requires '\'' !in s
    ensures Feed(Scanner(SingleQuoted, words, word), s) == Scanner(SingleQuoted, words, word + s)
    decreases s
  {
    if s == "" {
      assert word + s == word;
    } else {
      FeedSingle(words, word + [s[0]], s[1..]);
      assert word + [s[0]] + s[1..] == word + s;
    }
  }

  lemma FeedQuotedStretch(k: Scanner, words: seq<string>, word: string, s: string)
    requires (k.mode == Delimiter || k.mode == Unquoted) && k.words == words && k.word == word && '\'' !in s
    ensures Feed(k, BitText(Single(s))) == Scanner(Unquoted, words, word + s)
  {
    FeedHead(k, '\'', s + ['\'']);
    FeedConcat(Scanner(SingleQuoted, words, word), s, ['\'']);
    FeedSingle(words, word, s);
    FeedOne(Scanner(SingleQuoted, words, word + s), '\'');
  }

  lemma FeedDoubleStretch(k: Scanner, words: seq<string>, word: string, xs: seq<Inner>)
    requires (k.mode == Delimiter || k.mode == Unquoted) && k.words == words && k.word == word
    requires forall i | 0 <= i < |xs| :: InnerOk(xs[i])
    ensures Feed(k, BitText(Double(xs))) == Scanner(Unquoted, words, word + InnerValues(xs))
  {
    FeedHead(k, '"', InnerTexts(xs) + ['"']);
    FeedConcat(Scanner(DoubleQuoted, words, word), InnerTexts(xs), ['"']);
    FeedInners(words, word, xs);
    FeedOne(Scanner(DoubleQuoted, words, word + InnerValues(xs)), '"');
  }

  /** Inside a word a bit adds what it stands for. */
  lemma FeedBit(words: seq<string>, word: string, b: Bit)
    requires BitOk(b)
    ensures Feed(Scanner(Unquoted, words, word), BitText(b)) == Scanner(Unquoted, words, word + BitValue(b))
  {
    var k := Scanner(Unquoted, words, word);
    match b {
      case Bare(c) => FeedOne(k, c);
      case Slashed(c) => FeedTwo(k, '\\', c);
      case Single(s) => FeedQuotedStretch(k, words, word, s);
      case Double(xs) => FeedDoubleStretch(k, words, word, xs);
      case Break =>
        FeedTwo(k, '\\', '\n');
        assert word + "" == word;
    }
  }

  /** A word can begin with any bit but an escaped end of line and a bare `#`. */
  predicate Begins(b: Bit) {
    !b.Break? && b != Bare('#')
  }

  lemma FeedFirstBit(words: seq<string>, b: Bit)
    requires BitOk(b) && Begins(b)
    ensures Feed(Scanner(Delimiter, words, ""), BitText(b)) == Scanner(Unquoted, words, BitValue(b))
  {
    var k := Scanner(Delimiter, words, "");
    match b {
      case Bare(c) =>
        FeedOne(k, c);
        assert "" + [c] == [c];
      case Slashed(c) =>
        FeedTwo(k, '\\', c);
        assert "" + [c] == [c];
      case Single(s) =>
        FeedQuotedStretch(k, words, "", s);
        assert "" + s == s;
      case Double(xs) =>
        FeedDoubleStretch(k, words, "", xs);
        assert "" + InnerValues(xs) == InnerValues(xs);
    }
  }

  predicate WordOk(bits: seq<Bit>) {
    bits != [] && Begins(bits[0]) && forall i | 0 <= i < |bits| :: BitOk(bits[i])
  }

  function Spelled(bits: seq<Bit>): string {
    if bits == [] then "" else BitText(bits[0]) + Spelled(bits[1..])
  }

  function Meant(bits: seq<Bit>): string {
    if bits == [] then "" else BitValue(bits[0]) + Meant(bits[1..])
  }

  lemma {:induction false} FeedBits(words: seq<string>, word: string, bits: seq<Bit>)
    requires forall i | 0 <= i < |bits| :: BitOk(bits[i])
    ensures Feed(Scanner(Unquoted, words, word), Spelled(bits)) == Scanner(Unquoted, words, word + Meant(bits))
    decreases |bits|
  {
    if bits == [] {
      assert word + "" == word;
    } else {
      FeedConcat(Scanner(Unquoted, words, word), BitText(bits[0]), Spelled(bits[1..]));
      FeedBit(words, word, bits[0]);
      FeedBits(words, word + BitValue(bits[0]), bits[1..]);
      T.Associative(word, BitValue(bits[0]), Meant(bits[1..]));
    }
  }

  lemma FeedWhole(words: seq<string>, bits: seq<Bit>)
    requires WordOk(bits)
    ensures Feed(Scanner(Delimiter, words, ""), Spelled(bits)) == Scanner(Unquoted, words, Meant(bits))
  {
    FeedConcat(Scanner(Delimiter, words, ""), BitText(bits[0]), Spelled(bits[1..]));
    FeedFirstBit(words, bits[0]);
    FeedBits(words, BitValue(bits[0]), bits[1..]);
  }

  // ---- what stands between words ----

  /** A blank, an escaped end of line, or a comment with the end of its line. */
  datatype Gap = Blank(c: char) | Fold | Line(text: string)

  predicate GapOk(g: Gap) {
    match g
    case Blank(c) => c == ' ' || c == '\t' || c == '\n'
    case Fold => true
    case Line(text) => '\n' !in text
  }

  function GapText(g: Gap): string {
    match g
    case Blank(c) => [c]
    case Fold => ['\\'] + ['\n']
    case Line(text) => ['#'] + (text + ['\n'])
  }

  function GapTexts(gaps: seq<Gap>): string {
    if gaps == [] then "" else GapText(gaps[0]) + GapTexts(gaps[1..])
  }

  lemma {:induction false} FeedComment(words: seq<string>, text: string)
    requires '\n' !in text
    ensures Feed(Scanner(Comment, words, ""), text) == Scanner(Comment, words, "")
    decreases text
  {
    if text != "" {
      FeedComment(words, text[1..]);
    }
  }

  lemma FeedGap(words: seq<string>, g: Gap)
    requires GapOk(g)
    ensures Feed(Scanner(Delimiter, words, ""), GapText(g)) == Scanner(Delimiter, words, "")
  {
    var k := Scanner(Delimiter, words, "");
    match g {
      case Blank(c) => FeedOne(k, c);
      case Fold => FeedTwo(k, '\\', '\n');
      case Line(text) =>
        FeedHead(k, '#', text + ['\n']);
        FeedConcat(Scanner(Comment, words, ""), text, ['\n']);
        FeedComment(words, text);
        FeedOne(Scanner(Comment, words, ""), '\n');
    }
  }

  lemma {:induction false} FeedGaps(words: seq<string>, gaps: seq<Gap>)
    requires forall i | 0 <= i < |gaps| :: GapOk(gaps[i])
    ensures Feed(Scanner(Delimiter, words, ""), GapTexts(gaps)) == Scanner(Delimiter, words, "")
    decreases |gaps|
  {
    if gaps != [] {
      FeedConcat(Scanner(Delimiter, words, ""), GapText(gaps[0]), GapTexts(gaps[1..]));
      FeedGap(words, gaps[0]);
      FeedGaps(words, gaps[1..]);
    }
  }

  /** Behind a word a gap begins with a blank. */
  predicate Separates(gaps: seq<Gap>) {
    gaps != [] && gaps[0].Blank? && forall i | 0 <= i < |gaps| :: GapOk(gaps[i])
  }

  lemma FeedSeparator(words: seq<string>, word: string, gaps: seq<Gap>)
    requires Separates(gaps)
    ensures Feed(Scanner(Unquoted, words, word), GapTexts(gaps)) == Scanner(Delimiter, words + [word], "")
  {
    FeedConcat(Scanner(Unquoted, words, word), GapText(gaps[0]), GapTexts(gaps[1..]));
    FeedOne(Scanner(Unquoted, words, word), gaps[0].c);
    FeedGaps(words + [word], gaps[1..]);
  }

  // ---- whole lines ----

  /** A word with the gap behind it. */
  datatype Item = Item(bits: seq<Bit>, gap: seq<Gap>)

  predicate ItemOk(x: Item) {
    WordOk(x.bits) && Separates(x.gap)
  }

  function LineText(items: seq<Item>): string {
    if items == [] then "" else Spelled(items[0].bits) + (GapTexts(items[0].gap) + LineText(items[1..]))
  }

  function LineWords(items: seq<Item>): seq<string> {
    if items == [] then [] else [Meant(items[0].bits)] + LineWords(items[1..])
  }

  lemma {:induction false} FeedLine(words: seq<string>, items: seq<Item>)
    requires forall i | 0 <= i < |items| :: ItemOk(items[i])
    ensures Feed(Scanner(Delimiter, words, ""), LineText(items)) == Scanner(Delimiter, words + LineWords(items), "")
    decreases |items|
  {
    if items == [] {
      assert words + [] == words;
    } else {
      var x, rest := items[0], LineText(items[1..]);
      assert ItemOk(x);
      var word := Meant(x.bits);
      FeedConcat(Scanner(Delimiter, words, ""), Spelled(x.bits), GapTexts(x.gap) + rest);
      FeedWhole(words, x.bits);
      FeedConcat(Scanner(Unquoted, words, word), GapTexts(x.gap), rest);
      FeedSeparator(words, word, x.gap);
      FeedLine(words + [word], items[1..]);
      T.Associative(words, [word], LineWords(items[1..]));
    }
  }

  /** How a line can end behind its gaps: at once, with a last word, or with a comment. */
  datatype End = Nothing | LastWord(bits: seq<Bit>) | LastComment(text: string)

  predicate EndOk(end: End) {
    match end
    case Nothing => true
    case LastWord(bits) => WordOk(bits)
    case LastComment(text) => '\n' !in text
  }

  function EndText(end: End): string {
    match end
    case Nothing => ""
    case LastWord(bits) => Spelled(bits)
    case LastComment(text) => ['#'] + text
  }

  function EndWords(end: End): seq<string> {
    if end.LastWord? then [Meant(end.bits)] else []
  }

  lemma SplitParts(before: seq<Gap>, items: seq<Item>, end: string)
    requires forall i | 0 <= i < |before| :: GapOk(before[i])
    requires forall i | 0 <= i < |items| :: ItemOk(items[i])
    ensures Split(GapTexts(before) + (LineText(items) + end)) == Finish(Feed(Scanner(Delimiter, LineWords(items), ""), end))
  {
    var k := Scanner(Delimiter, [], "");
    FeedConcat(k, GapTexts(before), LineText(items) + end);
    FeedGaps([], before);
    FeedConcat(k, LineText(items), end);
    FeedLine([], items);
    assert [] + LineWords(items) == LineWords(items);
  }

  /** However the words of a line are quoted, and whatever blanks, comments and folded lines stand before, between
      and behind them, the line is split into exactly the words that are meant. */
  lemma LineIsRead(before: seq<Gap>, items: seq<Item>, end: End)
    requires forall i | 0 <= i < |before| :: GapOk(before[i])
    requires (forall i | 0 <= i < |items| :: ItemOk(items[i])) && EndOk(end)
    ensures Split(GapTexts(before) + (LineText(items) + EndText(end))) == Ok(LineWords(items) + EndWords(end))
  {
    SplitParts(before, items, EndText(end));
    var words := LineWords(items);
    match end {
      case Nothing => assert words + [] == words;
      case LastWord(bits) => FeedWhole(words, bits);
      case LastComment(text) =>
        FeedHead(Scanner(Delimiter, words, ""), '#', text);
        FeedComment(words, text);
        assert words + [] == words;
    }
  }

  lemma OpenSingleQuote(words: seq<string>, s: string)
    requires '\'' !in s
    ensures Finish(Feed(Scanner(Delimiter, words, ""), ['\''] + s)) == Err(UnclosedQuote)
  {
    FeedHead(Scanner(Delimiter, words, ""), '\'', s);
    FeedSingle(words, "", s);
  }

  lemma OpenDoubleQuote(words: seq<string>, xs: seq<Inner>)
    requires forall i | 0 <= i < |xs| :: InnerOk(xs[i])
    ensures Finish(Feed(Scanner(Delimiter, words, ""), ['"'] + InnerTexts(xs))) == Err(UnclosedQuote)
  {
    FeedHead(Scanner(Delimiter, words, ""), '"', InnerTexts(xs));
    FeedInners(words, "", xs);
  }

  /** A line with a quote that is not closed is refused. */
  lemma OpenQuoteIsRefused(before: seq<Gap>, items: seq<Item>, s: string, xs: seq<Inner>)
    requires forall i | 0 <= i < |before| :: GapOk(before[i])
    requires (forall i | 0 <= i < |items| :: ItemOk(items[i])) && '\'' !in s && forall i | 0 <= i < |xs| :: InnerOk(xs[i])
    ensures Split(GapTexts(before) + (LineText(items) + (['\''] + s))) == Err(UnclosedQuote)
    ensures Split(GapTexts(before) + (LineText(items) + (['"'] + InnerTexts(xs)))) == Err(UnclosedQuote)
  {
    SplitParts(before, items, ['\''] + s);
    OpenSingleQuote(LineWords(items), s);
    SplitParts(before, items, ['"'] + InnerTexts(xs));
    OpenDoubleQuote(LineWords(items), xs);
  }

  /** A backslash that ends the line stands for itself. */
  lemma LastBackslashIsKept(before: seq<Gap>, items: seq<Item>, bits: seq<Bit>)
    requires forall i | 0 <= i < |before| :: GapOk(before[i])
    requires (forall i | 0 <= i < |items| :: ItemOk(items[i])) && (bits == [] || WordOk(bits))
    ensures Split(GapTexts(before) + (LineText(items) + (Spelled(bits) + ['\\']))) == Ok(LineWords(items) + [Meant(bits) + "\\"])
  {
    var words := LineWords(items);
    var k := Scanner(Delimiter, words, "");
    SplitParts(before, items, Spelled(bits) + ['\\']);
    FeedConcat(k, Spelled(bits), ['\\']);
    if bits == [] {
      FeedOne(k, '\\');
    } else {
      FeedWhole(words, bits);
      FeedOne(Scanner(Unquoted, words, Meant(bits)), '\\');
    }
  }
}
