/** Printing a Digest challenge by RFC 7616 section 3.3, and what the parser makes of it. */
module DigestRoundTrip {
  import opened Wrappers
  import opened DigestChallenge
  import T = Text

  // ---- printing ----

  /** Quoted-string escaping: a backslash before every `"` and every backslash (RFC 9110 section 5.6.4). */
  function Escape(v: string): string {
    if v == "" then ""
    else (if v[0] == '"' || v[0] == '\\' then ['\\', v[0]] else [v[0]]) + Escape(v[1..])
  }

  function Quote(v: string): string {
    "\"" + Escape(v) + "\""
  }

  function Param(name: string, text: string): string {
    name + "=" + text
  }

  function Params(c: Challenge): seq<string> {
    StartParams(c) + OpaqueParam(c) + QopParam(c) + TokenParams(c)
  }

  function StartParams(c: Challenge): seq<string> {
    [Param("realm", Quote(c.realm)), Param("nonce", Quote(c.nonce))]
  }

  function OpaqueParam(c: Challenge): seq<string> {
    if c.opaque_.Some? then [Param("opaque", Quote(c.opaque_.value))] else []
  }

  function QopParam(c: Challenge): seq<string> {
    if c.qop != [] then [Param("qop", Quote(T.Join(c.qop, ",")))] else []
  }

  function TokenParams(c: Challenge): seq<string> {
    [Param("algorithm", c.algorithm), Param("userhash", if c.userhash then "true" else "false")]
  }

  function Print(scheme: string, c: Challenge): string {
    scheme + " " + T.Join(Params(c), ", ")
  }

  // ---- values ----

  /** Each backslash twice. */
  function Doubled(v: string): string {
    if v == "" then "" else (if v[0] == '\\' then ['\\', '\\'] else [v[0]]) + Doubled(v[1..])
  }

  function Backslashes(v: string): nat {
    if v == "" then 0 else (if v[0] == '\\' then 1 else 0) + Backslashes(v[1..])
  }

  lemma {:induction false} BackslashesCount(v: string)
    ensures Backslashes(v) == 0 <==> '\\' !in v
  {
    if v != "" {
      BackslashesCount(v[1..]);
      assert v == [v[0]] + v[1..];
    }
  }

  lemma {:induction false} DoubledLength(v: string)
    ensures |Doubled(v)| == |v| + Backslashes(v)
  {
    if v != "" {
      DoubledLength(v[1..]);
    }
  }

  lemma {:induction false} NothingToDouble(v: string)
    requires '\\' !in v
    ensures Doubled(v) == v
  {
    if v != "" {
      NothingToDouble(v[1..]);
      assert [v[0]] + v[1..] == v;
    }
  }

  lemma DoubledIff(v: string)
    ensures Doubled(v) == v <==> '\\' !in v
  {
    DoubledLength(v);
    BackslashesCount(v);
    if '\\' !in v { NothingToDouble(v); }
  }

  lemma UnescapePlain(c: char, rest: string)
    requires c != '\\' || rest == "" || rest[0] != '"'
    ensures Unescape([c] + rest) == [c] + Unescape(rest)
  {
    assert ([c] + rest)[1..] == rest;
  }

  lemma UnescapePair(rest: string)
    ensures Unescape(['\\', '"'] + rest) == ['"'] + Unescape(rest)
  {
    assert (['\\', '"'] + rest)[2..] == rest;
  }

  lemma UnescapeTwo(rest: string)
    requires rest == "" || rest[0] != '"'
    ensures Unescape(['\\', '\\'] + rest) == ['\\', '\\'] + Unescape(rest)
  {
    UnescapePlain('\\', rest);
    UnescapePlain('\\', ['\\'] + rest);
    assert ['\\', '\\'] + rest == ['\\'] + (['\\'] + rest);
    assert ['\\'] + (['\\'] + Unescape(rest)) == ['\\', '\\'] + Unescape(rest);
  }

  /** The parser undoes `\"` but not `\\`: each backslash of the value comes back doubled. */
  lemma {:induction false} UnescapeOfEscape(v: string)
    ensures Unescape(Escape(v)) == Doubled(v)
  {
    if v != "" {
      var rest := Escape(v[1..]);
      UnescapeOfEscape(v[1..]);
      if v[0] == '"' {
        UnescapePair(rest);
      } else if v[0] == '\\' {
        EscapeStart(v[1..]);
        UnescapeTwo(rest);
      } else {
        UnescapePlain(v[0], rest);
      }
    }
  }

  lemma EscapeStart(v: string)
    ensures Escape(v) == "" || Escape(v)[0] != '"'
  {
  }

  lemma UnquoteOfQuote(v: string)
    ensures Unquote(Quote(v)) == Doubled(v)
  {
    UnescapeOfEscape(v);
    var t := Quote(v);
    assert t[0] == '"' && t[|t| - 1] == '"' && t[1..|t| - 1] == Escape(v);
    NothingToTrim(t);
  }

  lemma NothingToTrim(s: string)
    requires s != "" && !T.IsWhitespace(s[0]) && !T.IsWhitespace(s[|s| - 1])
    ensures T.Trim(s) == s
  {
  }

  /** A quoted value is read back if and only if it holds no backslash. */
  lemma QuotedValueSurvives(v: string)
    ensures Unquote(Quote(v)) == v <==> '\\' !in v
  {
    UnquoteOfQuote(v);
    DoubledIff(v);
  }

  // ---- a printed parameter stays in one piece ----

  predicate PlainName(name: string) {
    name != "" && forall i | 0 <= i < |name| :: 'a' <= name[i] <= 'z'
  }

  /** Neither the segment scan nor the splitter stops inside the text, and no scheme begins with it. */
  ghost predicate Solid(text: string) {
    Framed(text) && ScannedOver(text) && KeptWhole(text) && OpensNothing(text)
  }

  predicate Framed(text: string) {
    text != "" && !T.IsWhitespace(text[0]) && !T.IsWhitespace(text[|text| - 1])
  }

  ghost predicate ScannedOver(text: string) {
    forall b :: Extent(false, false, text + b) == |text| + Extent(false, false, b)
  }

  ghost predicate KeptWhole(text: string) {
    forall parts, cur ::
      SplitFeed(Splitter(parts, cur, false, false), text) == Splitter(parts, cur + text, false, false)
  }

  ghost predicate OpensNothing(text: string) {
    forall b :: !OpensScheme(" " + (text + b))
  }

  predicate Unmarked(s: string) {
    forall i | 0 <= i < |s| :: s[i] != '"' && s[i] != ',' && s[i] != '\\'
  }

  lemma {:induction false} ExtentThroughPlain(s: string, b: string)
    requires Unmarked(s)
    ensures Extent(false, false, s + b) == |s| + Extent(false, false, b)
  {
    if s == "" {
      assert s + b == b;
    } else {
      assert (s + b)[0] == s[0] && (s + b)[1..] == s[1..] + b;
      ExtentThroughPlain(s[1..], b);
    }
  }

  predicate Unquoted(s: string) {
    forall i | 0 <= i < |s| :: s[i] != '"' && s[i] != ','
  }

  lemma {:induction false} SplitThroughPlain(parts: seq<string>, cur: string, s: string)
    requires Unquoted(s)
    ensures SplitFeed(Splitter(parts, cur, false, false), s) == Splitter(parts, cur + s, false, false)
    decreases s
  {
    if s == "" {
      assert cur + s == cur;
    } else {
      SplitThroughPlain(parts, cur + [s[0]], s[1..]);
      assert cur + [s[0]] + s[1..] == cur + s;
    }
  }

  /** The character before the text is taken into account, and then the one before its end. */
  function EndsOpen(afterBackslash: bool, v: string): bool {
    if v == "" then afterBackslash else v[|v| - 1] == '\\'
  }

  lemma ExtentStep(afterBackslash: bool, c: char, rest: string)
    requires c != '"' || afterBackslash
    ensures Extent(afterBackslash, true, [c] + rest) == 1 + Extent(c == '\\', true, rest)
  {
    assert ([c] + rest)[1..] == rest;
  }

  lemma ExtentOfEscape(afterBackslash: bool, c: char, rest: string)
    ensures Extent(afterBackslash, true, (if c == '"' || c == '\\' then ['\\', c] else [c]) + rest)
         == (if c == '"' || c == '\\' then 2 else 1) + Extent(c == '\\', true, rest)
  {
    if c == '"' || c == '\\' {
      assert ['\\', c] + rest == ['\\'] + ([c] + rest);
      ExtentStep(afterBackslash, '\\', [c] + rest);
      ExtentStep(true, c, rest);
    } else {
      ExtentStep(afterBackslash, c, rest);
    }
  }

  lemma {:induction false} ExtentThroughEscaped(afterBackslash: bool, v: string, b: string)
    ensures Extent(afterBackslash, true, Escape(v) + b) == |Escape(v)| + Extent(EndsOpen(afterBackslash, v), true, b)
    decreases v
  {
    if v == "" {
      assert Escape(v) + b == b;
    } else {
      var head := if v[0] == '"' || v[0] == '\\' then ['\\', v[0]] else [v[0]];
      T.Associative(head, Escape(v[1..]), b);
      ExtentOfEscape(afterBackslash, v[0], Escape(v[1..]) + b);
      ExtentThroughEscaped(v[0] == '\\', v[1..], b);
    }
  }

  lemma {:induction false} SplitThroughEscaped(parts: seq<string>, cur: string, v: string)
    ensures SplitFeed(Splitter(parts, cur, true, false), Escape(v)) == Splitter(parts, cur + Escape(v), true, false)
    decreases v
  {
    if v == "" {
      assert cur + "" == cur;
    } else {
      var head := if v[0] == '"' || v[0] == '\\' then ['\\', v[0]] else [v[0]];
      var k := Splitter(parts, cur, true, false);
      SplitFeedConcat(k, head, Escape(v[1..]));
      SplitThroughHead(parts, cur, v[0]);
      SplitThroughEscaped(parts, cur + head, v[1..]);
      T.Associative(cur, head, Escape(v[1..]));
    }
  }

  lemma SplitThroughHead(parts: seq<string>, cur: string, c: char)
    ensures SplitFeed(Splitter(parts, cur, true, false), if c == '"' || c == '\\' then ['\\', c] else [c])
         == Splitter(parts, cur + (if c == '"' || c == '\\' then ['\\', c] else [c]), true, false)
  {
    var k := Splitter(parts, cur, true, false);
    if c == '"' || c == '\\' {
      assert ['\\', c] == ['\\'] + [c];
      SplitFeedConcat(k, ['\\'], [c]);
      SplitFeedOne(k, '\\');
      SplitFeedOne(SplitStep(k, '\\'), c);
      T.Associative(cur, ['\\'], [c]);
    } else {
      SplitFeedOne(k, c);
    }
  }

  lemma SplitFeedOne(k: Splitter, c: char)
    ensures SplitFeed(k, [c]) == SplitStep(k, c)
  {
    assert [c][1..] == "";
    assert SplitFeed(SplitStep(k, c), "") == SplitStep(k, c);
  }

  lemma ExtentThroughQuoted(v: string, b: string)
    requires !EndsOpen(false, v)
    ensures Extent(false, false, Quote(v) + b) == |Quote(v)| + Extent(false, false, b)
  {
    var s := Quote(v) + b;
    var inner := Escape(v) + ("\"" + b);
    assert s[0] == '"' && s[1..] == inner;
    ExtentThroughEscaped(false, v, "\"" + b);
    assert ("\"" + b)[0] == '"' && ("\"" + b)[1..] == b;
    assert Extent(false, true, "\"" + b) == 1 + Extent(false, false, b);
  }

  lemma SplitThroughQuoted(parts: seq<string>, cur: string, v: string)
    ensures SplitFeed(Splitter(parts, cur, false, false), Quote(v)) == Splitter(parts, cur + Quote(v), false, false)
  {
    var k := Splitter(parts, cur, false, false);
    var open := ['"'] + Escape(v);
    SplitOpened(parts, cur, v);
    SplitFeedConcat(k, open, ['"']);
    SplitFeedOne(Splitter(parts, cur + open, true, false), '"');
    T.Associative(cur, open, ['"']);
    assert Quote(v) == open + ['"'];
  }

  lemma SplitOpened(parts: seq<string>, cur: string, v: string)
    ensures SplitFeed(Splitter(parts, cur, false, false), ['"'] + Escape(v))
         == Splitter(parts, cur + (['"'] + Escape(v)), true, false)
  {
    var k := Splitter(parts, cur, false, false);
    SplitFeedConcat(k, ['"'], Escape(v));
    SplitFeedOne(k, '"');
    SplitThroughEscaped(parts, cur + ['"'], v);
    T.Associative(cur, ['"'], Escape(v));
  }

  /** `name=` before anything keeps a comma's lookahead from taking it for a scheme. */
  lemma NamedTextOpensNothing(name: string, rest: string)
    requires PlainName(name)
    ensures !OpensScheme(" " + (name + "=" + rest))
  {
    var t := name + "=" + rest;
    var ahead := " " + t;
    assert ahead[0] == ' ' && ahead[1..] == t;
    assert !T.IsWhitespace(t[0]) by { assert t[0] == name[0]; }
    assert T.TrimStart(ahead) == t;
    FirstBlankAfter(name + "=", rest);
    if FirstBlank(t).Some? {
      var token := t[..FirstBlank(t).value];
      assert token[|name|] == '=';
    }
  }

  lemma {:induction false} FirstBlankAfter(s: string, rest: string)
    requires forall i | 0 <= i < |s| :: s[i] != ' ' && s[i] != '\t'
    ensures FirstBlank(s + rest).Some? ==> FirstBlank(s + rest).value >= |s|
  {
    if s != "" {
      assert (s + rest)[0] == s[0] && (s + rest)[1..] == s[1..] + rest;
      FirstBlankAfter(s[1..], rest);
    }
  }

  lemma QuotedParamIsSolid(name: string, v: string)
    requires PlainName(name) && !EndsOpen(false, v)
    ensures Solid(Param(name, Quote(v)))
  {
    var text := Param(name, Quote(v));
    QuotedParamIsScanned(name, v);
    QuotedParamIsKept(name, v);
    NamedTextOpens(name, Quote(v));
    assert text[0] == name[0] && text[|text| - 1] == '"';
  }

  lemma QuotedParamIsScanned(name: string, v: string)
    requires PlainName(name) && !EndsOpen(false, v)
    ensures ScannedOver(Param(name, Quote(v)))
  {
    var text := Param(name, Quote(v));
    var lead := name + "=";
    forall b ensures Extent(false, false, text + b) == |text| + Extent(false, false, b) {
      T.Associative(lead, Quote(v), b);
      ExtentThroughPlain(lead, Quote(v) + b);
      ExtentThroughQuoted(v, b);
    }
  }

  lemma QuotedParamIsKept(name: string, v: string)
    requires PlainName(name)
    ensures KeptWhole(Param(name, Quote(v)))
  {
    var text := Param(name, Quote(v));
    var lead := name + "=";
    forall parts, cur
      ensures SplitFeed(Splitter(parts, cur, false, false), text) == Splitter(parts, cur + text, false, false)
    {
      SplitFeedConcat(Splitter(parts, cur, false, false), lead, Quote(v));
      SplitThroughPlain(parts, cur, lead);
      SplitThroughQuoted(parts, cur + lead, v);
      T.Associative(cur, lead, Quote(v));
    }
  }

  lemma NamedTextOpens(name: string, text: string)
    requires PlainName(name)
    ensures OpensNothing(Param(name, text))
  {
    forall b ensures !OpensScheme(" " + (Param(name, text) + b)) {
      NamedTextOpensNothing(name, text + b);
      T.Associative(name + "=", text, b);
    }
  }

  lemma TokenParamIsSolid(name: string, token: string)
    requires PlainName(name) && IsToken(token)
    ensures Solid(Param(name, token))
  {
    var text := Param(name, token);
    assert Unmarked(text);
    forall b ensures Extent(false, false, text + b) == |text| + Extent(false, false, b) {
      ExtentThroughPlain(text, b);
    }
    forall parts, cur
      ensures SplitFeed(Splitter(parts, cur, false, false), text) == Splitter(parts, cur + text, false, false)
    {
      SplitThroughPlain(parts, cur, text);
    }
    NamedTextOpens(name, token);
    assert text[0] == name[0] && text[|text| - 1] == token[|token| - 1];
  }

  // ---- the printed list ----

  ghost predicate AllSolid(texts: seq<string>) {
    forall i | 0 <= i < |texts| :: Solid(texts[i])
  }

  ghost predicate Kept(text: string) {
    Framed(text) && KeptWhole(text)
  }

  ghost predicate AllKept(texts: seq<string>) {
    forall i | 0 <= i < |texts| :: Kept(texts[i])
  }

  /** What may follow the challenge: nothing, or a comma and another scheme. */
  predicate Follows(suffix: string) {
    suffix == "" || (suffix[0] == ',' && OpensScheme(suffix[1..]))
  }

  lemma {:induction false} ExtentOfList(texts: seq<string>, suffix: string)
    requires texts != [] && AllSolid(texts) && Follows(suffix)
    ensures Extent(false, false, T.Join(texts, ", ") + suffix) == |T.Join(texts, ", ")|
  {
    var first := texts[0];
    assert ScannedOver(first) by { assert Solid(first); }
    if |texts| == 1 {
      assert Extent(false, false, suffix) == 0;
    } else {
      var rest := texts[1..];
      var list := T.Join(rest, ", ");
      ExtentOfList(rest, suffix);
      ListOpensNothing(rest, suffix);
      ExtentOverComma(list + suffix);
      T.Associative(first, ", ", list);
      T.Associative(first, ", " + list, suffix);
      T.Associative(", ", list, suffix);
    }
  }

  lemma ExtentOverComma(s: string)
    requires !OpensScheme(" " + s)
    ensures Extent(false, false, ", " + s) == 2 + Extent(false, false, s)
  {
    var spaced := " " + s;
    assert ", " + s == "," + spaced;
    assert ("," + spaced)[1..] == spaced && spaced[1..] == s;
    assert Extent(false, false, spaced) == 1 + Extent(false, false, s);
  }

  lemma ListOpensNothing(texts: seq<string>, suffix: string)
    requires texts != [] && AllSolid(texts)
    ensures !OpensScheme(" " + (T.Join(texts, ", ") + suffix))
  {
    var first := texts[0];
    assert Solid(first);
    var b := if |texts| == 1 then suffix else ", " + T.Join(texts[1..], ", ") + suffix;
    assert T.Join(texts, ", ") + suffix == first + b;
  }

  lemma {:induction false} SplitOfList(parts: seq<string>, cur: string, texts: seq<string>)
    requires texts != [] && AllKept(texts) && (cur == "" || cur == " ")
    ensures SplitEnd(SplitFeed(Splitter(parts, cur, false, false), T.Join(texts, ", "))) == parts + texts
    decreases texts
  {
    var first, rest := texts[0], texts[1..];
    assert Kept(first);
    assert texts == [first] + rest;
    TrimOfPart(cur, first);
    if rest == [] {
      assert SplitFeed(Splitter(parts, cur, false, false), first) == Splitter(parts, cur + first, false, false);
    } else {
      SplitOverComma(parts, cur, first, T.Join(rest, ", "));
      SplitOfList(parts + [first], " ", rest);
      T.Associative(parts, [first], rest);
    }
  }

  lemma SplitOverComma(parts: seq<string>, cur: string, first: string, list: string)
    requires KeptWhole(first) && T.Trim(cur + first) == first
    ensures SplitFeed(Splitter(parts, cur, false, false), first + ", " + list)
         == SplitFeed(Splitter(parts + [first], " ", false, false), list)
  {
    var k := Splitter(parts, cur, false, false);
    var afterFirst := Splitter(parts, cur + first, false, false);
    var afterComma := Splitter(parts + [first], "", false, false);
    SplitFeedConcat(k, first + ", ", list);
    SplitFeedConcat(k, first, ", ");
    assert ", " == [','] + [' '];
    SplitFeedConcat(afterFirst, [','], [' ']);
    SplitFeedOne(afterFirst, ',');
    SplitFeedOne(afterComma, ' ');
    assert "" + [' '] == " ";
  }

  lemma TrimOfPart(cur: string, text: string)
    requires (cur == "" || cur == " ") && Framed(text)
    ensures T.Trim(cur + text) == text
  {
    if cur == " " {
      assert (cur + text)[0] == ' ' && (cur + text)[1..] == text;
    } else {
      assert cur + text == text;
    }
    assert T.TrimStart(cur + text) == text;
  }

  // ---- reading the parameters back ----

  /** The challenges the format can carry: an algorithm token, quality values without commas, lower-case and trimmed. */
  predicate Printable(c: Challenge) {
    && IsToken(c.algorithm)
    && forall i | 0 <= i < |c.qop| :: PlainQop(c.qop[i])
  }

  predicate PlainQop(item: string) {
    item != "" && ',' !in item && T.LowerAscii(T.Trim(item)) == item
  }

  predicate NoBackslash(c: Challenge) {
    && '\\' !in c.realm && '\\' !in c.nonce
    && (c.opaque_.Some? ==> '\\' !in c.opaque_.value)
    && '\\' !in T.Join(c.qop, ",")
  }

  /** No quoted value ends in a backslash, and the quality values hold none. */
  predicate QuotesClose(c: Challenge) {
    && !EndsOpen(false, c.realm) && !EndsOpen(false, c.nonce)
    && (c.opaque_.Some? ==> !EndsOpen(false, c.opaque_.value))
    && '\\' !in T.Join(c.qop, ",")
  }

  /** What comes back: the backslashes of realm, nonce and opaque are doubled. */
  function AsRead(c: Challenge): Challenge {
    c.(realm := Doubled(c.realm), nonce := Doubled(c.nonce),
       opaque_ := if c.opaque_.Some? then Some(Doubled(c.opaque_.value)) else None)
  }

  lemma ReadParam(f: Fields, name: string, text: string, rest: seq<string>)
    requires PlainName(name)
    ensures ReadFields(f, [Param(name, text)] + rest) == ReadFields(SetField(f, name, text), rest)
  {
    var texts := [Param(name, text)] + rest;
    assert '=' !in name;
    T.SplitOnceAt(name, '=', text);
    assert Param(name, text) == name + ['='] + text;
    NothingToTrim(name);
    assert T.LowerAscii(name) == name;
    assert texts[1..] == rest;
  }

  lemma {:induction false} QopIsRead(items: seq<string>)
    requires forall i | 0 <= i < |items| :: PlainQop(items[i])
    ensures QopItems(items) == items
  {
    if items != [] {
      QopIsRead(items[1..]);
      assert PlainQop(items[0]);
      assert [items[0]] + items[1..] == items;
    }
  }

  lemma QopValue(items: seq<string>)
    requires items != [] && forall i | 0 <= i < |items| :: PlainQop(items[i])
    requires '\\' !in T.Join(items, ",")
    ensures QopItems(T.SplitOn(Unquote(Quote(T.Join(items, ","))), ',')) == items
  {
    QuotedValueSurvives(T.Join(items, ","));
    forall i | 0 <= i < |items| ensures ',' !in items[i] { assert PlainQop(items[i]); }
    assert "," == [','];
    T.SplitInvertsJoin(items, ',');
    QopIsRead(items);
  }

  lemma TokenValue(token: string)
    requires IsToken(token)
    ensures Unquote(token) == token
  {
    assert TokenChar(token[0]) && TokenChar(token[|token| - 1]);
    NothingToTrim(token);
  }

  lemma NamesArePlain()
    ensures PlainName("realm") && PlainName("nonce") && PlainName("opaque")
    ensures PlainName("qop") && PlainName("algorithm") && PlainName("userhash")
  {
  }

  function Stage1(c: Challenge): Fields { NO_FIELDS.(realm := Some(Doubled(c.realm)), nonce := Some(Doubled(c.nonce))) }
  function Stage2(c: Challenge): Fields { Stage1(c).(opaque_ := AsRead(c).opaque_) }
  function Stage3(c: Challenge): Fields { Stage2(c).(qop := c.qop) }
  function Stage4(c: Challenge): Fields { Stage3(c).(algorithm := c.algorithm, userhash := c.userhash) }

  lemma ReadRealmAndNonce(c: Challenge, rest: seq<string>)
    ensures ReadFields(NO_FIELDS, StartParams(c) + rest)
         == ReadFields(Stage1(c), rest)
  {
    NamesArePlain();
    var p, q := Param("realm", Quote(c.realm)), Param("nonce", Quote(c.nonce));
    assert [p, q] + rest == [p] + ([q] + rest);
    UnquoteOfQuote(c.realm);
    UnquoteOfQuote(c.nonce);
    ReadParam(NO_FIELDS, "realm", Quote(c.realm), [q] + rest);
    ReadParam(NO_FIELDS.(realm := Some(Doubled(c.realm))), "nonce", Quote(c.nonce), rest);
  }

  lemma ReadOpaque(c: Challenge, rest: seq<string>)
    ensures ReadFields(Stage1(c), OpaqueParam(c) + rest) == ReadFields(Stage2(c), rest)
  {
    if c.opaque_.Some? {
      NamesArePlain();
      UnquoteOfQuote(c.opaque_.value);
      ReadParam(Stage1(c), "opaque", Quote(c.opaque_.value), rest);
    } else {
      assert [] + rest == rest;
    }
  }

  lemma ReadQop(c: Challenge, rest: seq<string>)
    requires '\\' !in T.Join(c.qop, ",") && Printable(c)
    ensures ReadFields(Stage2(c), QopParam(c) + rest) == ReadFields(Stage3(c), rest)
  {
    if c.qop != [] {
      NamesArePlain();
      QopValue(c.qop);
      ReadParam(Stage2(c), "qop", Quote(T.Join(c.qop, ",")), rest);
    } else {
      assert [] + rest == rest;
    }
  }

  lemma ReadTokens(c: Challenge)
    requires Printable(c)
    ensures ReadFields(Stage3(c), TokenParams(c)) == Some(Stage4(c))
  {
    NamesArePlain();
    var flag := if c.userhash then "true" else "false";
    var p, q := Param("algorithm", c.algorithm), Param("userhash", flag);
    assert [p, q] == [p] + [q] && [q] == [q] + [];
    TokenValue(c.algorithm);
    FlagValue(c.userhash);
    ReadParam(Stage3(c), "algorithm", c.algorithm, [q]);
    ReadParam(Stage3(c).(algorithm := c.algorithm), "userhash", flag, []);
  }

  lemma FlagValue(b: bool)
    ensures IsToken(if b then "true" else "false")
    ensures T.EqIgnoreAsciiCase(Unquote(if b then "true" else "false"), "true") == b
  {
    TokenValue("true");
    TokenValue("false");
  }

  lemma ParamsInOrder(c: Challenge)
    ensures Params(c) == StartParams(c) + (OpaqueParam(c) + (QopParam(c) + TokenParams(c)))
  {
    T.Associative(StartParams(c), OpaqueParam(c), QopParam(c));
    T.Associative(StartParams(c), OpaqueParam(c) + QopParam(c), TokenParams(c));
    T.Associative(OpaqueParam(c), QopParam(c), TokenParams(c));
  }

  lemma ParamsAreRead(c: Challenge)
    requires '\\' !in T.Join(c.qop, ",") && Printable(c)
    ensures ReadFields(NO_FIELDS, Params(c)) == Some(Stage4(c))
  {
    ParamsInOrder(c);
    ReadRealmAndNonce(c, OpaqueParam(c) + (QopParam(c) + TokenParams(c)));
    ReadOpaque(c, QopParam(c) + TokenParams(c));
    ReadQop(c, TokenParams(c));
    ReadTokens(c);
  }

  lemma ParamsAreSolid(c: Challenge)
    requires QuotesClose(c) && Printable(c)
    ensures AllSolid(Params(c))
  {
    NamesArePlain();
    QuotedParamIsSolid("realm", c.realm);
    QuotedParamIsSolid("nonce", c.nonce);
    OptionalsAreSolid(c);
    TokensAreSolid(c);
  }

  lemma OptionalsAreSolid(c: Challenge)
    requires QuotesClose(c)
    ensures AllSolid(OpaqueParam(c)) && AllSolid(QopParam(c))
  {
    NamesArePlain();
    if c.opaque_.Some? { QuotedParamIsSolid("opaque", c.opaque_.value); }
    if c.qop != [] { QuotedParamIsSolid("qop", T.Join(c.qop, ",")); }
  }

  lemma TokensAreSolid(c: Challenge)
    requires Printable(c)
    ensures AllSolid(TokenParams(c))
  {
    NamesArePlain();
    FlagValue(c.userhash);
    TokenParamIsSolid("algorithm", c.algorithm);
    TokenParamIsSolid("userhash", if c.userhash then "true" else "false");
  }

  // ---- the scheme word ----

  /** No scheme word begins in the text before the challenge. */
  ghost predicate NoSchemeIn(prefix: string) {
    forall i: nat :: !SchemeAt(T.LowerAscii(prefix), i)
  }

  lemma {:induction false} FindSchemeAt(lower: string, from: nat, i: nat)
    requires from <= i && SchemeAt(lower, i) && forall j | from <= j < i :: !SchemeAt(lower, j)
    ensures FindScheme(lower, from) == Some(i)
    decreases i - from
  {
    if from < i {
      FindSchemeAt(lower, from + 1, i);
    }
  }

  /** `digest` overlaps no shifted copy of itself, so a clean prefix cannot move the first match. */
  lemma NoEarlierScheme(prefix: string, scheme: string, rest: string, j: nat)
    requires NoSchemeIn(prefix) && T.LowerAscii(scheme) == SCHEME && j < |prefix|
    ensures !SchemeAt(T.LowerAscii(prefix + scheme + rest), j)
  {
    var lower, before := T.LowerAscii(prefix + scheme + rest), T.LowerAscii(prefix);
    assert lower[..|prefix|] == before;
    assert lower[|prefix|] == T.LowerAscii(scheme)[0] == 'd';
    NoSchemeAcross(lower, j, |prefix|);
    assert j + 6 <= |prefix| ==> lower[j..j + 6] == before[j..j + 6];
    assert !SchemeAt(before, j);
  }

  lemma NoSchemeAcross(lower: string, j: nat, n: nat)
    requires j < n < |lower| && lower[n] == 'd'
    ensures SchemeAt(lower, j) ==> j + 6 <= n
  {
    if n < j + 6 <= |lower| {
      assert SCHEME[n - j] != 'd' && lower[j..j + 6][n - j] == 'd';
    }
  }

  lemma SchemeStands(prefix: string, scheme: string, rest: string)
    requires T.LowerAscii(scheme) == SCHEME
    ensures SchemeAt(T.LowerAscii(prefix + scheme + rest), |prefix|)
  {
    var header := prefix + scheme + rest;
    var lower, n := T.LowerAscii(header), |prefix|;
    assert |scheme| == 6;
    forall k | 0 <= k < 6 ensures lower[n + k] == SCHEME[k] {
      assert header[n + k] == scheme[k];
      assert T.LowerAscii(scheme)[k] == SCHEME[k];
    }
    assert lower[n..n + 6] == SCHEME;
  }

  lemma SchemeIsFirst(prefix: string, scheme: string, rest: string)
    requires NoSchemeIn(prefix) && T.LowerAscii(scheme) == SCHEME
    ensures FindScheme(T.LowerAscii(prefix + scheme + rest), 0) == Some(|prefix|)
  {
    forall j | 0 <= j < |prefix| ensures !SchemeAt(T.LowerAscii(prefix + scheme + rest), j) {
      NoEarlierScheme(prefix, scheme, rest, j);
    }
    SchemeStands(prefix, scheme, rest);
    FindSchemeAt(T.LowerAscii(prefix + scheme + rest), 0, |prefix|);
  }

  predicate BlankFirst(s: string) {
    s != "" && (s[0] == ' ' || s[0] == '\t')
  }

  /** The first `digest` of the header decides: a blank after it makes the rest the challenge. */
  lemma SchemeIsFound(prefix: string, scheme: string, rest: string)
    requires NoSchemeIn(prefix) && T.LowerAscii(scheme) == SCHEME
    ensures AfterScheme(prefix + scheme + rest) == if BlankFirst(rest) then Some(rest[1..]) else None
  {
    var header := prefix + scheme + rest;
    SchemeIsFirst(prefix, scheme, rest);
    assert |scheme| == 6;
    if rest != "" {
      assert header[|prefix| + 6] == rest[0] && header[|prefix| + 7..] == rest[1..];
    }
  }

  /**
   * Any text with the letters `digest`, in any case, hides a later challenge, whatever it is,
   * unless a blank happens to follow them.
   */
  lemma FirstDigestDecides(prefix: string, word: string, rest: string)
    requires NoSchemeIn(prefix) && T.LowerAscii(word) == SCHEME && !BlankFirst(rest)
    ensures Parse(prefix + word + rest) == None
  {
    SchemeIsFound(prefix, word, rest);
  }

  lemma NoLetterNoScheme(prefix: string)
    requires forall k | 0 <= k < |prefix| :: T.LowerChar(prefix[k]) != 'd'
    ensures NoSchemeIn(prefix)
  {
    forall i: nat ensures !SchemeAt(T.LowerAscii(prefix), i) {
      assert i + 6 <= |prefix| ==> T.LowerAscii(prefix)[i..i + 6][0] != SCHEME[0];
    }
  }

  /** So a realm of another scheme hides every Digest challenge after it. */
  lemma RealmHidesChallenge(scheme: string, c: Challenge)
    ensures Parse("Basic realm=\"digest\", " + Print(scheme, c)) == None
  {
    var prefix, rest := "Basic realm=\"", "\", " + Print(scheme, c);
    NoLetterNoScheme(prefix);
    assert T.LowerAscii(SCHEME) == SCHEME;
    FirstDigestDecides(prefix, SCHEME, rest);
    assert "Basic realm=\"digest\", " == prefix + SCHEME + "\", ";
    T.Associative(prefix + SCHEME, "\", ", Print(scheme, c));
  }

  // ---- the round trip ----

  /**
   * Printing and parsing, whatever quotes, commas and blanks the values hold, in any spelling of
   * the scheme, after text without the scheme word and before another scheme, gives the challenge
   * with its backslashes doubled; no quoted value may end in a backslash.
   */
  lemma ChallengeIsRead(prefix: string, scheme: string, c: Challenge, suffix: string)
    requires NoSchemeIn(prefix) && T.LowerAscii(scheme) == SCHEME && Follows(suffix)
    requires Printable(c) && QuotesClose(c)
    ensures Parse(prefix + Print(scheme, c) + suffix) == Some(AsRead(c))
  {
    var rest := T.Join(Params(c), ", ") + suffix;
    HeaderShape(prefix, scheme, T.Join(Params(c), ", "), suffix);
    SchemeIsFound(prefix, scheme, " " + rest);
    assert (" " + rest)[1..] == rest;
    ParamsAreSolid(c);
    ParamsAreRead(c);
    ListIsParsed(prefix + Print(scheme, c) + suffix, Params(c), suffix, Stage4(c));
  }

  lemma ListIsParsed(header: string, texts: seq<string>, suffix: string, f: Fields)
    requires AfterScheme(header) == Some(T.Join(texts, ", ") + suffix)
    requires texts != [] && AllSolid(texts) && Follows(suffix) && ReadFields(NO_FIELDS, texts) == Some(f)
    ensures Parse(header) == Complete(f)
  {
    ListIsCut(texts, suffix);
  }

  /** The challenge itself comes back if and only if its values hold no backslash. */
  lemma ChallengeRoundTrip(prefix: string, scheme: string, c: Challenge, suffix: string)
    requires NoSchemeIn(prefix) && T.LowerAscii(scheme) == SCHEME && Follows(suffix)
    requires Printable(c)
    ensures NoBackslash(c) ==> Parse(prefix + Print(scheme, c) + suffix) == Some(c)
    ensures QuotesClose(c) ==> (Parse(prefix + Print(scheme, c) + suffix) == Some(c) <==> NoBackslash(c))
  {
    if QuotesClose(c) {
      ChallengeIsRead(prefix, scheme, c, suffix);
      DoubledIff(c.realm);
      DoubledIff(c.nonce);
      if c.opaque_.Some? { DoubledIff(c.opaque_.value); }
    }
  }

  lemma HeaderShape(prefix: string, scheme: string, list: string, suffix: string)
    ensures prefix + (scheme + " " + list) + suffix == prefix + scheme + (" " + (list + suffix))
  {
  }

  lemma ListIsCut(texts: seq<string>, suffix: string)
    requires texts != [] && AllSolid(texts) && Follows(suffix)
    ensures var rest := T.Join(texts, ", ") + suffix; SplitParams(rest[..Extent(false, false, rest)]) == texts
  {
    var list := T.Join(texts, ", ");
    ExtentOfList(texts, suffix);
    assert (list + suffix)[..|list|] == list;
    forall i | 0 <= i < |texts| ensures Kept(texts[i]) { assert Solid(texts[i]); }
    SplitOfList([], "", texts);
    assert [] + texts == texts;
  }
}
