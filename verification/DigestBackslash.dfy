/** Backslashes in the quoted values of a challenge: when the whole challenge is read back. */
module DigestBackslash {
  import opened Wrappers
  import opened DigestChallenge
  import opened DigestRoundTrip
  import T = Text

  // ---- the printed list around one parameter ----

  /** The texts, each with the separator behind it. */
  function Lead(texts: seq<string>): string {
    if texts == [] then "" else texts[0] + (", " + Lead(texts[1..]))
  }

  /** The texts, each with the separator before it. */
  function Tail(texts: seq<string>): string {
    if texts == [] then "" else ", " + (texts[0] + Tail(texts[1..]))
  }

  lemma {:induction false} JoinIsHeadAndTail(text: string, post: seq<string>)
    ensures T.Join([text] + post, ", ") == text + Tail(post)
    decreases |post|
  {
    assert ([text] + post)[1..] == post;
    if post == [] {
      assert text + "" == text;
    } else {
      JoinIsHeadAndTail(post[0], post[1..]);
      assert post == [post[0]] + post[1..];
      T.Associative(text, ", ", post[0] + Tail(post[1..]));
    }
  }

  lemma {:induction false} JoinAround(pre: seq<string>, text: string, post: seq<string>)
    ensures T.Join(pre + ([text] + post), ", ") == Lead(pre) + (text + Tail(post))
    decreases |pre|
  {
    var all := pre + ([text] + post);
    if pre == [] {
      assert all == [text] + post;
      JoinIsHeadAndTail(text, post);
    } else {
      assert all[0] == pre[0] && all[1..] == pre[1..] + ([text] + post);
      JoinAround(pre[1..], text, post);
      T.Associative(pre[0], ", ", Lead(pre[1..]) + (text + Tail(post)));
      T.Associative(", ", Lead(pre[1..]), text + Tail(post));
      T.Associative(pre[0], ", " + Lead(pre[1..]), text + Tail(post));
    }
  }

  // ---- the scan does not stop before the parameter's closing quote ----

  lemma QuotedIsScanned(v: string, b: string)
    ensures Extent(false, false, Quote(v) + b) >= |Quote(v)|
  {
    var s, inner, close := Quote(v) + b, Escape(v) + ("\"" + b), "\"" + b;
    assert s[0] == '"' && s[1..] == inner;
    ExtentThroughEscaped(false, v, close);
    assert close[0] == '"';
    assert Extent(EndsOpen(false, v), true, close) >= 1;
  }

  lemma ParamIsScanned(name: string, v: string, b: string)
    requires PlainName(name)
    ensures Extent(false, false, Param(name, Quote(v)) + b) >= |Param(name, Quote(v))|
  {
    var lead := name + "=";
    T.Associative(lead, Quote(v), b);
    ExtentThroughPlain(lead, Quote(v) + b);
    QuotedIsScanned(v, b);
  }

  lemma {:induction false} ListIsScanned(pre: seq<string>, name: string, v: string, b: string)
    requires AllSolid(pre) && PlainName(name)
    ensures Extent(false, false, Lead(pre) + (Param(name, Quote(v)) + b)) >= |Lead(pre)| + |Param(name, Quote(v))|
    decreases |pre|
  {
    if pre == [] {
      assert Lead(pre) + (Param(name, Quote(v)) + b) == Param(name, Quote(v)) + b;
      ParamIsScanned(name, v, b);
    } else {
      var p := Param(name, Quote(v)) + b;
      ListIsScanned(pre[1..], name, v, b);
      StartOpensNothing(pre[1..], name, v, b);
      assert Solid(pre[0]);
      FirstIsScanned(pre[0], Lead(pre[1..]) + p);
      LeadUnfolds(pre, p);
    }
  }

  lemma FirstIsScanned(first: string, list: string)
    requires Solid(first) && !OpensScheme(" " + list)
    ensures Extent(false, false, first + ", " + list) == |first| + 2 + Extent(false, false, list)
  {
    ExtentOverComma(list);
    T.Associative(first, ", ", list);
    assert ScannedOver(first);
  }

  lemma StartOpensNothing(pre: seq<string>, name: string, v: string, b: string)
    requires AllSolid(pre) && PlainName(name)
    ensures !OpensScheme(" " + (Lead(pre) + (Param(name, Quote(v)) + b)))
  {
    if pre == [] {
      assert Lead(pre) + (Param(name, Quote(v)) + b) == Param(name, Quote(v)) + b;
      NamedTextOpens(name, Quote(v));
    } else {
      assert Solid(pre[0]);
      T.Associative(pre[0], ", " + Lead(pre[1..]), Param(name, Quote(v)) + b);
    }
  }

  // ---- the splitter keeps it whole ----

  lemma {:induction false} SplitOverLead(parts: seq<string>, cur: string, pre: seq<string>, rest: string) returns (last: string)
    requires AllSolid(pre) && (cur == "" || cur == " ")
    ensures last == "" || last == " "
    ensures SplitFeed(Splitter(parts, cur, false, false), Lead(pre) + rest)
         == SplitFeed(Splitter(parts + pre, last, false, false), rest)
    decreases |pre|
  {
    if pre == [] {
      assert Lead(pre) + rest == rest && parts + pre == parts;
      last := cur;
    } else {
      var first, later := pre[0], pre[1..];
      assert Solid(first);
      LeadUnfolds(pre, rest);
      FirstIsSplitOff(parts, cur, first, Lead(later) + rest);
      last := SplitOverLead(parts + [first], " ", later, rest);
      HeadMoves(parts, pre, first, later);
    }
  }

  lemma FirstIsSplitOff(parts: seq<string>, cur: string, first: string, list: string)
    requires Solid(first) && (cur == "" || cur == " ")
    ensures SplitFeed(Splitter(parts, cur, false, false), first + ", " + list)
         == SplitFeed(Splitter(parts + [first], " ", false, false), list)
  {
    TrimOfPart(cur, first);
    SplitOverComma(parts, cur, first, list);
  }

  lemma HeadMoves(parts: seq<string>, pre: seq<string>, first: string, later: seq<string>)
    requires pre != [] && first == pre[0] && later == pre[1..]
    ensures parts + [first] + later == parts + pre
  {
    T.Associative(parts, [first], later);
    assert pre == [first] + later;
  }

  lemma LeadUnfolds(pre: seq<string>, rest: string)
    requires pre != []
    ensures Lead(pre) + rest == pre[0] + ", " + (Lead(pre[1..]) + rest)
  {
    T.Associative(pre[0], ", " + Lead(pre[1..]), rest);
    T.Associative(", ", Lead(pre[1..]), rest);
    T.Associative(pre[0], ", ", Lead(pre[1..]) + rest);
  }

  /** Parts only come to be added. */
  lemma {:induction false} PartsGrow(k: Splitter, s: string)
    ensures k.parts <= SplitFeed(k, s).parts
    ensures SplitFeed(k, s).parts == k.parts ==> SplitFeed(k, s).cur == k.cur + s
    decreases s
  {
    if s == "" {
      assert k.cur + s == k.cur;
    } else {
      var next := SplitStep(k, s[0]);
      PartsGrow(next, s[1..]);
      assert k.parts <= next.parts;
      if SplitFeed(k, s).parts == k.parts {
        assert next.parts == k.parts && next.cur == k.cur + [s[0]];
        assert k.cur + [s[0]] + s[1..] == k.cur + s;
      }
    }
  }

  /** Of a text that is kept whole, so is every beginning. */
  lemma BeginningIsKept(parts: seq<string>, cur: string, text: string, u: string)
    requires KeptWhole(text) && u <= text
    ensures SplitFeed(Splitter(parts, cur, false, false), u).parts == parts
    ensures SplitFeed(Splitter(parts, cur, false, false), u).cur == cur + u
  {
    var k := Splitter(parts, cur, false, false);
    var w := text[|u|..];
    assert text == u + w;
    SplitFeedConcat(k, u, w);
    PartsGrow(k, u);
    PartsGrow(SplitFeed(k, u), w);
  }

  // ---- what comes after it does not touch its field ----

  /** A printed parameter of another name. */
  ghost predicate Apart(text: string, name: string) {
    Kept(text) && exists other :: PlainName(other) && other != name && other + "=" <= text
  }

  ghost predicate AllApart(texts: seq<string>, name: string) {
    forall i | 0 <= i < |texts| :: Apart(texts[i], name)
  }

  /** A part that names no parameter or another one. */
  predicate Elsewhere(part: string, name: string) {
    match T.SplitOnce(part, '=')
    case None => true
    case Some((k, _)) => T.LowerAscii(T.Trim(k)) != name
  }

  predicate AllElsewhere(parts: seq<string>, name: string) {
    forall i | 0 <= i < |parts| :: Elsewhere(parts[i], name)
  }

  lemma {:induction false} TrimEndKeeps(s: string, w: string)
    requires s != "" && !T.IsWhitespace(s[|s| - 1])
    ensures s <= T.TrimEnd(s + w)
  {
    var t := s + w;
    if w == "" {
      assert t == s;
    } else if T.IsWhitespace(t[|t| - 1]) {
      assert t[..|t| - 1] == s + w[..|w| - 1];
      TrimEndKeeps(s, w[..|w| - 1]);
    }
  }

  lemma NamedBeginning(other: string, w: string)
    requires PlainName(other)
    ensures other + "=" <= T.Trim(" " + (other + "=" + w))
  {
    var t := other + "=" + w;
    assert (" " + t)[0] == ' ' && (" " + t)[1..] == t && t[0] == other[0];
    assert T.TrimStart(" " + t) == t;
    TrimEndKeeps(other + "=", w);
  }

  lemma NameIsRead(other: string, part: string, name: string)
    requires PlainName(other) && other != name && other + "=" <= part
    ensures Elsewhere(part, name)
  {
    var w := part[|other| + 1..];
    assert part == other + ['='] + w;
    assert '=' !in other;
    T.SplitOnceAt(other, '=', w);
    NothingToTrim(other);
    assert T.LowerAscii(other) == other;
  }

  /** The part that a beginning of the parameter makes. */
  lemma BeginningIsElsewhere(text: string, u: string, name: string)
    requires Apart(text, name) && u <= text
    ensures Elsewhere(T.Trim(" " + u), name)
  {
    var other :| PlainName(other) && other != name && other + "=" <= text;
    if |u| > |other| {
      var w := u[|other| + 1..];
      assert u[..|other| + 1] == text[..|other| + 1] == other + "=";
      assert u == other + "=" + w;
      NamedBeginning(other, w);
      NameIsRead(other, T.Trim(" " + u), name);
    } else {
      assert u <= other;
      assert '=' !in " " + u;
      if '=' in T.Trim(" " + u) { T.TrimKeepsOnlyItsOwn(" " + u, '='); }
    }
  }

  /** Cutting the list anywhere after the parameter leaves it whole, with parts of other names behind it. */
  lemma {:induction false} SplitTail(parts: seq<string>, cur: string, text: string, post: seq<string>, u: string, name: string)
    returns (more: seq<string>)
    requires Framed(text) && (cur == "" || cur == " ") && AllApart(post, name) && u <= Tail(post)
    ensures SplitEnd(SplitFeed(Splitter(parts, cur + text, false, false), u)) == parts + [text] + more
    ensures AllElsewhere(more, name)
    decreases |post|
  {
    TrimOfPart(cur, text);
    var k := Splitter(parts, cur + text, false, false);
    if |u| <= 1 {
      more := [];
      ShortTail(k, text, u, post);
    } else {
      var first, after := post[0], u[2..];
      TailUnfolds(post, u, after);
      CommaTaken(parts, cur + text, text, u, after);
      assert Apart(first, name);
      if |after| >= |first| {
        var later := after[|first|..];
        assert after == first + later;
        WholePartTaken(parts + [text], first, later, after);
        var rest := SplitTail(parts + [text], " ", first, post[1..], later, name);
        WholePartIsElsewhere(first, name);
        more := PartBefore(parts + [text], first, rest, name);
      } else {
        more := LastBeginning(parts + [text], first, after, name);
      }
    }
  }

  lemma PartBefore(parts: seq<string>, first: string, rest: seq<string>, name: string) returns (more: seq<string>)
    requires Elsewhere(first, name) && AllElsewhere(rest, name)
    ensures parts + [first] + rest == parts + more && AllElsewhere(more, name)
  {
    more := [first] + rest;
    T.Associative(parts, [first], rest);
  }

  lemma WholePartTaken(parts: seq<string>, text: string, later: string, u: string)
    requires KeptWhole(text) && u == text + later
    ensures SplitFeed(Splitter(parts, " ", false, false), u) == SplitFeed(Splitter(parts, " " + text, false, false), later)
  {
    SplitFeedConcat(Splitter(parts, " ", false, false), text, later);
  }

  lemma TailUnfolds(post: seq<string>, u: string, after: string)
    requires |u| > 1 && u <= Tail(post) && after == u[2..]
    ensures post != [] && u == ", " + after
    ensures if |after| >= |post[0]| then post[0] <= after && after[|post[0]|..] <= Tail(post[1..]) else after <= post[0]
  {
    var first, rest := post[0], Tail(post[1..]);
    assert Tail(post)[..2] == ", " && Tail(post)[2..] == first + rest;
    assert u[..2] == Tail(post)[..2] && after <= first + rest;
    BeginningOfTwo(first, rest, after);
  }

  lemma BeginningOfTwo(a: string, b: string, u: string)
    requires u <= a + b
    ensures if |u| >= |a| then a <= u && u[|a|..] <= b else u <= a
  {
    if |u| >= |a| {
      assert u[..|a|] == (a + b)[..|a|] == a;
      assert u[|a|..] == (a + b)[|a|..|u|] == b[..|u| - |a|];
    }
  }

  lemma WholePartIsElsewhere(text: string, name: string)
    requires Apart(text, name)
    ensures Elsewhere(text, name)
  {
    TrimOfPart(" ", text);
    BeginningIsElsewhere(text, text, name);
  }

  /** The list ends in the middle of a parameter. */
  lemma LastBeginning(parts: seq<string>, text: string, u: string, name: string) returns (more: seq<string>)
    requires Apart(text, name) && u <= text
    ensures SplitEnd(SplitFeed(Splitter(parts, " ", false, false), u)) == parts + more
    ensures AllElsewhere(more, name)
  {
    BeginningIsKept(parts, " ", text, u);
    BeginningIsElsewhere(text, u, name);
    var part := T.Trim(" " + u);
    more := if part != "" then [part] else [];
    assert parts + [] == parts;
  }

  lemma ShortTail(k: Splitter, text: string, u: string, post: seq<string>)
    requires !k.inQuotes && !k.escaped && T.Trim(k.cur) == text && text != "" && |u| <= 1 && u <= Tail(post)
    ensures SplitEnd(SplitFeed(k, u)) == k.parts + [text]
  {
    if u != "" {
      assert u == [','];
      SplitFeedOne(k, ',');
    }
  }

  lemma CommaTaken(parts: seq<string>, cur: string, text: string, u: string, rest: string)
    requires T.Trim(cur) == text && u == ", " + rest
    ensures SplitFeed(Splitter(parts, cur, false, false), u) == SplitFeed(Splitter(parts + [text], " ", false, false), rest)
  {
    var k := Splitter(parts, cur, false, false);
    assert u == [','] + ([' '] + rest);
    SplitFeedConcat(k, [','], [' '] + rest);
    SplitFeedOne(k, ',');
    SplitFeedConcat(Splitter(parts + [text], "", false, false), [' '], rest);
    SplitFeedOne(Splitter(parts + [text], "", false, false), ' ');
    assert "" + [' '] == " ";
  }

  /** However the list goes on, the parameter is one of the parts that are read. */
  lemma ParamIsRead(pre: seq<string>, name: string, v: string, post: seq<string>) returns (more: seq<string>)
    requires AllSolid(pre) && PlainName(name) && AllApart(post, name)
    ensures var text := T.Join(pre + ([Param(name, Quote(v))] + post), ", ");
      SplitParams(text[..Extent(false, false, text)]) == pre + [Param(name, Quote(v))] + more
    ensures AllElsewhere(more, name)
  {
    var p := Param(name, Quote(v));
    var text := T.Join(pre + ([p] + post), ", ");
    JoinAround(pre, p, post);
    ListIsScanned(pre, name, v, Tail(post));
    var n := Extent(false, false, text);
    CutBehind(Lead(pre), p, Tail(post), n);
    more := SplitAround(pre, name, v, post, Tail(post)[..n - |Lead(pre)| - |p|]);
  }

  lemma SplitAround(pre: seq<string>, name: string, v: string, post: seq<string>, u: string) returns (more: seq<string>)
    requires AllSolid(pre) && PlainName(name) && AllApart(post, name) && u <= Tail(post)
    ensures SplitParams(Lead(pre) + (Param(name, Quote(v)) + u)) == pre + [Param(name, Quote(v))] + more
    ensures AllElsewhere(more, name)
  {
    var p := Param(name, Quote(v));
    var last := SplitOverLead([], "", pre, p + u);
    assert [] + pre == pre;
    QuotedParamIsKept(name, v);
    SplitFeedConcat(Splitter(pre, last, false, false), p, u);
    assert p[0] == name[0] && p[|p| - 1] == '"';
    more := SplitTail(pre, last, p, post, u, name);
  }

  lemma CutBehind(lead: string, p: string, tail: string, n: nat)
    requires |lead| + |p| <= n <= |lead + (p + tail)|
    ensures (lead + (p + tail))[..n] == lead + (p + tail[..n - |lead| - |p|])
  {
  }

  // ---- the field it sets is what comes out ----

  /** Both hold the same under this parameter's name. */
  predicate SameField(name: string, f: Fields, g: Fields) {
    && (name == "realm" ==> f.realm == g.realm) && (name == "nonce" ==> f.nonce == g.nonce)
    && (name == "opaque" ==> f.opaque_ == g.opaque_) && (name == "qop" ==> f.qop == g.qop)
  }

  lemma {:induction false} ReadFieldsConcat(f: Fields, a: seq<string>, b: seq<string>)
    ensures ReadFields(f, a + b) == match ReadFields(f, a) case None => None case Some(g) => ReadFields(g, b)
    decreases a
  {
    if a == [] {
      assert a + b == b;
    } else {
      assert (a + b)[0] == a[0] && (a + b)[1..] == a[1..] + b;
      match T.SplitOnce(a[0], '=') {
        case None =>
        case Some((k, v)) => ReadFieldsConcat(SetField(f, T.LowerAscii(T.Trim(k)), v), a[1..], b);
      }
    }
  }

  lemma OtherFieldIsSet(f: Fields, other: string, v: string, name: string)
    requires other != name
    ensures SameField(name, f, SetField(f, other, v))
  {
  }

  lemma {:induction false} ElsewhereKeepsField(f: Fields, parts: seq<string>, name: string)
    requires AllElsewhere(parts, name)
    ensures ReadFields(f, parts).Some? ==> SameField(name, f, ReadFields(f, parts).value)
    decreases parts
  {
    if parts != [] {
      assert Elsewhere(parts[0], name);
      match T.SplitOnce(parts[0], '=') {
        case None =>
        case Some((k, v)) =>
          var other := T.LowerAscii(T.Trim(k));
          OtherFieldIsSet(f, other, v, name);
          ElsewhereKeepsField(SetField(f, other, v), parts[1..], name);
      }
    }
  }

  /** The parser either gives up or takes the parameter's text for the value of its field. */
  lemma FieldOfParam(prefix: string, scheme: string, c: Challenge, pre: seq<string>, name: string, v: string, post: seq<string>)
    returns (f: Fields, g: Fields)
    requires NoSchemeIn(prefix) && T.LowerAscii(scheme) == SCHEME
    requires Params(c) == pre + ([Param(name, Quote(v))] + post)
    requires AllSolid(pre) && PlainName(name) && AllApart(post, name)
    ensures Parse(prefix + Print(scheme, c)).Some? ==>
      SameField(name, SetField(f, name, Quote(v)), g) && Parse(prefix + Print(scheme, c)) == Complete(g)
  {
    var p := Param(name, Quote(v));
    var text := T.Join(Params(c), ", ");
    HeaderIsFound(prefix, scheme, text);
    var more := ParamIsRead(pre, name, v, post);
    f, g := NO_FIELDS, NO_FIELDS;
    var read := ReadFields(NO_FIELDS, pre + [p] + more);
    if read.Some? {
      T.Associative(pre, [p], more);
      ReadFieldsConcat(NO_FIELDS, pre, [p] + more);
      f, g := ReadFields(NO_FIELDS, pre).value, read.value;
      ReadParam(f, name, Quote(v), more);
      ElsewhereKeepsField(SetField(f, name, Quote(v)), more, name);
    }
  }

  lemma HeaderIsFound(prefix: string, scheme: string, text: string)
    requires NoSchemeIn(prefix) && T.LowerAscii(scheme) == SCHEME
    ensures AfterScheme(prefix + (scheme + " " + text)) == Some(text)
  {
    SchemeIsFound(prefix, scheme, " " + text);
    assert prefix + (scheme + " " + text) == prefix + scheme + (" " + text);
    assert (" " + text)[1..] == text;
  }

  // ---- counting backslashes ----

  lemma {:induction false} BackslashesConcat(s: string, t: string)
    ensures Backslashes(s + t) == Backslashes(s) + Backslashes(t)
    decreases s
  {
    if s == "" {
      assert s + t == t;
    } else {
      assert (s + t)[0] == s[0] && (s + t)[1..] == s[1..] + t;
      BackslashesConcat(s[1..], t);
    }
  }

  lemma {:induction false} BackslashesDoubled(v: string)
    ensures Backslashes(Doubled(v)) == 2 * Backslashes(v)
  {
    if v != "" {
      var head := if v[0] == '\\' then ['\\', '\\'] else [v[0]];
      BackslashesDoubled(v[1..]);
      BackslashesConcat(head, Doubled(v[1..]));
      HeadBackslashes(v[0]);
    }
  }

  lemma HeadBackslashes(c: char)
    ensures Backslashes([c]) == if c == '\\' then 1 else 0
    ensures Backslashes(['\\', '\\']) == 2
  {
    assert [c][1..] == "" && ['\\', '\\'][1..] == ['\\'] && ['\\'][1..] == "";
  }

  lemma {:induction false} BackslashesLower(s: string)
    ensures Backslashes(T.LowerAscii(s)) == Backslashes(s)
  {
    if s != "" {
      assert T.LowerAscii(s)[1..] == T.LowerAscii(s[1..]);
      BackslashesLower(s[1..]);
    }
  }

  lemma {:induction false} BackslashesTrimStart(s: string)
    ensures Backslashes(T.TrimStart(s)) == Backslashes(s)
  {
    if s != "" && T.IsWhitespace(s[0]) {
      BackslashesTrimStart(s[1..]);
    }
  }

  lemma {:induction false} BackslashesTrimEnd(s: string)
    ensures Backslashes(T.TrimEnd(s)) == Backslashes(s)
  {
    if s != "" && T.IsWhitespace(s[|s| - 1]) {
      BackslashesTrimEnd(s[..|s| - 1]);
      assert s == s[..|s| - 1] + [s[|s| - 1]];
      BackslashesConcat(s[..|s| - 1], [s[|s| - 1]]);
      HeadBackslashes(s[|s| - 1]);
    }
  }

  function Total(pieces: seq<string>): nat {
    if pieces == [] then 0 else Backslashes(pieces[0]) + Total(pieces[1..])
  }

  lemma {:induction false} TotalOfItems(pieces: seq<string>)
    ensures Total(QopItems(pieces)) == Total(pieces)
  {
    if pieces != [] {
      var item := T.LowerAscii(T.Trim(pieces[0]));
      BackslashesTrimStart(pieces[0]);
      BackslashesTrimEnd(T.TrimStart(pieces[0]));
      BackslashesLower(T.Trim(pieces[0]));
      TotalOfItems(pieces[1..]);
      assert ([item] + QopItems(pieces[1..]))[1..] == QopItems(pieces[1..]);
      assert [] + QopItems(pieces[1..]) == QopItems(pieces[1..]);
    }
  }

  lemma {:induction false} TotalOfSplit(s: string)
    ensures Total(T.SplitOn(s, ',')) == Backslashes(s)
  {
    if s != "" {
      TotalOfSplit(s[1..]);
      var rest := T.SplitOn(s[1..], ',');
      if s[0] == ',' {
        assert ([""] + rest)[1..] == rest;
      } else {
        BackslashesConcat([s[0]], rest[0]);
        HeadBackslashes(s[0]);
        assert ([[s[0]] + rest[0]] + rest[1..])[1..] == rest[1..];
      }
    }
  }

  lemma {:induction false} TotalOfJoin(parts: seq<string>)
    ensures Backslashes(T.Join(parts, ",")) == Total(parts)
  {
    if |parts| == 1 {
      assert parts[1..] == [];
    } else if parts != [] {
      TotalOfJoin(parts[1..]);
      BackslashesConcat(parts[0] + ",", T.Join(parts[1..], ","));
      BackslashesConcat(parts[0], ",");
      HeadBackslashes(',');
    }
  }

  /** Read back with its backslashes doubled, a list with a backslash is another list. */
  lemma QopIsMangled(items: seq<string>)
    requires '\\' in T.Join(items, ",")
    ensures QopItems(T.SplitOn(Unquote(Quote(T.Join(items, ","))), ',')) != items
  {
    var text := T.Join(items, ",");
    UnquoteOfQuote(text);
    TotalOfItems(T.SplitOn(Doubled(text), ','));
    TotalOfSplit(Doubled(text));
    BackslashesDoubled(text);
    TotalOfJoin(items);
    BackslashesCount(text);
  }

  // ---- when the whole challenge is read back ----

  lemma ValueIsMangled(v: string)
    requires '\\' in v
    ensures Unquote(Quote(v)) != v
  {
    QuotedValueSurvives(v);
  }

  lemma QuotedParamIsApart(other: string, v: string, name: string)
    requires PlainName(other) && other != name
    ensures Apart(Param(other, Quote(v)), name)
  {
    var text := Param(other, Quote(v));
    QuotedParamIsKept(other, v);
    assert text[0] == other[0] && text[|text| - 1] == '"';
    assert other + "=" <= text;
  }

  lemma TokenParamIsApart(other: string, token: string, name: string)
    requires PlainName(other) && other != name && IsToken(token)
    ensures Apart(Param(other, token), name)
  {
    TokenParamIsSolid(other, token);
    assert Solid(Param(other, token));
    assert other + "=" <= Param(other, token);
  }

  lemma TokensAreApart(c: Challenge, name: string)
    requires Printable(c) && name != "algorithm" && name != "userhash"
    ensures AllApart(TokenParams(c), name)
  {
    NamesArePlain();
    FlagValue(c.userhash);
    TokenParamIsApart("algorithm", c.algorithm, name);
    TokenParamIsApart("userhash", if c.userhash then "true" else "false", name);
  }

  lemma QopIsApart(c: Challenge, name: string)
    requires name != "qop"
    ensures AllApart(QopParam(c), name)
  {
    NamesArePlain();
    if c.qop != [] { QuotedParamIsApart("qop", T.Join(c.qop, ","), name); }
  }

  lemma OpaqueIsApart(c: Challenge, name: string)
    requires name != "opaque"
    ensures AllApart(OpaqueParam(c), name)
  {
    NamesArePlain();
    if c.opaque_.Some? { QuotedParamIsApart("opaque", c.opaque_.value, name); }
  }

  lemma ApartConcat(a: seq<string>, b: seq<string>, name: string)
    requires AllApart(a, name) && AllApart(b, name)
    ensures AllApart(a + b, name)
  {
  }

  /** Everything printed behind realm and nonce is apart from them. */
  lemma RestIsApart(c: Challenge, name: string)
    requires Printable(c) && (name == "realm" || name == "nonce")
    ensures AllApart(OpaqueParam(c) + (QopParam(c) + TokenParams(c)), name)
  {
    OpaqueIsApart(c, name);
    QopIsApart(c, name);
    TokensAreApart(c, name);
    ApartConcat(QopParam(c), TokenParams(c), name);
    ApartConcat(OpaqueParam(c), QopParam(c) + TokenParams(c), name);
  }

  lemma RealmMangled(prefix: string, scheme: string, c: Challenge)
    requires NoSchemeIn(prefix) && T.LowerAscii(scheme) == SCHEME && Printable(c)
    requires '\\' in c.realm
    ensures Parse(prefix + Print(scheme, c)) != Some(c)
  {
    NamesArePlain();
    var nonce := [Param("nonce", Quote(c.nonce))];
    var post := nonce + (OpaqueParam(c) + (QopParam(c) + TokenParams(c)));
    ParamsInOrder(c);
    assert Params(c) == [] + ([Param("realm", Quote(c.realm))] + post);
    QuotedParamIsApart("nonce", c.nonce, "realm");
    RestIsApart(c, "realm");
    ApartConcat(nonce, OpaqueParam(c) + (QopParam(c) + TokenParams(c)), "realm");
    var f, g := FieldOfParam(prefix, scheme, c, [], "realm", c.realm, post);
    ValueIsMangled(c.realm);
  }

  lemma NonceMangled(prefix: string, scheme: string, c: Challenge)
    requires NoSchemeIn(prefix) && T.LowerAscii(scheme) == SCHEME && Printable(c)
    requires '\\' !in c.realm && '\\' in c.nonce
    ensures Parse(prefix + Print(scheme, c)) != Some(c)
  {
    NamesArePlain();
    var pre, post := [Param("realm", Quote(c.realm))], OpaqueParam(c) + (QopParam(c) + TokenParams(c));
    ParamsInOrder(c);
    assert Params(c) == pre + ([Param("nonce", Quote(c.nonce))] + post);
    QuotedParamIsSolid("realm", c.realm);
    RestIsApart(c, "nonce");
    var f, g := FieldOfParam(prefix, scheme, c, pre, "nonce", c.nonce, post);
    ValueIsMangled(c.nonce);
  }

  lemma OpaqueMangled(prefix: string, scheme: string, c: Challenge)
    requires NoSchemeIn(prefix) && T.LowerAscii(scheme) == SCHEME && Printable(c)
    requires '\\' !in c.realm && '\\' !in c.nonce && c.opaque_.Some? && '\\' in c.opaque_.value
    ensures Parse(prefix + Print(scheme, c)) != Some(c)
  {
    NamesArePlain();
    var pre, post := StartParams(c), QopParam(c) + TokenParams(c);
    ParamsInOrder(c);
    assert Params(c) == pre + ([Param("opaque", Quote(c.opaque_.value))] + post);
    StartIsSolid(c);
    QopIsApart(c, "opaque");
    TokensAreApart(c, "opaque");
    ApartConcat(QopParam(c), TokenParams(c), "opaque");
    var f, g := FieldOfParam(prefix, scheme, c, pre, "opaque", c.opaque_.value, post);
    ValueIsMangled(c.opaque_.value);
  }

  lemma StartIsSolid(c: Challenge)
    requires '\\' !in c.realm && '\\' !in c.nonce
    ensures AllSolid(StartParams(c))
  {
    NamesArePlain();
    QuotedParamIsSolid("realm", c.realm);
    QuotedParamIsSolid("nonce", c.nonce);
  }

  lemma QopMangled(prefix: string, scheme: string, c: Challenge)
    requires NoSchemeIn(prefix) && T.LowerAscii(scheme) == SCHEME && Printable(c)
    requires '\\' !in c.realm && '\\' !in c.nonce && (c.opaque_.Some? ==> '\\' !in c.opaque_.value)
    requires '\\' in T.Join(c.qop, ",")
    ensures Parse(prefix + Print(scheme, c)) != Some(c)
  {
    NamesArePlain();
    var text := T.Join(c.qop, ",");
    var pre, post := StartParams(c) + OpaqueParam(c), TokenParams(c);
    assert Params(c) == pre + ([Param("qop", Quote(text))] + post);
    StartIsSolid(c);
    if c.opaque_.Some? { QuotedParamIsSolid("opaque", c.opaque_.value); }
    TokensAreApart(c, "qop");
    var f, g := FieldOfParam(prefix, scheme, c, pre, "qop", text, post);
    QopIsMangled(c.qop);
  }

  /**
   * A printed challenge with nothing behind it comes back if and only if none of its quoted values
   * holds a backslash.
   */
  lemma ChallengeSurvivesIff(prefix: string, scheme: string, c: Challenge)
    requires NoSchemeIn(prefix) && T.LowerAscii(scheme) == SCHEME && Printable(c)
    ensures Parse(prefix + Print(scheme, c)) == Some(c) <==> NoBackslash(c)
  {
    if NoBackslash(c) {
      ChallengeRoundTrip(prefix, scheme, c, "");
      assert prefix + Print(scheme, c) + "" == prefix + Print(scheme, c);
    } else if '\\' in c.realm {
      RealmMangled(prefix, scheme, c);
    } else if '\\' in c.nonce {
      NonceMangled(prefix, scheme, c);
    } else if c.opaque_.Some? && '\\' in c.opaque_.value {
      OpaqueMangled(prefix, scheme, c);
    } else {
      QopMangled(prefix, scheme, c);
    }
  }

  // ---- with another scheme behind it the "only if" fails ----

  /** A realm that is one letter and a backslash. */
  const OPEN := Challenge("a\\", "n", None, [], "MD5", false)

  /** A later scheme with a `realm` of its own, not quoted. */
  const MENDING := ", Foo x=1, realm=a\\"

  lemma {:induction false} ExtentInside(afterBackslash: bool, s: string, b: string)
    requires '"' !in s
    ensures Extent(afterBackslash, true, s + b) == |s| + Extent(EndsOpen(afterBackslash, s), true, b)
    decreases s
  {
    if s == "" {
      assert s + b == b;
    } else {
      assert s + b == [s[0]] + (s[1..] + b);
      ExtentStep(afterBackslash, s[0], s[1..] + b);
      ExtentInside(s[0] == '\\', s[1..], b);
    }
  }

  /** After a quoted value that ends in a backslash the scan takes inside for outside. */
  lemma ScanIsInverted(lead: string, v: string, inside: string, outside: string, last: string)
    requires Unmarked(lead) && EndsOpen(false, v)
    requires '"' !in inside && inside != "" && inside[|inside| - 1] != '\\' && Unmarked(outside) && '"' !in last
    ensures var text := lead + (Quote(v) + (inside + ("\"" + (outside + ("\"" + last)))));
      Extent(false, false, text) == |text|
  {
    var reopened := "\"" + last;
    var closed := "\"" + (outside + reopened);
    var behind := inside + closed;
    ExtentThroughPlain(lead, Quote(v) + behind);
    QuoteDoesNotClose(v, behind);
    ExtentInside(false, inside, closed);
    assert closed[0] == '"' && closed[1..] == outside + reopened;
    ExtentThroughPlain(outside, reopened);
    assert reopened[0] == '"' && reopened[1..] == last;
    ExtentInside(false, last, "");
    assert last + "" == last;
  }

  lemma QuoteDoesNotClose(v: string, b: string)
    requires EndsOpen(false, v)
    ensures Extent(false, false, Quote(v) + b) == |Quote(v)| + Extent(false, true, b)
  {
    var s, inner, close := Quote(v) + b, Escape(v) + ("\"" + b), "\"" + b;
    assert s[0] == '"' && s[1..] == inner;
    ExtentThroughEscaped(false, v, close);
    assert close[0] == '"' && close[1..] == b;
  }

  lemma {:induction false} TailConcat(a: seq<string>, b: seq<string>)
    ensures Tail(a + b) == Tail(a) + Tail(b)
    decreases |a|
  {
    if a == [] {
      assert a + b == b;
    } else {
      assert (a + b)[0] == a[0] && (a + b)[1..] == a[1..] + b;
      TailConcat(a[1..], b);
      T.Associative(a[0], Tail(a[1..]), Tail(b));
      T.Associative(", ", a[0] + Tail(a[1..]), Tail(b));
    }
  }

  lemma TailOfOne(a: string)
    ensures Tail([a]) == ", " + a
  {
    assert [a][1..] == [] && a + "" == a;
  }

  lemma TailOfTwo(a: string, b: string)
    ensures Tail([a, b]) == ", " + a + ", " + b
  {
    TailConcat([a], [b]);
    TailOfOne(a);
    TailOfOne(b);
    assert [a, b] == [a] + [b];
    T.Associative(", " + a, ", ", b);
  }

  lemma TailOfThree(a: string, b: string, c: string)
    ensures Tail([a, b, c]) == ", " + a + ", " + b + ", " + c
  {
    TailConcat([a, b], [c]);
    TailOfTwo(a, b);
    TailOfOne(c);
    assert [a, b, c] == [a, b] + [c];
    T.Associative(", " + a + ", " + b, ", ", c);
  }

  lemma PlainIsKept(text: string)
    requires Framed(text) && Unquoted(text)
    ensures Kept(text)
  {
    forall parts, cur
      ensures SplitFeed(Splitter(parts, cur, false, false), text) == Splitter(parts, cur + text, false, false)
    {
      SplitThroughPlain(parts, cur, text);
    }
  }

  /** The list after the realm, as the inverted scan sees it. */
  lemma InvertedTail(nonce: string, q: string, last: string)
    requires q == "nonce=" + ("\"" + nonce + "\"")
    ensures ", " + q + last == ", nonce=" + ("\"" + (nonce + ("\"" + last)))
  {
    assert ", " + "nonce=" == ", nonce=";
    T.Associative(", ", "nonce=", "\"" + nonce + "\"");
    T.Associative(", nonce=", "\"" + nonce + "\"", last);
    T.Associative("\"" + nonce, "\"", last);
    T.Associative("\"", nonce, "\"" + last);
  }

  lemma InvertedScan(v: string, nonce: string, p: string, q: string, last: string)
    requires p == Param("realm", Quote(v)) && EndsOpen(false, v)
    requires q == "nonce=" + ("\"" + nonce + "\"") && Unmarked(nonce) && '"' !in last
    ensures Extent(false, false, p + (", " + q + last)) == |p + (", " + q + last)|
  {
    InvertedTail(nonce, q, last);
    ScanIsInverted("realm=", v, ", nonce=", nonce, last);
    assert p == "realm=" + Quote(v);
    T.Associative("realm=", Quote(v), ", " + q + last);
  }

  /** The printed parameters with the suffix behind them are one list, and the scan takes all of it. */
  lemma MendedList(v: string, nonce: string, p: string, q: string, r: string, t: string, foo: string, again: string, mending: string)
    requires p == Param("realm", Quote(v)) && EndsOpen(false, v) && q == "nonce=" + ("\"" + nonce + "\"") && Unmarked(nonce)
    requires '"' !in r && '"' !in t && '"' !in foo && '"' !in again && mending == ", " + foo + ", " + again
    ensures var text := T.Join([p, q, r, t], ", ") + mending;
      text == T.Join([p, q, r, t] + [foo, again], ", ") && Extent(false, false, text) == |text|
  {
    assert [p, q, r, t] == [p] + [q, r, t];
    JoinIsHeadAndTail(p, [q, r, t]);
    TailOfThree(q, r, t);
    assert [p, q, r, t] + [foo, again] == [p] + ([q, r, t] + [foo, again]);
    JoinIsHeadAndTail(p, [q, r, t] + [foo, again]);
    TailConcat([q, r, t], [foo, again]);
    TailOfTwo(foo, again);
    T.Associative(p, Tail([q, r, t]), mending);
    var last := ", " + r + ", " + t + mending;
    SixPieces(", " + q, ", ", r, ", ", t, mending);
    InvertedScan(v, nonce, p, q, last);
  }

  lemma SixPieces(a: string, b: string, c: string, d: string, e: string, f: string)
    ensures a + b + c + d + e + f == a + (b + c + d + e + f)
  {
  }

  lemma MendedPartsAreKept(v: string, nonce: string, p: string, q: string, r: string, t: string, foo: string, again: string)
    requires p == Param("realm", Quote(v)) && q == Param("nonce", Quote(nonce))
    requires Kept(r) && Kept(t) && Kept(foo) && Kept(again)
    ensures AllKept([p, q, r, t] + [foo, again])
  {
    NamesArePlain();
    QuotedParamIsApart("realm", v, "");
    QuotedParamIsApart("nonce", nonce, "");
  }

  /** A part whose name holds a blank sets nothing. */
  lemma BlankNameIsIgnored(f: Fields, k: string, v: string, i: nat, part: string, rest: seq<string>)
    requires '=' !in k && T.Trim(k) == k && i < |k| && k[i] == ' ' && part == k + ['='] + v
    ensures ReadFields(f, [part] + rest) == ReadFields(f, rest)
  {
    T.SplitOnceAt(k, '=', v);
    NamesArePlain();
    var name := T.LowerAscii(k);
    assert name[i] == ' ';
    assert SetField(f, name, v) == f;
    assert ([part] + rest)[1..] == rest;
  }

  lemma MendedFields(c: Challenge, foo: string, k: string, realm: string, again: string)
    requires c.qop == [] && Printable(c)
    requires '=' !in k && T.Trim(k) == k && |k| > 3 && k[3] == ' ' && foo == k + ['='] + "1"
    requires again == Param("realm", realm) && Unquote(realm) == realm
    ensures ReadFields(NO_FIELDS, Params(c) + [foo, again]) == Some(Stage4(c).(realm := Some(realm)))
  {
    assert T.Join(c.qop, ",") == "";
    ParamsAreRead(c);
    ReadFieldsConcat(NO_FIELDS, Params(c), [foo, again]);
    BlankNameIsIgnored(Stage4(c), k, "1", 3, foo, [again]);
    NamesArePlain();
    assert [foo, again] == [foo] + [again] && [again] == [again] + [];
    ReadParam(Stage4(c), "realm", realm, []);
  }

  lemma ListIsTaken(header: string, text: string, parts: seq<string>, f: Fields)
    requires AfterScheme(header) == Some(text) && text == T.Join(parts, ", ") && Extent(false, false, text) == |text|
    requires parts != [] && AllKept(parts) && ReadFields(NO_FIELDS, parts) == Some(f)
    ensures Parse(header) == Complete(f)
  {
    assert text[..|text|] == text;
    SplitOfList([], "", parts);
    assert [] + parts == parts;
  }

  predicate Letters(word: string) {
    word != "" && forall i | 0 <= i < |word| :: 'a' <= word[i] <= 'z' || 'A' <= word[i] <= 'Z'
  }

  lemma {:induction false} FirstBlankIs(word: string, rest: string)
    requires forall i | 0 <= i < |word| :: word[i] != ' ' && word[i] != '\t'
    ensures FirstBlank(word + ([' '] + rest)) == Some(|word|)
    decreases word
  {
    var t := word + ([' '] + rest);
    if word == "" {
      assert t[0] == ' ';
    } else {
      assert t[0] == word[0] && t[1..] == word[1..] + ([' '] + rest);
      FirstBlankIs(word[1..], rest);
    }
  }

  lemma WordOpensScheme(word: string, rest: string)
    requires Letters(word)
    ensures OpensScheme(" " + (word + ([' '] + rest)))
  {
    var t := word + ([' '] + rest);
    assert (" " + t)[0] == ' ' && (" " + t)[1..] == t && t[0] == word[0];
    assert T.TrimStart(" " + t) == t;
    FirstBlankIs(word, rest);
    assert t[..|word|] == word;
  }

  lemma SuffixOpensScheme()
    ensures Follows(MENDING)
  {
    WordAfterComma("Foo", "x=1, realm=a\\", MENDING);
  }

  lemma WordAfterComma(word: string, rest: string, suffix: string)
    requires Letters(word) && suffix == [','] + ([' '] + (word + ([' '] + rest)))
    ensures Follows(suffix)
  {
    WordOpensScheme(word, rest);
    assert " " == [' '];
    assert suffix[1..] == [' '] + (word + ([' '] + rest));
  }

  lemma OpenIsPrintable()
    ensures Printable(OPEN) && !NoBackslash(OPEN)
  {
    assert OPEN.realm[1] == '\\';
  }

  lemma OpenParams()
    ensures Params(OPEN) == [Param("realm", Quote("a\\")), Param("nonce", Quote("n")), Param("algorithm", "MD5"), Param("userhash", "false")]
  {
  }

  lemma QuotedLetter(v: string)
    requires |v| == 1 && v[0] != '"' && v[0] != '\\'
    ensures Quote(v) == "\"" + v + "\"" && Doubled(v) == v
  {
    assert v[1..] == "" && v == [v[0]];
    assert Escape(v) == [v[0]] + Escape("") && Doubled(v) == [v[0]] + Doubled("");
  }

  /** Texts that the splitter leaves alone and that hold no quote. */
  ghost predicate Piece(text: string) {
    Kept(text) && '"' !in text
  }

  lemma PlainIsPiece(text: string)
    requires Framed(text) && Unquoted(text)
    ensures Piece(text)
  {
    PlainIsKept(text);
  }

  /** The facts about the literal pieces, for pieces of any name. */
  ghost predicate Mends(c: Challenge, q: string, r: string, t: string, foo: string, k: string, again: string, realm: string, mending: string) {
    && Printable(c) && c.qop == [] && EndsOpen(false, c.realm) && Unmarked(c.nonce)
    && Params(c) == [Param("realm", Quote(c.realm)), q, r, t]
    && q == Param("nonce", Quote(c.nonce)) && Quote(c.nonce) == "\"" + c.nonce + "\""
    && Piece(r) && Piece(t) && Piece(foo) && Piece(again)
    && mending == ", " + foo + ", " + again
    && '=' !in k && T.Trim(k) == k && |k| > 3 && k[3] == ' ' && foo == k + ['='] + "1"
    && again == Param("realm", realm) && Unquote(realm) == realm
  }

  /** Four parameters, of which the first ends in a backslash, with a scheme behind them that has a realm again. */
  lemma Mended(c: Challenge, q: string, r: string, t: string, foo: string, k: string, again: string, realm: string, mending: string)
    requires Mends(c, q, r, t, foo, k, again, realm, mending)
    ensures Parse("Digest" + " " + (T.Join(Params(c), ", ") + mending)) == Complete(Stage4(c).(realm := Some(realm)))
  {
    var text := T.Join(Params(c), ", ") + mending;
    var p := Param("realm", Quote(c.realm));
    DigestIsFound(text);
    assert q == "nonce=" + ("\"" + c.nonce + "\"");
    MendedList(c.realm, c.nonce, p, q, r, t, foo, again, mending);
    MendedPartsAreKept(c.realm, c.nonce, p, q, r, t, foo, again);
    MendedFields(c, foo, k, realm, again);
    ListIsTaken("Digest" + " " + text, text, Params(c) + [foo, again], Stage4(c).(realm := Some(realm)));
  }

  lemma DigestIsFound(text: string)
    ensures AfterScheme("Digest" + " " + text) == Some(text)
  {
    assert T.LowerAscii("Digest") == SCHEME;
    NoLetterNoScheme("");
    HeaderIsFound("", "Digest", text);
    assert "" + ("Digest" + " " + text) == "Digest" + " " + text;
  }

  lemma OpenIsMended(c: Challenge, q: string, r: string, t: string, foo: string, k: string, again: string, realm: string, mending: string)
    requires c == OPEN && mending == MENDING
    requires q == Param("nonce", Quote("n")) && r == Param("algorithm", "MD5") && t == Param("userhash", "false")
    requires foo == "Foo x=1" && k == "Foo x" && again == "realm=a\\" && realm == "a\\"
    ensures Mends(c, q, r, t, foo, k, again, realm, mending)
  {
    OpenIsPrintable();
    OpenParams();
    QuotedLetter("n");
    MendingPieces(foo, k, again, realm);
    TokenPieces(r, t);
  }

  lemma TokenPieces(r: string, t: string)
    requires r == Param("algorithm", "MD5") && t == Param("userhash", "false")
    ensures Piece(r) && Piece(t)
  {
    PlainIsPiece(r);
    PlainIsPiece(t);
  }

  lemma FieldsOfOpen(realm: string)
    requires realm == OPEN.realm
    ensures Complete(Stage4(OPEN).(realm := Some(realm))) == Some(OPEN)
  {
    QuotedLetter("n");
  }

  lemma OpenComesBack(c: Challenge, mending: string)
    requires c == OPEN && mending == MENDING
    ensures Parse(Print("Digest", c) + mending) == Some(c)
  {
    var q, r, t := Param("nonce", Quote("n")), Param("algorithm", "MD5"), Param("userhash", "false");
    OpenIsMended(c, q, r, t, "Foo x=1", "Foo x", "realm=a\\", "a\\", mending);
    Mended(c, q, r, t, "Foo x=1", "Foo x", "realm=a\\", "a\\", mending);
    FieldsOfOpen(c.realm);
    PrintedThenMended();
  }

  /** A failing input: this challenge has a backslash and comes back, mended by the scheme behind it. */
  lemma SuffixCanMendBackslash()
    ensures Printable(OPEN) && !NoBackslash(OPEN) && Follows(MENDING)
    ensures Parse(Print("Digest", OPEN) + MENDING) == Some(OPEN)
  {
    OpenIsPrintable();
    SuffixOpensScheme();
    OpenComesBack(OPEN, MENDING);
  }

  lemma PrintedThenMended()
    ensures Print("Digest", OPEN) + MENDING == "Digest" + " " + (T.Join(Params(OPEN), ", ") + MENDING)
  {
    T.Associative("Digest" + " ", T.Join(Params(OPEN), ", "), MENDING);
  }

  lemma MendingPieces(foo: string, k: string, again: string, realm: string)
    requires foo == "Foo x=1" && k == "Foo x" && again == "realm=a\\" && realm == "a\\"
    ensures Piece(foo) && Piece(again) && MENDING == ", " + foo + ", " + again && again == Param("realm", realm)
    ensures '=' !in k && T.Trim(k) == k && foo == k + ['='] + "1" && Unquote(realm) == realm
  {
    PlainIsPiece(foo);
    PlainIsPiece(again);
    NothingToTrim(k);
    NothingToTrim(realm);
  }
}
