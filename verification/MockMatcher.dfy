/** The mock server's request matching: a linear resolver and an indexed store that must agree with it. */
module MockMatcher {
  import opened Wrappers
  import T = Text

  datatype Source = Default | Example | Rule

  datatype MatchItem = MatchItem(key: string, value: string)

  datatype Definition = Definition(
    method_: string, path: string, matchQuery: seq<MatchItem>, matchHeaders: seq<MatchItem>,
    status: nat, headers: map<string, string>, bodyTemplate: string, delayMs: nat,
    faultRatePct: nat, faultStatus: nat, priority: int, source: Source)

  type Vars = map<string, string>

  /** Header names are stored in lower case; a value that is not visible ASCII reads as None. */
  type HeaderMap = seq<(string, Option<string>)>

  datatype Request = Request(method_: string, path: string, query: string, headers: HeaderMap)

  // ---- paths ----

  datatype PathSeg = Literal(text: string) | Param(name: string)

  function NonEmpty(pieces: seq<string>): seq<string> {
    if pieces == [] then [] else (if pieces[0] == "" then [] else [pieces[0]]) + NonEmpty(pieces[1..])
  }

  function Segments(path: string): seq<string> {
    NonEmpty(T.SplitOn(path, '/'))
  }

  /** The name inside `{name}`. */
  function StripBraces(s: string): Option<string> {
    if |s| >= 2 && s[0] == '{' && s[|s| - 1] == '}' then Some(s[1..|s| - 1]) else None
  }

  /** `{name}` captures; anything else is literal. */
  function CompileSeg(s: string): PathSeg {
    match StripBraces(s) case Some(name) => Param(name) case None => Literal(s)
  }

  function CompilePath(template: string): (segs: seq<PathSeg>)
    ensures |segs| == |Segments(template)|
    ensures forall i | 0 <= i < |segs| :: segs[i] == CompileSeg(Segments(template)[i])
  {
    var s := Segments(template);
    seq(|s|, i requires 0 <= i < |s| => CompileSeg(s[i]))
  }

  /** What the parameters capture: of two parameters with one name the later wins. */
  function Captures(segs: seq<PathSeg>, path: seq<string>): Vars
    requires |segs| == |path|
  {
    if segs == [] then map[]
    else
      var n := |segs| - 1;
      var before := Captures(segs[..n], path[..n]);
      if segs[n].Param? then before[segs[n].name := path[n]] else before
  }

  /** The literals among the first n segments are met. */
  predicate FitsUpTo(segs: seq<PathSeg>, path: seq<string>, n: nat)
    requires n <= |segs| && n <= |path|
  {
    forall i | 0 <= i < n :: segs[i].Literal? ==> segs[i].text == path[i]
  }

  function Match(segs: seq<PathSeg>, path: seq<string>): Option<Vars> {
    if |segs| == |path| && FitsUpTo(segs, path, |segs|) then Some(Captures(segs, path)) else None
  }

  /** The parameter's last occurrence. */
  predicate LastAt(segs: seq<PathSeg>, name: string, i: nat) {
    i < |segs| && segs[i] == Param(name) && forall k | i < k < |segs| :: segs[k] != Param(name)
  }

  /** The captured value of a name is the path segment at its last occurrence. */
  lemma {:induction false} CapturesLastOccurrence(segs: seq<PathSeg>, path: seq<string>, name: string)
    requires |segs| == |path|
    ensures name in Captures(segs, path) <==> Param(name) in segs
    ensures forall i: nat | LastAt(segs, name, i) :: name in Captures(segs, path) && Captures(segs, path)[name] == path[i]
  {
    if segs != [] {
      var n := |segs| - 1;
      CapturesLastOccurrence(segs[..n], path[..n], name);
      assert segs == segs[..n] + [segs[n]];
      forall i: nat | LastAt(segs, name, i)
        ensures name in Captures(segs, path) && Captures(segs, path)[name] == path[i]
      {
        if i < n {
          assert LastAt(segs[..n], name, i) && segs[n] != Param(name);
        }
      }
    }
  }

  /** One more segment matched. */
  lemma MatchSnoc(segs: seq<PathSeg>, path: seq<string>, i: nat)
    requires i < |segs| && i < |path|
    ensures Captures(segs[..i + 1], path[..i + 1])
         == (var before := Captures(segs[..i], path[..i]);
             if segs[i].Param? then before[segs[i].name := path[i]] else before)
    ensures FitsUpTo(segs, path, i + 1) <==> FitsUpTo(segs, path, i) && (segs[i].Literal? ==> segs[i].text == path[i])
  {
    assert segs[..i + 1][..i] == segs[..i] && path[..i + 1][..i] == path[..i];
  }

  method MatchCompiled(segs: seq<PathSeg>, path: seq<string>) returns (r: Option<Vars>)
    ensures r == Match(segs, path)
  {
    if |segs| != |path| {
      return None;
    }
    var vars: Vars := map[];
    for i := 0 to |segs|
      invariant FitsUpTo(segs, path, i)
      invariant vars == Captures(segs[..i], path[..i])
    {
      MatchSnoc(segs, path, i);
      match segs[i] {
        case Param(name) => vars := vars[name := path[i]];
        case Literal(text) =>
          if text != path[i] {
            return None;
          }
      }
    }
    assert segs[..|segs|] == segs && path[..|path|] == path;
    return Some(vars);
  }

  /** The linear resolver's matcher, which cuts the template up on every call, agrees with the compiled one. */
  method MatchPath(template: string, path: string) returns (r: Option<Vars>)
    ensures r == Match(CompilePath(template), Segments(path))
  {
    var t, p := Segments(template), Segments(path);
    if |t| != |p| {
      return None;
    }
    ghost var segs := CompilePath(template);
    var vars: Vars := map[];
    for i := 0 to |t|
      invariant FitsUpTo(segs, p, i)
      invariant vars == Captures(segs[..i], p[..i])
    {
      MatchSnoc(segs, p, i);
      var name := StripBraces(t[i]);
      assert segs[i] == CompileSeg(t[i]);
      if name.Some? {
        vars := vars[name.value := p[i]];
      } else if t[i] != p[i] {
        return None;
      }
    }
    assert segs[..|segs|] == segs && p[..|p|] == p;
    return Some(vars);
  }

  // ---- queries and headers ----

  function QueryItem(piece: string): (string, string) {
    match T.SplitOnce(piece, '=')
    case Some(kv) => kv
    case None => (piece, "")
  }

  /** The first pair of a key wins. */
  function FirstWins(pieces: seq<string>): Vars {
    if pieces == [] then map[]
    else
      var n := |pieces| - 1;
      var before := FirstWins(pieces[..n]);
      var (k, v) := QueryItem(pieces[n]);
      if k in before then before else before[k := v]
  }

  function QueryMap(query: string): Vars {
    FirstWins(NonEmpty(T.SplitOn(query, '&')))
  }

  method ParseQuery(query: string) returns (m: Vars)
    ensures m == QueryMap(query)
  {
    var pieces := NonEmpty(T.SplitOn(query, '&'));
    m := map[];
    for i := 0 to |pieces|
      invariant m == FirstWins(pieces[..i])
    {
      assert pieces[..i + 1][..i] == pieces[..i];
      var (k, v) := QueryItem(pieces[i]);
      if k !in m {
        m := m[k := v];
      }
    }
    assert pieces[..|pieces|] == pieces;
  }

  /** Reading the query map finds the first pair of that key. */
  lemma {:induction false} FirstPairIsFound(pieces: seq<string>, i: nat)
    requires i < |pieces|
    requires forall j | 0 <= j < i :: QueryItem(pieces[j]).0 != QueryItem(pieces[i]).0
    ensures QueryItem(pieces[i]).0 in FirstWins(pieces)
    ensures FirstWins(pieces)[QueryItem(pieces[i]).0] == QueryItem(pieces[i]).1
  {
    var n := |pieces| - 1;
    if i < n {
      FirstPairIsFound(pieces[..n], i);
    } else {
      if QueryItem(pieces[n]).0 in FirstWins(pieces[..n]) {
        KeysComeFromPieces(pieces[..n], QueryItem(pieces[n]).0);
      }
    }
  }

  lemma {:induction false} KeysComeFromPieces(pieces: seq<string>, k: string)
    requires k in FirstWins(pieces)
    ensures exists j | 0 <= j < |pieces| :: QueryItem(pieces[j]).0 == k
  {
    var n := |pieces| - 1;
    if QueryItem(pieces[n]).0 != k {
      KeysComeFromPieces(pieces[..n], k);
      var j :| 0 <= j < n && QueryItem(pieces[..n][j]).0 == k;
      assert pieces[j] == pieces[..n][j];
    }
  }

  /** An item with an empty value only asks for the key to be there. */
  predicate QueryMatch(items: seq<MatchItem>, query: Vars) {
    forall i | 0 <= i < |items| ::
      items[i].key in query && (items[i].value == "" || query[items[i].key] == items[i].value)
  }

  function HeaderGet(headers: HeaderMap, name: string): Option<string> {
    if headers == [] then None
    else if headers[0].0 == T.LowerAscii(name) then headers[0].1
    else HeaderGet(headers[1..], name)
  }

  /** Header names are looked up without regard to ASCII case. */
  lemma HeaderNamesIgnoreCase(headers: HeaderMap, a: string, b: string)
    requires T.EqIgnoreAsciiCase(a, b)
    ensures HeaderGet(headers, a) == HeaderGet(headers, b)
  {
    assert T.LowerAscii(a) == T.LowerAscii(b);
  }

  predicate HeadersMatch(items: seq<MatchItem>, headers: HeaderMap) {
    forall i | 0 <= i < |items| ::
      match HeaderGet(headers, items[i].key)
      case None => false
      case Some(v) => items[i].value == "" || v == items[i].value
  }

  // ---- the choice ----

  function RankOf(s: Source): nat {
    match s case Default => 0 case Example => 1 case Rule => 2
  }

  /** Strictly better: a higher source, or the same source and a higher priority. */
  predicate Picks(a: Definition, b: Definition) {
    if a.source != b.source then RankOf(a.source) > RankOf(b.source) else a.priority > b.priority
  }

  function VarsOf(def: Definition, r: Request): Option<Vars> {
    Match(CompilePath(def.path), Segments(r.path))
  }

  predicate Accepts(def: Definition, r: Request) {
    && T.EqIgnoreAsciiCase(def.method_, r.method_)
    && VarsOf(def, r).Some?
    && QueryMatch(def.matchQuery, QueryMap(r.query))
    && HeadersMatch(def.matchHeaders, r.headers)
  }

  /** The position a left-to-right scan settles on, keeping the first of equals. */
  function Scan<D>(ds: seq<D>, accepts: D -> bool, better: (D, D) -> bool): (k: Option<nat>)
    ensures k.Some? ==> k.value < |ds| && accepts(ds[k.value])
  {
    if ds == [] then None
    else
      var n := |ds| - 1;
      var best := Scan(ds[..n], accepts, better);
      if !accepts(ds[n]) then best
      else if best.None? || better(ds[n], ds[best.value]) then Some(n)
      else best
  }

  /** `better` compares by rank: what is not better than something not better is not better either. */
  ghost predicate IsRanking<D(!new)>(better: (D, D) -> bool) {
    && (forall a :: !better(a, a))
    && (forall a, b, c :: better(a, b) && !better(c, b) ==> better(a, c))
    && (forall a, b, c :: better(a, b) && better(b, c) ==> better(a, c))
  }

  /** The first of the best: accepted, beaten by none, and beating every accepted one before it. */
  ghost predicate IsFirstMaximal<D>(ds: seq<D>, accepts: D -> bool, better: (D, D) -> bool, k: nat) {
    && k < |ds| && accepts(ds[k])
    && (forall j | 0 <= j < |ds| && accepts(ds[j]) :: !better(ds[j], ds[k]))
    && (forall j | 0 <= j < k && accepts(ds[j]) :: better(ds[k], ds[j]))
  }

  lemma {:induction false} ScanFindsMaximal<D(!new)>(ds: seq<D>, accepts: D -> bool, better: (D, D) -> bool)
    requires IsRanking(better)
    ensures match Scan(ds, accepts, better)
            case None => forall j | 0 <= j < |ds| :: !accepts(ds[j])
            case Some(k) => IsFirstMaximal(ds, accepts, better, k)
  {
    if ds != [] {
      ScanFindsMaximal(ds[..|ds| - 1], accepts, better);
      assert forall j | 0 <= j < |ds| - 1 :: ds[..|ds| - 1][j] == ds[j];
    }
  }

  lemma FirstMaximalIsUnique<D>(ds: seq<D>, accepts: D -> bool, better: (D, D) -> bool, k: nat, m: nat)
    requires IsFirstMaximal(ds, accepts, better, k) && IsFirstMaximal(ds, accepts, better, m)
    ensures k == m
  {
  }

  function Acceptor(r: Request): Definition -> bool {
    d => Accepts(d, r)
  }

  function Best(defs: seq<Definition>, r: Request): Option<nat> {
    Scan(defs, Acceptor(r), Picks)
  }

  /** The choice is the first definition among those maximal in (source, priority), and only that one. */
  lemma BestIsFirstMaximal(defs: seq<Definition>, r: Request, k: nat)
    ensures Best(defs, r) == Some(k) <==> IsFirstMaximal(defs, Acceptor(r), Picks, k)
    ensures Best(defs, r) == None <==> forall j | 0 <= j < |defs| :: !Accepts(defs[j], r)
  {
    assert IsRanking(Picks);
    ScanFindsMaximal(defs, Acceptor(r), Picks);
    if IsFirstMaximal(defs, Acceptor(r), Picks, k) && Best(defs, r).Some? {
      FirstMaximalIsUnique(defs, Acceptor(r), Picks, k, Best(defs, r).value);
    }
  }

  /** A matching rule is never passed over for an example or a default, nor an example for a default; of one
      source the highest priority is chosen, and of one priority the first. */
  lemma SourcesComeInOrder(defs: seq<Definition>, r: Request, j: nat)
    requires j < |defs| && Accepts(defs[j], r)
    ensures Best(defs, r).Some? && Accepts(defs[Best(defs, r).value], r)
    ensures defs[j].source.Rule? ==> defs[Best(defs, r).value].source.Rule?
    ensures defs[j].source.Example? ==> !defs[Best(defs, r).value].source.Default?
    ensures defs[Best(defs, r).value].source == defs[j].source ==>
      && defs[Best(defs, r).value].priority >= defs[j].priority
      && (defs[Best(defs, r).value].priority == defs[j].priority ==> Best(defs, r).value <= j)
  {
    BestIsFirstMaximal(defs, r, 0);
    BestIsFirstMaximal(defs, r, Best(defs, r).value);
    assert Acceptor(r)(defs[j]);
  }

  // ---- what it takes to match ----

  /** The pieces between separators that are not empty. */
  function Pieces(s: string, c: char): seq<string> {
    NonEmpty(T.SplitOn(s, c))
  }

  lemma {:induction false} NonEmptyConcat(a: seq<string>, b: seq<string>)
    ensures NonEmpty(a + b) == NonEmpty(a) + NonEmpty(b)
  {
    if a == [] {
      assert a + b == b;
    } else {
      assert (a + b)[1..] == a[1..] + b;
      NonEmptyConcat(a[1..], b);
    }
  }

  lemma {:induction false} SplitConcat(s: string, t: string, c: char)
    ensures T.SplitOn(s + [c] + t, c) == T.SplitOn(s, c) + T.SplitOn(t, c)
    decreases s
  {
    var all := s + [c] + t;
    if s == "" {
      assert all[0] == c && all[1..] == t;
    } else {
      assert all[0] == s[0] && all[1..] == s[1..] + [c] + t;
      SplitConcat(s[1..], t, c);
      HeadOfConcat(T.SplitOn(s[1..], c), T.SplitOn(t, c), s[0]);
    }
  }

  lemma HeadOfConcat(a: seq<string>, b: seq<string>, x: char)
    requires a != []
    ensures [[x] + (a + b)[0]] + (a + b)[1..] == [[x] + a[0]] + a[1..] + b
    ensures [""] + (a + b) == [""] + a + b
  {
    assert (a + b)[1..] == a[1..] + b;
  }

  lemma {:induction false} SplitPlain(s: string, c: char)
    requires c !in s
    ensures T.SplitOn(s, c) == [s]
  {
    if s != "" {
      SplitPlain(s[1..], c);
      assert [s[0]] + s[1..] == s;
    }
  }

  lemma OnePiece(s: string)
    ensures NonEmpty([s]) == if s == "" then [] else [s]
  {
    assert [s][1..] == [];
    assert NonEmpty([]) == [];
  }

  /** Separators only separate: what stands on either side is cut up on its own, nothing comes of nothing,
      and a text without one is one piece. So repeated, leading and trailing separators do not count. */
  lemma SeparatorsSeparate(s: string, t: string, c: char)
    ensures Pieces(s + [c] + t, c) == Pieces(s, c) + Pieces(t, c)
    ensures Pieces("", c) == []
    ensures c !in s && s != "" ==> Pieces(s, c) == [s]
  {
    SplitConcat(s, t, c);
    NonEmptyConcat(T.SplitOn(s, c), T.SplitOn(t, c));
    OnePiece("");
    if c !in s {
      SplitPlain(s, c);
      OnePiece(s);
    }
  }

  /** The same number of non-empty segments, each the same text or a braced parameter. */
  predicate PathsAgree(template: string, path: string) {
    var t, p := Pieces(template, '/'), Pieces(path, '/');
    |t| == |p| && forall i | 0 <= i < |t| :: t[i] == p[i] || (|t[i]| >= 2 && t[i][0] == '{' && t[i][|t[i]| - 1] == '}')
  }

  /** One `key=value` piece; without `=` the value is empty, and only the first `=` counts. */
  predicate ReadsAs(piece: string, k: string, v: string) {
    (piece == k + "=" + v && '=' !in k) || (piece == k && '=' !in k && v == "")
  }

  lemma QueryItemReads(piece: string, k: string, v: string)
    ensures ReadsAs(piece, k, v) <==> QueryItem(piece) == (k, v)
  {
    if ReadsAs(piece, k, v) && piece == k + "=" + v {
      T.SplitOnceAt(k, '=', v);
    }
    assert "=" == ['='];
  }

  /** Piece `i` is the first with this key. */
  ghost predicate FirstOfKey(pieces: seq<string>, k: string, i: nat) {
    i < |pieces| && QueryItem(pieces[i]).0 == k && forall j | 0 <= j < i :: QueryItem(pieces[j]).0 != k
  }

  lemma {:induction false} FirstIndex(pieces: seq<string>, k: string) returns (i: nat)
    requires k in FirstWins(pieces)
    ensures FirstOfKey(pieces, k, i) && FirstWins(pieces)[k] == QueryItem(pieces[i]).1
  {
    var n := |pieces| - 1;
    if k in FirstWins(pieces[..n]) {
      i := FirstIndex(pieces[..n], k);
      assert forall j | 0 <= j <= i :: pieces[..n][j] == pieces[j];
    } else {
      i := n;
      forall j | 0 <= j < n ensures QueryItem(pieces[j]).0 != k {
        if QueryItem(pieces[j]).0 == k { KeyIsThere(pieces[..n], j); }
      }
    }
  }

  lemma {:induction false} KeyIsThere(pieces: seq<string>, j: nat)
    requires j < |pieces|
    ensures QueryItem(pieces[j]).0 in FirstWins(pieces)
  {
    var n := |pieces| - 1;
    if j < n {
      KeyIsThere(pieces[..n], j);
    }
  }

  /** A query condition: the first piece with that key has the value asked for, or no value is asked for. */
  ghost predicate QueryAgrees(item: MatchItem, query: string) {
    var pieces := Pieces(query, '&');
    exists i, v | 0 <= i < |pieces| ::
      && ReadsAs(pieces[i], item.key, v) && (item.value == "" || v == item.value)
      && forall j, w | 0 <= j < i :: !ReadsAs(pieces[j], item.key, w)
  }

  /** A header condition: the first header of that name has the value asked for, or no value is asked for;
      a value that is not text never agrees. */
  ghost predicate HeaderAgrees(item: MatchItem, headers: HeaderMap) {
    exists i | 0 <= i < |headers| ::
      && headers[i].0 == T.LowerAscii(item.key) && headers[i].1.Some?
      && (item.value == "" || headers[i].1.value == item.value)
      && forall j | 0 <= j < i :: headers[j].0 != T.LowerAscii(item.key)
  }

  lemma QueryItemAgrees(item: MatchItem, query: string)
    ensures QueryAgrees(item, query) <==>
      item.key in QueryMap(query) && (item.value == "" || QueryMap(query)[item.key] == item.value)
  {
    var pieces := Pieces(query, '&');
    if QueryAgrees(item, query) {
      var i, v :| 0 <= i < |pieces| && ReadsAs(pieces[i], item.key, v) && (item.value == "" || v == item.value)
        && forall j, w | 0 <= j < i :: !ReadsAs(pieces[j], item.key, w);
      QueryItemReads(pieces[i], item.key, v);
      NoEarlierKey(pieces, item.key, i);
      FirstPairIsFound(pieces, i);
    }
    if item.key in QueryMap(query) && (item.value == "" || QueryMap(query)[item.key] == item.value) {
      var i := FirstIndex(pieces, item.key);
      var v := QueryItem(pieces[i]).1;
      QueryItemReads(pieces[i], item.key, v);
      NoEarlierReading(pieces, item.key, i);
    }
  }

  lemma NoEarlierKey(pieces: seq<string>, k: string, i: nat)
    requires i <= |pieces| && forall j, w | 0 <= j < i :: !ReadsAs(pieces[j], k, w)
    ensures forall j | 0 <= j < i :: QueryItem(pieces[j]).0 != k
  {
    forall j | 0 <= j < i ensures QueryItem(pieces[j]).0 != k {
      QueryItemReads(pieces[j], k, QueryItem(pieces[j]).1);
    }
  }

  lemma NoEarlierReading(pieces: seq<string>, k: string, i: nat)
    requires i <= |pieces| && forall j | 0 <= j < i :: QueryItem(pieces[j]).0 != k
    ensures forall j, w | 0 <= j < i :: !ReadsAs(pieces[j], k, w)
  {
    forall j, w | 0 <= j < i ensures !ReadsAs(pieces[j], k, w) {
      QueryItemReads(pieces[j], k, w);
    }
  }

  lemma {:induction false} FirstHeader(headers: HeaderMap, name: string, v: Option<string>)
    ensures HeaderGet(headers, name) == v && v.Some? <==>
      v.Some? && exists i | 0 <= i < |headers| ::
        headers[i].0 == T.LowerAscii(name) && headers[i].1 == v && forall j | 0 <= j < i :: headers[j].0 != T.LowerAscii(name)
  {
    if headers != [] && headers[0].0 != T.LowerAscii(name) {
      var rest := headers[1..];
      FirstHeader(rest, name, v);
      if i :| 0 <= i < |rest| && rest[i].0 == T.LowerAscii(name) && rest[i].1 == v && forall j | 0 <= j < i :: rest[j].0 != T.LowerAscii(name) {
        assert headers[i + 1] == rest[i];
        assert forall j | 0 < j < i + 1 :: headers[j] == rest[j - 1];
      }
      if i :| 0 <= i < |headers| && headers[i].0 == T.LowerAscii(name) && headers[i].1 == v && forall j | 0 <= j < i :: headers[j].0 != T.LowerAscii(name) {
        assert rest[i - 1] == headers[i];
        assert forall j | 0 <= j < i - 1 :: rest[j] == headers[j + 1];
      }
    }
  }

  lemma HeaderItemAgrees(item: MatchItem, headers: HeaderMap)
    ensures HeaderAgrees(item, headers) <==>
      HeaderGet(headers, item.key).Some? && (item.value == "" || HeaderGet(headers, item.key).value == item.value)
  {
    if HeaderAgrees(item, headers) {
      var i :| 0 <= i < |headers| && headers[i].0 == T.LowerAscii(item.key) && headers[i].1.Some?
        && (item.value == "" || headers[i].1.value == item.value)
        && forall j | 0 <= j < i :: headers[j].0 != T.LowerAscii(item.key);
      FirstHeader(headers, item.key, headers[i].1);
    }
    FirstHeader(headers, item.key, HeaderGet(headers, item.key));
  }

  lemma PathsAgreeIff(def: Definition, r: Request)
    ensures VarsOf(def, r).Some? <==> PathsAgree(def.path, r.path)
  {
    var segs, t, p := CompilePath(def.path), Segments(def.path), Segments(r.path);
    assert t == Pieces(def.path, '/') && p == Pieces(r.path, '/');
    forall i | 0 <= i < |t| && |t| == |p|
      ensures (segs[i].Literal? ==> segs[i].text == p[i])
          <==> t[i] == p[i] || (|t[i]| >= 2 && t[i][0] == '{' && t[i][|t[i]| - 1] == '}')
    {
      assert segs[i] == CompileSeg(t[i]);
    }
  }

  /** A definition accepts a request if and only if the methods are the same without regard to case, the
      paths agree segment by segment, and every query and header condition is met. */
  lemma AcceptsMeans(def: Definition, r: Request)
    ensures Accepts(def, r) <==>
      && |def.method_| == |r.method_| && T.UpperAscii(def.method_) == T.UpperAscii(r.method_)
      && PathsAgree(def.path, r.path)
      && (forall i | 0 <= i < |def.matchQuery| :: QueryAgrees(def.matchQuery[i], r.query))
      && (forall i | 0 <= i < |def.matchHeaders| :: HeaderAgrees(def.matchHeaders[i], r.headers))
  {
    T.UpperAgreesWithIgnoreCase(def.method_, r.method_);
    PathsAgreeIff(def, r);
    QueriesAgree(def.matchQuery, r.query);
    HeadersAgree(def.matchHeaders, r.headers);
  }

  lemma QueriesAgree(items: seq<MatchItem>, query: string)
    ensures QueryMatch(items, QueryMap(query)) <==> forall i | 0 <= i < |items| :: QueryAgrees(items[i], query)
  {
    forall i | 0 <= i < |items|
      ensures QueryAgrees(items[i], query) <==>
        items[i].key in QueryMap(query) && (items[i].value == "" || QueryMap(query)[items[i].key] == items[i].value)
    {
      QueryItemAgrees(items[i], query);
    }
  }

  lemma HeadersAgree(items: seq<MatchItem>, headers: HeaderMap)
    ensures HeadersMatch(items, headers) <==> forall i | 0 <= i < |items| :: HeaderAgrees(items[i], headers)
  {
    forall i | 0 <= i < |items|
      ensures HeaderAgrees(items[i], headers) <==>
        var found := HeaderGet(headers, items[i].key);
        found.Some? && (items[i].value == "" || found.value == items[i].value)
    {
      HeaderItemAgrees(items[i], headers);
    }
  }

  /** What is captured under a name: the request's segment at the last braced segment of that name. */
  lemma CapturesAreSegments(def: Definition, r: Request, name: string, i: nat)
    requires VarsOf(def, r).Some? && i < |Pieces(def.path, '/')|
    requires Pieces(def.path, '/')[i] == "{" + name + "}"
    requires forall k | i < k < |Pieces(def.path, '/')| :: Pieces(def.path, '/')[k] != "{" + name + "}"
    ensures |Pieces(r.path, '/')| == |Pieces(def.path, '/')|
    ensures Get(VarsOf(def, r).value, name) == Some(Pieces(r.path, '/')[i])
  {
    var segs, t := CompilePath(def.path), Segments(def.path);
    assert ("{" + name + "}")[1..|name| + 1] == name;
    assert segs[i] == CompileSeg(t[i]) == Param(name);
    forall k | i < k < |segs| ensures segs[k] != Param(name) {
      assert segs[k] == CompileSeg(t[k]);
      BracesOf(t[k], name);
    }
    assert LastAt(segs, name, i);
    CapturesLastOccurrence(segs, Segments(r.path), name);
  }

  lemma BracesOf(s: string, name: string)
    ensures CompileSeg(s) == Param(name) ==> s == "{" + name + "}"
  {
    if CompileSeg(s) == Param(name) {
      assert s == [s[0]] + s[1..|s| - 1] + [s[|s| - 1]];
    }
  }

  lemma {:induction false} SkipRejected<D>(ds: seq<D>, accepts: D -> bool, better: (D, D) -> bool, i: nat, j: nat)
    requires i <= j <= |ds|
    requires forall k | i <= k < j :: !accepts(ds[k])
    ensures Scan(ds[..j], accepts, better) == Scan(ds[..i], accepts, better)
  {
    if i < j {
      SkipRejected(ds, accepts, better, i, j - 1);
      assert ds[..j][..j - 1] == ds[..j - 1];
    }
  }

  /** One more definition scanned. */
  lemma BestSnoc(defs: seq<Definition>, r: Request, i: nat)
    requires i < |defs|
    ensures Best(defs[..i + 1], r)
         == (var best := Best(defs[..i], r);
             if !Accepts(defs[i], r) then best
             else if best.None? || Picks(defs[i], defs[best.value]) then Some(i)
             else best)
  {
    assert defs[..i + 1][..i] == defs[..i] && defs[..i + 1][i] == defs[i];
  }

  function Answer(defs: seq<Definition>, r: Request): Option<(Definition, Vars)> {
    match Best(defs, r)
    case None => None
    case Some(k) => Some((defs[k], VarsOf(defs[k], r).value))
  }

  lemma AnswerSnoc(defs: seq<Definition>, r: Request, i: nat)
    requires i < |defs|
    ensures Answer(defs[..i + 1], r)
         == (var best := Answer(defs[..i], r);
             if Accepts(defs[i], r) && (best.None? || Picks(defs[i], best.value.0))
             then Some((defs[i], VarsOf(defs[i], r).value))
             else best)
  {
    BestSnoc(defs, r, i);
    var best := Best(defs[..i], r);
    assert best.Some? ==> defs[..i + 1][best.value] == defs[..i][best.value] == defs[best.value];
  }

  /** The linear resolver. */
  method Resolve(defs: seq<Definition>, r: Request) returns (hit: Option<(Definition, Vars)>)
    ensures hit == Answer(defs, r)
  {
    hit := None;
    for i := 0 to |defs|
      invariant hit == Answer(defs[..i], r)
    {
      var def := defs[i];
      AnswerSnoc(defs, r, i);
      if !T.EqIgnoreAsciiCase(def.method_, r.method_) { continue; }
      var vars := MatchPath(def.path, r.path);
      if vars.None? { continue; }
      var query := ParseQuery(r.query);
      if !QueryMatch(def.matchQuery, query) { continue; }
      if !HeadersMatch(def.matchHeaders, r.headers) { continue; }
      if hit.None? || Picks(def, hit.value.0) {
        hit := Some((def, vars.value));
      }
    }
    assert defs[..|defs|] == defs;
  }

  // ---- the indexed store ----

  datatype CompiledRoute = CompiledRoute(def: Definition, methodUpper: string, segments: seq<PathSeg>)

  type Key = (string, nat)

  function Compile(def: Definition): CompiledRoute {
    CompiledRoute(def, T.UpperAscii(def.method_), CompilePath(def.path))
  }

  function Compiled(defs: seq<Definition>): (routes: seq<CompiledRoute>)
    ensures |routes| == |defs| && forall i | 0 <= i < |defs| :: routes[i] == Compile(defs[i])
  {
    seq(|defs|, i requires 0 <= i < |defs| => Compile(defs[i]))
  }

  lemma CompiledSnoc(defs: seq<Definition>, i: nat)
    requires i < |defs|
    ensures Compiled(defs[..i + 1]) == Compiled(defs[..i]) + [Compile(defs[i])]
  {
  }

  function KeyOf(route: CompiledRoute): Key {
    (route.methodUpper, |route.segments|)
  }

  function RequestKey(r: Request): Key {
    (T.UpperAscii(r.method_), |Segments(r.path)|)
  }

  /** All positions of the routes of a key, ascending. */
  ghost predicate IsPositions(routes: seq<CompiledRoute>, key: Key, ps: seq<nat>) {
    && (forall i | 0 <= i < |ps| :: ps[i] < |routes| && KeyOf(routes[ps[i]]) == key)
    && (forall i, j | 0 <= i < j < |ps| :: ps[i] < ps[j])
    && (forall k | 0 <= k < |routes| && KeyOf(routes[k]) == key :: k in ps)
  }

  ghost predicate IndexIsExact(routes: seq<CompiledRoute>, index: map<Key, seq<nat>>) {
    && (forall k | 0 <= k < |routes| :: KeyOf(routes[k]) in index)
    && (forall key | key in index :: index[key] != [] && IsPositions(routes, key, index[key]))
  }

  /** A definition the request's key does not reach would not have accepted it. */
  lemma OtherKeysReject(def: Definition, r: Request)
    requires KeyOf(Compile(def)) != RequestKey(r)
    ensures !Accepts(def, r)
  {
    T.UpperAgreesWithIgnoreCase(def.method_, r.method_);
  }

  lemma SameKeyMethods(def: Definition, r: Request)
    requires KeyOf(Compile(def)) == RequestKey(r)
    ensures T.EqIgnoreAsciiCase(def.method_, r.method_)
  {
    T.UpperAgreesWithIgnoreCase(def.method_, r.method_);
  }

  lemma PositionsGrow(routes: seq<CompiledRoute>, key: Key, ps: seq<nat>, route: CompiledRoute)
    requires IsPositions(routes, key, ps)
    ensures IsPositions(routes + [route], key, if KeyOf(route) == key then ps + [|routes|] else ps)
  {
    if KeyOf(route) == key {
      PositionsGain(routes, key, ps, route);
    } else {
      var more := routes + [route];
      forall k | 0 <= k < |more| && KeyOf(more[k]) == key ensures k in ps {
        assert k < |routes| && more[k] == routes[k];
      }
    }
  }

  lemma PositionsGain(routes: seq<CompiledRoute>, key: Key, ps: seq<nat>, route: CompiledRoute)
    requires IsPositions(routes, key, ps) && KeyOf(route) == key
    ensures IsPositions(routes + [route], key, ps + [|routes|])
  {
    var more, list := routes + [route], ps + [|routes|];
    forall k | 0 <= k < |more| && KeyOf(more[k]) == key ensures k in list {
      if k < |routes| {
        assert more[k] == routes[k] && k in ps;
      } else {
        assert list[|ps|] == k;
      }
    }
  }

  lemma IndexGrows(routes: seq<CompiledRoute>, index: map<Key, seq<nat>>, route: CompiledRoute, ps: seq<nat>,
                   more: seq<CompiledRoute>, grown: map<Key, seq<nat>>)
    requires IndexIsExact(routes, index)
    requires ps == if KeyOf(route) in index then index[KeyOf(route)] else []
    requires more == routes + [route] && grown == index[KeyOf(route) := ps + [|routes|]]
    ensures IndexIsExact(more, grown)
  {
    assert IsPositions(routes, KeyOf(route), ps);
    forall key | key in grown ensures IsPositions(more, key, grown[key]) {
      PositionsGrow(routes, key, if key == KeyOf(route) then ps else index[key], route);
    }
  }

  /** The first `i` definitions are compiled and indexed. */
  ghost predicate Built(defs: seq<Definition>, i: nat, routes: seq<CompiledRoute>, index: map<Key, seq<nat>>) {
    i <= |defs| && routes == Compiled(defs[..i]) && IndexIsExact(routes, index)
  }

  lemma BuiltAtEnds(defs: seq<Definition>, routes: seq<CompiledRoute>, index: map<Key, seq<nat>>)
    ensures Built(defs, 0, [], map[])
    ensures Built(defs, |defs|, routes, index) ==> routes == Compiled(defs) && IndexIsExact(routes, index)
  {
    assert defs[..0] == [] && defs[..|defs|] == defs;
  }

  lemma OneMoreIndexed(defs: seq<Definition>, i: nat, routes: seq<CompiledRoute>, index: map<Key, seq<nat>>,
                       more: seq<CompiledRoute>, grown: map<Key, seq<nat>>)
    requires i < |defs| && Built(defs, i, routes, index)
    requires more == routes + [Compile(defs[i])]
    requires var key := KeyOf(Compile(defs[i])); grown == index[key := (if key in index then index[key] else []) + [|routes|]]
    ensures Built(defs, i + 1, more, grown)
  {
    var key := KeyOf(Compile(defs[i]));
    CompiledSnoc(defs, i);
    IndexGrows(routes, index, Compile(defs[i]), if key in index then index[key] else [], more, grown);
  }

  /** The definitions decided once `c` candidates are dealt with. */
  function Reached(ps: seq<nat>, c: nat, n: nat): nat
    requires c <= |ps|
  {
    if c < |ps| then ps[c] else n
  }

  /** Between two neighbours of an ascending list there is nothing of the list. */
  lemma NotInGap(ps: seq<nat>, c: nat, k: nat, n: nat)
    requires c <= |ps| && forall i, j | 0 <= i < j < |ps| :: ps[i] < ps[j]
    requires (if c == 0 then 0 else ps[c - 1] + 1) <= k < Reached(ps, c, n)
    ensures k !in ps
  {
    forall m | 0 <= m < |ps| ensures ps[m] != k {
      assert m < c - 1 ==> ps[m] < ps[c - 1];
      assert m > c ==> ps[c] < ps[m];
    }
  }

  lemma GapRejects(defs: seq<Definition>, r: Request, ps: seq<nat>, c: nat)
    requires c <= |ps| && IsPositions(Compiled(defs), RequestKey(r), ps)
    ensures forall k | (if c == 0 then 0 else ps[c - 1] + 1) <= k < Reached(ps, c, |defs|) :: !Accepts(defs[k], r)
  {
    var routes := Compiled(defs);
    forall k | (if c == 0 then 0 else ps[c - 1] + 1) <= k < Reached(ps, c, |defs|) ensures !Accepts(defs[k], r) {
      NotInGap(ps, c, k, |defs|);
      assert KeyOf(routes[k]) != RequestKey(r);
      OtherKeysReject(defs[k], r);
    }
  }

  lemma StepOverCandidate(defs: seq<Definition>, r: Request, ps: seq<nat>, c: nat)
    requires c < |ps| && IsPositions(Compiled(defs), RequestKey(r), ps)
    ensures ps[c] < |defs|
    ensures Best(defs[..Reached(ps, c + 1, |defs|)], r)
         == (var best := Best(defs[..ps[c]], r);
             if !Accepts(defs[ps[c]], r) then best
             else if best.None? || Picks(defs[ps[c]], defs[best.value]) then Some(ps[c])
             else best)
  {
    var k := ps[c];
    assert k < |Compiled(defs)|;
    GapRejects(defs, r, ps, c + 1);
    StepOver(defs, r, k, Reached(ps, c + 1, |defs|));
  }

  lemma StepOver(defs: seq<Definition>, r: Request, k: nat, next: nat)
    requires k < next <= |defs| && forall m | k + 1 <= m < next :: !Accepts(defs[m], r)
    ensures Best(defs[..next], r)
         == (var best := Best(defs[..k], r);
             if !Accepts(defs[k], r) then best
             else if best.None? || Picks(defs[k], defs[best.value]) then Some(k)
             else best)
  {
    BestSnoc(defs, r, k);
    SkipRejected(defs, Acceptor(r), Picks, k + 1, next);
  }

  class MockStore {
    var routes: seq<CompiledRoute>
    var index: map<Key, seq<nat>>

    constructor ()
      ensures Holds([])
    {
      routes := [];
      index := map[];
    }

    /** The store holds these definitions, compiled in order and indexed exactly. */
    ghost predicate Holds(defs: seq<Definition>)
      reads this
    {
      routes == Compiled(defs) && IndexIsExact(routes, index)
    }

    method SetDefinitions(defs: seq<Definition>)
      modifies this
      ensures Holds(defs)
    {
      routes, index := BuildIndex(defs);
    }

    /** The loop of `set_definitions`: the compiled routes, and their positions by key. */
    static method BuildIndex(defs: seq<Definition>) returns (newRoutes: seq<CompiledRoute>, newIndex: map<Key, seq<nat>>)
      ensures newRoutes == Compiled(defs) && IndexIsExact(newRoutes, newIndex)
    {
      newRoutes, newIndex := [], map[];
      BuiltAtEnds(defs, newRoutes, newIndex);
      for i := 0 to |defs|
        invariant Built(defs, i, newRoutes, newIndex)
      {
        var route := Compile(defs[i]);
        var key := KeyOf(route);
        var positions := if key in newIndex then newIndex[key] else [];
        ghost var routesBefore, indexBefore := newRoutes, newIndex;
        newIndex := newIndex[key := positions + [|newRoutes|]];
        newRoutes := newRoutes + [route];
        OneMoreIndexed(defs, i, routesBefore, indexBefore, newRoutes, newIndex);
      }
      BuiltAtEnds(defs, newRoutes, newIndex);
    }

    /** The indexed match finds what the linear resolver finds, and hands on the parsed query. */
    method MatchRequest(ghost defs: seq<Definition>, r: Request) returns (hit: Option<(Definition, Vars, Vars)>)
      requires Holds(defs)
      ensures hit == match Answer(defs, r) case None => None case Some((d, vars)) => Some((d, vars, QueryMap(r.query)))
    {
      var segs := Segments(r.path);
      var query := ParseQuery(r.query);
      var key := (T.UpperAscii(r.method_), |segs|);
      if key !in index {
        forall k | 0 <= k < |defs| ensures !Accepts(defs[k], r) { OtherKeysReject(defs[k], r); }
        SkipRejected(defs, Acceptor(r), Picks, 0, |defs|);
        assert defs[..|defs|] == defs;
        return None;
      }
      var candidates := index[key];
      var best: Option<(nat, Vars)> := None;
      GapRejects(defs, r, candidates, 0);
      SkipRejected(defs, Acceptor(r), Picks, 0, Reached(candidates, 0, |defs|));
      for c := 0 to |candidates|
        invariant best.Some? ==> best.value.0 < |defs| && VarsOf(defs[best.value.0], r) == Some(best.value.1)
        invariant Best(defs[..Reached(candidates, c, |defs|)], r) == if best.None? then None else Some(best.value.0)
      {
        var idx := candidates[c];
        var route := routes[idx];
        StepOverCandidate(defs, r, candidates, c);
        SameKeyMethods(defs[idx], r);
        var vars := MatchCompiled(route.segments, segs);
        if vars.None? { continue; }
        if !QueryMatch(route.def.matchQuery, query) { continue; }
        if !HeadersMatch(route.def.matchHeaders, r.headers) { continue; }
        if best.None? || Picks(route.def, routes[best.value.0].def) {
          best := Some((idx, vars.value));
        }
      }
      assert defs[..|defs|] == defs;
      if best.None? {
        return None;
      }
      return Some((routes[best.value.0].def, best.value.1, query));
    }
  }
}
