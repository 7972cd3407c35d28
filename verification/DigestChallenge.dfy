/** Reading the Digest challenge out of a `WWW-Authenticate` header (RFC 7616 section 3.3). */
module DigestChallenge {
  import opened Wrappers
  import T = Text

  datatype Challenge = Challenge(
    realm: string, nonce: string, opaque_: Option<string>, qop: seq<string>, algorithm: string, userhash: bool)

  // ---- cutting the parameter list at commas outside quotes ----

  datatype Splitter = Splitter(parts: seq<string>, cur: string, inQuotes: bool, escaped: bool)

  function SplitStep(k: Splitter, ch: char): Splitter {
    if k.escaped then k.(cur := k.cur + [ch], escaped := false)
    else if ch == '\\' && k.inQuotes then k.(cur := k.cur + [ch], escaped := true)
    else if ch == '"' then k.(inQuotes := !k.inQuotes, cur := k.cur + [ch])
    else if ch == ',' && !k.inQuotes then k.(parts := k.parts + [T.Trim(k.cur)], cur := "")
    else k.(cur := k.cur + [ch])
  }

  function SplitFeed(k: Splitter, s: string): Splitter
    decreases s
  {
    if s == "" then k else SplitFeed(SplitStep(k, s[0]), s[1..])
  }

  function SplitEnd(k: Splitter): seq<string> {
    if T.Trim(k.cur) != "" then k.parts + [T.Trim(k.cur)] else k.parts
  }

  function SplitParams(s: string): seq<string> {
    SplitEnd(SplitFeed(Splitter([], "", false, false), s))
  }

  lemma {:induction false} SplitFeedConcat(k: Splitter, a: string, b: string)
    ensures SplitFeed(k, a + b) == SplitFeed(SplitFeed(k, a), b)
    decreases a
  {
    if a == "" {
      assert a + b == b;
    } else {
      assert (a + b)[0] == a[0] && (a + b)[1..] == a[1..] + b;
      SplitFeedConcat(SplitStep(k, a[0]), a[1..], b);
    }
  }

  method SplitChallengeParams(s: string) returns (out: seq<string>)
    ensures out == SplitParams(s)
  {
    out := [];
    var cur, inQuotes, escaped := "", false, false;
    for i := 0 to |s|
      invariant SplitFeed(Splitter([], "", false, false), s)
             == SplitFeed(Splitter(out, cur, inQuotes, escaped), s[i..])
    {
      var ch := s[i];
      ghost var before := Splitter(out, cur, inQuotes, escaped);
      if escaped {
        cur := cur + [ch];
        escaped := false;
      } else if ch == '\\' && inQuotes {
        cur := cur + [ch];
        escaped := true;
      } else if ch == '"' {
        inQuotes := !inQuotes;
        cur := cur + [ch];
      } else if ch == ',' && !inQuotes {
        out := out + [T.Trim(cur)];
        cur := "";
      } else {
        cur := cur + [ch];
      }
      assert Splitter(out, cur, inQuotes, escaped) == SplitStep(before, ch);
      assert s[i..][0] == ch && s[i..][1..] == s[i + 1..];
    }
    assert s[|s|..] == "";
    if T.Trim(cur) != "" {
      out := out + [T.Trim(cur)];
    }
  }

  // ---- where the Digest segment ends ----

  /** RFC 9110 section 5.6.2. */
  predicate TokenChar(c: char) {
    || 'a' <= c <= 'z' || 'A' <= c <= 'Z' || '0' <= c <= '9'
    || c in "!#$%&'*+-.^_`|~"
  }

  predicate IsToken(s: string) {
    s != "" && forall i | 0 <= i < |s| :: TokenChar(s[i])
  }

  function FirstBlank(s: string): (r: Option<nat>)
    ensures r.Some? ==> r.value < |s|
  {
    if s == "" then None
    else if s[0] == ' ' || s[0] == '\t' then Some(0)
    else match FirstBlank(s[1..]) case None => None case Some(i) => Some(i + 1)
  }

  /** What follows a comma opens another scheme: a token and a blank. */
  predicate OpensScheme(ahead: string) {
    var t := T.TrimStart(ahead);
    FirstBlank(t).Some? && IsToken(t[..FirstBlank(t).value]) && '=' !in t[..FirstBlank(t).value]
  }

  /** How much of the text belongs to this challenge, given what was read just before it. */
  function Extent(afterBackslash: bool, inQuotes: bool, s: string): (n: nat)
    ensures n <= |s|
    decreases s
  {
    if s == "" then 0
    else
      var quotes := if s[0] == '"' && !afterBackslash then !inQuotes else inQuotes;
      if s[0] == ',' && !quotes && OpensScheme(s[1..]) then 0
      else 1 + Extent(s[0] == '\\', quotes, s[1..])
  }

  lemma {:induction false} FirstBlankAt(s: string, i: nat)
    requires i <= |s| && forall k | 0 <= k < i :: s[k] != ' ' && s[k] != '\t'
    requires i < |s| ==> s[i] == ' ' || s[i] == '\t'
    ensures FirstBlank(s) == if i < |s| then Some(i) else None
  {
    if i > 0 {
      FirstBlankAt(s[1..], i - 1);
    }
  }

  /** A token and a blank lie ahead. */
  method NewSchemeAhead(ahead: string) returns (opens: bool)
    ensures opens == OpensScheme(ahead)
  {
    var t := T.TrimStart(ahead);
    var sp := 0;
    while sp < |t| && t[sp] != ' ' && t[sp] != '\t'
      invariant 0 <= sp <= |t| && forall k | 0 <= k < sp :: t[k] != ' ' && t[k] != '\t'
    {
      sp := sp + 1;
    }
    FirstBlankAt(t, sp);
    if sp == |t| || sp == 0 {
      return false;
    }
    var word := t[..sp];
    opens := true;
    for k := 0 to |word|
      invariant opens == forall i | 0 <= i < k :: TokenChar(word[i]) && word[i] != '='
    {
      var c := word[k];
      SpecialChars(c);
      if !('a' <= c <= 'z' || 'A' <= c <= 'Z' || '0' <= c <= '9' || Special(c)) || c == '=' {
        opens := false;
      }
    }
  }

  /** The characters besides letters and digits that a token may hold. */
  predicate Special(c: char) {
    || c == '!' || c == '#' || c == '$' || c == '%' || c == '&' || c == '\'' || c == '*' || c == '+' || c == '-'
    || c == '.' || c == '^' || c == '_' || c == '`' || c == '|' || c == '~'
  }

  lemma SpecialChars(c: char)
    ensures TokenChar(c) <==> 'a' <= c <= 'z' || 'A' <= c <= 'Z' || '0' <= c <= '9' || Special(c)
  {
  }

  method FindEnd(rest: string) returns (end: nat)
    ensures end == Extent(false, false, rest)
  {
    end := |rest|;
    var inQuotes := false;
    var pos := 0;
    assert rest[0..] == rest;
    while pos < |rest|
      invariant 0 <= pos <= |rest| && end == |rest|
      invariant Extent(false, false, rest) == pos + Extent(pos > 0 && rest[pos - 1] == '\\', inQuotes, rest[pos..])
    {
      var ch := rest[pos];
      assert rest[pos..][0] == ch && rest[pos..][1..] == rest[pos + 1..];
      if ch == '"' && (pos == 0 || rest[pos - 1] != '\\') {
        inQuotes := !inQuotes;
      }
      if ch == ',' && !inQuotes {
        var opens := NewSchemeAhead(rest[pos + 1..]);
        if opens {
          end := pos;
          break;
        }
      }
      pos := pos + 1;
    }
  }

  // ---- the parameters ----

  function Unescape(s: string): string {
    if s == "" then ""
    else if |s| >= 2 && s[0] == '\\' && s[1] == '"' then "\"" + Unescape(s[2..])
    else [s[0]] + Unescape(s[1..])
  }

  function Unquote(s: string): string {
    var t := T.Trim(s);
    if |t| >= 2 && t[0] == '"' && t[|t| - 1] == '"' then Unescape(t[1..|t| - 1]) else t
  }

  datatype Fields = Fields(realm: Option<string>, nonce: Option<string>, opaque_: Option<string>,
                           qop: seq<string>, algorithm: string, userhash: bool)

  const NO_FIELDS := Fields(None, None, None, [], "MD5", false)

  function QopItems(pieces: seq<string>): seq<string> {
    if pieces == [] then []
    else
      var item := T.LowerAscii(T.Trim(pieces[0]));
      (if item == "" then [] else [item]) + QopItems(pieces[1..])
  }

  function SetField(f: Fields, name: string, v: string): Fields {
    if name == "realm" then f.(realm := Some(Unquote(v)))
    else if name == "nonce" then f.(nonce := Some(Unquote(v)))
    else if name == "opaque" then f.(opaque_ := Some(Unquote(v)))
    else if name == "qop" then f.(qop := QopItems(T.SplitOn(Unquote(v), ',')))
    else if name == "algorithm" then f.(algorithm := Unquote(v))
    else if name == "userhash" then f.(userhash := T.EqIgnoreAsciiCase(Unquote(v), "true"))
    else f
  }

  /** A part without `=` makes the whole header unreadable. */
  function ReadFields(f: Fields, parts: seq<string>): Option<Fields>
    decreases parts
  {
    if parts == [] then Some(f)
    else match T.SplitOnce(parts[0], '=')
      case None => None
      case Some((k, v)) => ReadFields(SetField(f, T.LowerAscii(T.Trim(k)), v), parts[1..])
  }

  function Complete(f: Fields): Option<Challenge> {
    if f.realm.Some? && f.nonce.Some?
    then Some(Challenge(f.realm.value, f.nonce.value, f.opaque_, f.qop, f.algorithm, f.userhash))
    else None
  }

  // ---- the scheme ----

  const SCHEME := "digest"

  predicate SchemeAt(lower: string, i: nat) {
    i + |SCHEME| <= |lower| && lower[i..i + |SCHEME|] == SCHEME
  }

  function FindScheme(lower: string, from: nat): (r: Option<nat>)
    ensures r.Some? ==> r.value >= from && SchemeAt(lower, r.value)
    decreases |lower| - from
  {
    if from + |SCHEME| > |lower| then None
    else if SchemeAt(lower, from) then Some(from)
    else FindScheme(lower, from + 1)
  }

  /** The text after the scheme word and its blank, when the first `digest` in the header is a scheme word. */
  function AfterScheme(header: string): Option<string> {
    match FindScheme(T.LowerAscii(header), 0)
    case None => None
    case Some(i) =>
      if i + 6 < |header| && (header[i + 6] == ' ' || header[i + 6] == '\t') then Some(header[i + 7..]) else None
  }

  function Parse(header: string): Option<Challenge> {
    match AfterScheme(header)
    case None => None
    case Some(rest) =>
      match ReadFields(NO_FIELDS, SplitParams(rest[..Extent(false, false, rest)]))
      case None => None
      case Some(f) => Complete(f)
  }

  lemma {:induction false} FindSchemeFrom(lower: string, from: nat, i: nat)
    requires from <= i && forall k | from <= k < i :: !SchemeAt(lower, k)
    requires i + 6 > |lower| || SchemeAt(lower, i)
    ensures FindScheme(lower, from) == if i + 6 <= |lower| then Some(i) else None
    decreases i - from
  {
    if from < i && from + 6 <= |lower| {
      FindSchemeFrom(lower, from + 1, i);
    }
  }

  /** The first `digest`. */
  method FindWord(lower: string) returns (at: Option<nat>)
    ensures at == FindScheme(lower, 0)
  {
    var i := 0;
    while i + 6 <= |lower| && lower[i..i + 6] != "digest"
      invariant 0 <= i && forall k | 0 <= k < i :: !SchemeAt(lower, k)
    {
      i := i + 1;
    }
    FindSchemeFrom(lower, 0, i);
    if i + 6 <= |lower| {
      return Some(i);
    }
    return None;
  }

  method ParseWwwAuthenticate(header: string) returns (challenge: Option<Challenge>)
    ensures challenge == Parse(header)
  {
    var idx := FindWord(T.LowerAscii(header));
    if idx.None? {
      return None;
    }
    if idx.value + 6 >= |header| {
      return None;
    }
    var after := header[idx.value + 6];
    if after != ' ' && after != '\t' {
      return None;
    }
    var rest := header[idx.value + 7..];
    var end := FindEnd(rest);
    var parts := SplitChallengeParams(rest[..end]);
    var fields := CollectFields(parts);
    if fields.None? || fields.value.realm.None? || fields.value.nonce.None? {
      return None;
    }
    var f := fields.value;
    return Some(Challenge(f.realm.value, f.nonce.value, f.opaque_, f.qop, f.algorithm, f.userhash));
  }

  /** `unquote` */
  method UnquoteText(s: string) returns (r: string)
    ensures r == Unquote(s)
  {
    var t := T.Trim(s);
    if |t| < 2 || t[0] != '"' || t[|t| - 1] != '"' {
      return t;
    }
    r := ReplaceEscapedQuotes(t[1..|t| - 1]);
  }

  lemma UnescapeFrom(s: string, k: nat, r: string)
    requires k < |s|
    ensures if k + 1 < |s| && s[k] == '\\' && s[k + 1] == '"'
            then r + Unescape(s[k..]) == (r + ['"']) + Unescape(s[k + 2..])
            else r + Unescape(s[k..]) == (r + [s[k]]) + Unescape(s[k + 1..])
  {
    var rest := s[k..];
    assert rest[0] == s[k] && rest[1..] == s[k + 1..];
    if k + 1 < |s| {
      assert rest[1] == s[k + 1] && rest[2..] == s[k + 2..];
      T.Associative(r, ['"'], Unescape(s[k + 2..]));
    }
    T.Associative(r, [s[k]], Unescape(s[k + 1..]));
  }

  method ReplaceEscapedQuotes(s: string) returns (r: string)
    ensures r == Unescape(s)
  {
    var k := 0;
    r := "";
    assert s[0..] == s && "" + Unescape(s) == Unescape(s);
    while k < |s|
      invariant 0 <= k <= |s| && r + Unescape(s[k..]) == Unescape(s)
    {
      UnescapeFrom(s, k, r);
      if k + 1 < |s| && s[k] == '\\' && s[k + 1] == '"' {
        r := r + ['"'];
        k := k + 2;
      } else {
        r := r + [s[k]];
        k := k + 1;
      }
    }
    assert s[|s|..] == "" && r + "" == r;
  }

  lemma {:induction false} QopItemsConcat(a: seq<string>, b: seq<string>)
    ensures QopItems(a + b) == QopItems(a) + QopItems(b)
  {
    if a == [] {
      assert a + b == b;
    } else {
      assert (a + b)[1..] == a[1..] + b;
      QopItemsConcat(a[1..], b);
    }
  }

  lemma OneQopItem(piece: string)
    ensures QopItems([piece]) == if T.LowerAscii(T.Trim(piece)) == "" then [] else [T.LowerAscii(T.Trim(piece))]
  {
    assert [piece][1..] == [];
    assert QopItems([]) == [];
  }

  /** The quality values: trimmed, in lower case, the empty ones left out. */
  method QopList(v: string) returns (items: seq<string>)
    ensures items == QopItems(T.SplitOn(v, ','))
  {
    var pieces := T.SplitOn(v, ',');
    items := [];
    for k := 0 to |pieces|
      invariant items == QopItems(pieces[..k])
    {
      assert pieces[..k + 1] == pieces[..k] + [pieces[k]];
      QopItemsConcat(pieces[..k], [pieces[k]]);
      OneQopItem(pieces[k]);
      var item := T.LowerAscii(T.Trim(pieces[k]));
      if item != "" {
        items := items + [item];
      }
    }
    assert pieces[..|pieces|] == pieces;
  }

  method Assign(f: Fields, name: string, v: string) returns (g: Fields)
    ensures g == SetField(f, name, v)
  {
    g := f;
    var text := UnquoteText(v);
    if name == "realm" {
      g := f.(realm := Some(text));
    } else if name == "nonce" {
      g := f.(nonce := Some(text));
    } else if name == "opaque" {
      g := f.(opaque_ := Some(text));
    } else if name == "qop" {
      var items := QopList(text);
      g := f.(qop := items);
    } else if name == "algorithm" {
      g := f.(algorithm := text);
    } else if name == "userhash" {
      g := f.(userhash := T.EqIgnoreAsciiCase(text, "true"));
    }
  }

  /** The loop over the parameters. */
  method CollectFields(parts: seq<string>) returns (fields: Option<Fields>)
    ensures fields == ReadFields(NO_FIELDS, parts)
  {
    var f := Fields(None, None, None, [], "MD5", false);
    for i := 0 to |parts|
      invariant ReadFields(NO_FIELDS, parts) == ReadFields(f, parts[i..])
    {
      assert parts[i..][0] == parts[i] && parts[i..][1..] == parts[i + 1..];
      var pair := T.SplitOnce(parts[i], '=');
      if pair.None? {
        return None;
      }
      f := Assign(f, T.LowerAscii(T.Trim(pair.value.0)), pair.value.1);
    }
    assert parts[|parts|..] == [];
    return Some(f);
  }
}
