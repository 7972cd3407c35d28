/** The text operations of the Rust standard library that the modelled code calls. */
module Text {
  import opened Wrappers

  /** The Unicode White_Space property, which `str::trim` uses. */
  predicate IsWhitespace(c: char) {
    || '\t' <= c <= '\r'
    || c == ' '
    || c == '\U{0085}' || c == '\U{00A0}' || c == '\U{1680}'
    || '\U{2000}' <= c <= '\U{200A}'
    || c == '\U{2028}' || c == '\U{2029}' || c == '\U{202F}' || c == '\U{205F}' || c == '\U{3000}'
  }

  function TrimStart(s: string): string {
    if s != "" && IsWhitespace(s[0]) then TrimStart(s[1..]) else s
  }

  function TrimEnd(s: string): string {
    if s != "" && IsWhitespace(s[|s| - 1]) then TrimEnd(s[..|s| - 1]) else s
  }

  function Trim(s: string): string {
    TrimEnd(TrimStart(s))
  }

  function LowerChar(c: char): char {
    if 'A' <= c <= 'Z' then (c as int + 32) as char else c
  }

  function UpperChar(c: char): char {
    if 'a' <= c <= 'z' then (c as int - 32) as char else c
  }

  /** `to_ascii_lowercase` */
  function LowerAscii(s: string): (r: string)
    ensures |r| == |s|
  {
    seq(|s|, i requires 0 <= i < |s| => LowerChar(s[i]))
  }

  /** `to_ascii_uppercase` */
  function UpperAscii(s: string): (r: string)
    ensures |r| == |s|
  {
    seq(|s|, i requires 0 <= i < |s| => UpperChar(s[i]))
  }

  /** `eq_ignore_ascii_case` */
  predicate EqIgnoreAsciiCase(a: string, b: string) {
    |a| == |b| && forall i | 0 <= i < |a| :: LowerChar(a[i]) == LowerChar(b[i])
  }

  /** `slice::join` */
  function Join(parts: seq<string>, sep: string): string {
    if parts == [] then "" else if |parts| == 1 then parts[0] else parts[0] + sep + Join(parts[1..], sep)
  }

  /** `str::split` at one character: always at least one piece. */
  function SplitOn(s: string, c: char): (pieces: seq<string>)
    ensures pieces != []
  {
    if s == "" then [""]
    else if s[0] == c then [""] + SplitOn(s[1..], c)
    else var rest := SplitOn(s[1..], c); [[s[0]] + rest[0]] + rest[1..]
  }

  /** Splitting what was joined gives the parts back, when no part holds the separator. */
  lemma {:induction false} SplitInvertsJoin(parts: seq<string>, c: char)
    requires parts != [] && forall i | 0 <= i < |parts| :: c !in parts[i]
    ensures SplitOn(Join(parts, [c]), c) == parts
  {
    if |parts| == 1 {
      SplitOfPiece(parts[0], c);
    } else {
      var rest := parts[1..];
      assert forall i | 0 <= i < |rest| :: rest[i] == parts[i + 1];
      SplitInvertsJoin(rest, c);
      SplitAfterPiece(parts[0], Join(rest, [c]), c);
      assert [parts[0]] + rest == parts;
    }
  }

  lemma {:induction false} SplitOfPiece(s: string, c: char)
    requires c !in s
    ensures SplitOn(s, c) == [s]
  {
    if s != "" {
      SplitOfPiece(s[1..], c);
      assert [s[0]] + s[1..] == s;
    }
  }

  lemma {:induction false} SplitAfterPiece(s: string, rest: string, c: char)
    requires c !in s
    ensures SplitOn(s + [c] + rest, c) == [s] + SplitOn(rest, c)
  {
    if s == "" {
      assert s + [c] + rest == [c] + rest;
    } else {
      var t := s + [c] + rest;
      assert t[0] == s[0] != c;
      assert t[1..] == s[1..] + [c] + rest;
      SplitAfterPiece(s[1..], rest, c);
      assert [s[0]] + s[1..] == s;
    }
  }

  /** `str::split_once` at one character. */
  function SplitOnce(s: string, c: char): (r: Option<(string, string)>)
    ensures r.None? <==> c !in s
    ensures r.Some? ==> s == r.value.0 + [c] + r.value.1 && c !in r.value.0
  {
    if s == "" then None
    else if s[0] == c then Some(("", s[1..]))
    else match SplitOnce(s[1..], c)
      case None => None
      case Some((left, right)) => Some(([s[0]] + left, right))
  }

  /** `split_once` finds the first occurrence, so a separator-free prefix is what it returns. */
  lemma {:induction false} SplitOnceAt(left: string, c: char, right: string)
    requires c !in left
    ensures SplitOnce(left + [c] + right, c) == Some((left, right))
  {
    var t := left + [c] + right;
    if left == "" {
      assert t == [c] + right;
    } else {
      assert t[0] == left[0] && t[1..] == left[1..] + [c] + right;
      SplitOnceAt(left[1..], c, right);
      assert [left[0]] + left[1..] == left;
    }
  }

  predicate StartsWith(s: string, prefix: string) {
    prefix <= s
  }

  predicate EndsWith(s: string, suffix: string) {
    |suffix| <= |s| && s[|s| - |suffix|..] == suffix
  }

  /** `str::len`: the length in UTF-8 bytes. */
  function Utf8Length(s: string): nat {
    if s == "" then 0
    else (var c := s[0] as int; if c < 0x80 then 1 else if c < 0x800 then 2 else if c < 0x10000 then 3 else 4)
         + Utf8Length(s[1..])
  }

  lemma {:induction false} TrimEndIsPrefix(s: string)
    ensures TrimEnd(s) <= s
    ensures TrimEnd(s) != "" ==> !IsWhitespace(TrimEnd(s)[|TrimEnd(s)| - 1])
  {
    if s != "" && IsWhitespace(s[|s| - 1]) {
      TrimEndIsPrefix(s[..|s| - 1]);
    }
  }

  lemma SuffixOfTail(s: string, t: string)
    requires s != "" && EndsWith(s[1..], t)
    ensures EndsWith(s, t)
  {
    assert s[1..][|s| - 1 - |t|..] == s[|s| - |t|..];
  }

  lemma {:induction false} TrimStartIsSuffix(s: string)
    ensures EndsWith(s, TrimStart(s))
    ensures TrimStart(s) != "" ==> !IsWhitespace(TrimStart(s)[0])
  {
    if s != "" && IsWhitespace(s[0]) {
      TrimStartIsSuffix(s[1..]);
      SuffixOfTail(s, TrimStart(s));
    }
  }

  /** Trimming only drops characters. */
  lemma TrimKeepsOnlyItsOwn(s: string, c: char)
    requires c in Trim(s)
    ensures c in s
  {
    TrimEndIsPrefix(TrimStart(s));
    TrimStartIsSuffix(s);
  }

  /** Comparing upper-cased texts is comparing without regard to ASCII case. */
  lemma UpperAgreesWithIgnoreCase(a: string, b: string)
    ensures UpperAscii(a) == UpperAscii(b) <==> EqIgnoreAsciiCase(a, b)
  {
    if UpperAscii(a) == UpperAscii(b) {
      forall i | 0 <= i < |a| ensures LowerChar(a[i]) == LowerChar(b[i]) {
        assert UpperAscii(a)[i] == UpperAscii(b)[i];
        UpperLower(a[i], b[i]);
      }
    }
    if EqIgnoreAsciiCase(a, b) {
      forall i | 0 <= i < |a| ensures UpperChar(a[i]) == UpperChar(b[i]) {
        UpperLower(a[i], b[i]);
      }
    }
  }

  lemma UpperLower(c: char, d: char)
    ensures UpperChar(c) == UpperChar(d) <==> LowerChar(c) == LowerChar(d)
  {
  }

  lemma Associative<X>(a: seq<X>, b: seq<X>, c: seq<X>)
    ensures a + b + c == a + (b + c)
  {
  }

  // ---- what these operations mean ----

  /** The code points with the property White_Space. */
  lemma WhitespaceIsListed(c: char)
    ensures IsWhitespace(c) <==> c as int in {
      0x09, 0x0A, 0x0B, 0x0C, 0x0D, 0x20, 0x85, 0xA0, 0x1680,
      0x2000, 0x2001, 0x2002, 0x2003, 0x2004, 0x2005, 0x2006, 0x2007, 0x2008, 0x2009, 0x200A,
      0x2028, 0x2029, 0x202F, 0x205F, 0x3000}
  {
  }

  predicate Blank(s: string) {
    forall i | 0 <= i < |s| :: IsWhitespace(s[i])
  }

  lemma {:induction false} TrimStartDrops(s: string) returns (dropped: string)
    ensures s == dropped + TrimStart(s) && Blank(dropped)
  {
    if s != "" && IsWhitespace(s[0]) {
      var rest := TrimStartDrops(s[1..]);
      dropped := [s[0]] + rest;
      Associative([s[0]], rest, TrimStart(s[1..]));
      assert s == [s[0]] + s[1..];
    } else {
      dropped := "";
    }
  }

  lemma {:induction false} TrimEndDrops(s: string) returns (dropped: string)
    ensures s == TrimEnd(s) + dropped && Blank(dropped)
  {
    if s != "" && IsWhitespace(s[|s| - 1]) {
      var n := |s| - 1;
      var rest := TrimEndDrops(s[..n]);
      dropped := rest + [s[n]];
      Associative(TrimEnd(s[..n]), rest, [s[n]]);
      assert s == s[..n] + [s[n]];
    } else {
      dropped := "";
      assert s + "" == s;
    }
  }

  /** Trimming drops white space at both ends and leaves none there. */
  lemma TrimMeans(s: string) returns (before: string, after: string)
    ensures s == before + Trim(s) + after && Blank(before) && Blank(after)
    ensures Trim(s) != "" ==> !IsWhitespace(Trim(s)[0]) && !IsWhitespace(Trim(s)[|Trim(s)| - 1])
  {
    before := TrimStartDrops(s);
    after := TrimEndDrops(TrimStart(s));
    Associative(before, Trim(s), after);
    TrimStartIsSuffix(s);
    TrimEndIsPrefix(TrimStart(s));
  }

  /** The ASCII letters change case, by their place in the alphabet; nothing else does. */
  lemma CaseOfLetters(i: nat, c: char)
    requires i < 26
    ensures LowerChar("ABCDEFGHIJKLMNOPQRSTUVWXYZ"[i]) == "abcdefghijklmnopqrstuvwxyz"[i]
    ensures UpperChar("abcdefghijklmnopqrstuvwxyz"[i]) == "ABCDEFGHIJKLMNOPQRSTUVWXYZ"[i]
    ensures !('A' <= c <= 'Z') ==> LowerChar(c) == c
    ensures !('a' <= c <= 'z') ==> UpperChar(c) == c
  {
    assert "ABCDEFGHIJKLMNOPQRSTUVWXYZ"[i] == (65 + i) as char;
    assert "abcdefghijklmnopqrstuvwxyz"[i] == (97 + i) as char;
  }

  /** Texts change case character by character, and are compared that way. */
  lemma CaseOfTexts(a: string, b: string)
    ensures forall i | 0 <= i < |a| :: LowerAscii(a)[i] == LowerChar(a[i]) && UpperAscii(a)[i] == UpperChar(a[i])
    ensures EqIgnoreAsciiCase(a, b) <==> LowerAscii(a) == LowerAscii(b)
  {
    if LowerAscii(a) == LowerAscii(b) {
      forall i | 0 <= i < |a| ensures LowerChar(a[i]) == LowerChar(b[i]) {
        assert LowerAscii(a)[i] == LowerAscii(b)[i];
      }
    }
  }

  /** Joining writes the separator between neighbours. */
  lemma JoinMeans(first: string, rest: seq<string>, sep: string)
    ensures Join([], sep) == "" && Join([first], sep) == first
    ensures rest != [] ==> Join([first] + rest, sep) == first + sep + Join(rest, sep)
  {
    assert ([first] + rest)[1..] == rest;
  }

  /** The pieces of a split hold no separator and join to the text. */
  lemma {:induction false} SplitMeans(s: string, c: char)
    ensures Join(SplitOn(s, c), [c]) == s
    ensures forall i | 0 <= i < |SplitOn(s, c)| :: c !in SplitOn(s, c)[i]
    decreases s
  {
    if s != "" {
      var rest := SplitOn(s[1..], c);
      SplitMeans(s[1..], c);
      if s[0] == c {
        JoinMeans("", rest, [c]);
        assert "" + [c] + s[1..] == s;
      } else {
        var head := [s[0]] + rest[0];
        assert [rest[0]] + rest[1..] == rest;
        JoinMeans(head, rest[1..], [c]);
        JoinMeans(rest[0], rest[1..], [c]);
        HeadGrows(s[0], rest[0], [c], Join(rest[1..], [c]));
        assert s == [s[0]] + s[1..];
      }
    }
  }

  lemma HeadGrows(x: char, head: string, sep: string, tail: string)
    ensures [x] + head + sep + tail == [x] + (head + sep + tail)
  {
  }

  /** Beginnings and endings. */
  lemma AffixesMean(s: string, t: string)
    ensures StartsWith(s + t, s) && EndsWith(s + t, t)
    ensures StartsWith(s, t) ==> s == t + s[|t|..]
    ensures EndsWith(s, t) ==> s == s[..|s| - |t|] + t
  {
  }

  /** The UTF-8 length adds up over characters of one to four bytes. */
  lemma {:induction false} Utf8LengthMeans(s: string, t: string, c: char)
    ensures Utf8Length(s + t) == Utf8Length(s) + Utf8Length(t)
    ensures Utf8Length([c]) == if c as int <= 0x7F then 1 else if c as int <= 0x7FF then 2 else if c as int <= 0xFFFF then 3 else 4
  {
    assert [c][1..] == "";
    if s == "" {
      assert s + t == t;
    } else {
      assert (s + t)[0] == s[0] && (s + t)[1..] == s[1..] + t;
      Utf8LengthMeans(s[1..], t, c);
    }
  }
}
