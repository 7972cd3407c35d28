/** RFC 3986 percent-encoding (sections 2.1 and 2.3) as the signer and the code generators perform it. */
module PercentEncoding {
  import opened Wrappers
  import Text

  newtype byte = x: int | 0 <= x < 256

  /** The unreserved characters of RFC 3986 section 2.3, by code. */
  predicate Unreserved(code: int) {
    || 'A' as int <= code <= 'Z' as int
    || 'a' as int <= code <= 'z' as int
    || '0' as int <= code <= '9' as int
    || code == '-' as int || code == '_' as int || code == '.' as int || code == '~' as int
  }

  function HexDigit(n: int): char
    requires 0 <= n < 16
  {
    if n < 10 then ('0' as int + n) as char else ('A' as int + n - 10) as char
  }

  function EncodeByte(b: byte): string {
    if Unreserved(b as int) then [b as int as char]
    else ['%', HexDigit(b as int / 16), HexDigit(b as int % 16)]
  }

  function Encode(s: seq<byte>): string {
    if s == [] then "" else EncodeByte(s[0]) + Encode(s[1..])
  }

  lemma {:induction false} EncodeSnoc(s: seq<byte>, b: byte)
    ensures Encode(s + [b]) == Encode(s) + EncodeByte(b)
  {
    if s == [] {
      assert Encode([b]) == EncodeByte(b) + Encode([]);
    } else {
      assert (s + [b])[1..] == s[1..] + [b];
      EncodeSnoc(s[1..], b);
    }
  }

  const HEX := "0123456789ABCDEF"

  lemma HexDigits(b: byte)
    ensures HexDigit(b as int / 16) == HEX[b as int / 16] && HexDigit(b as int % 16) == HEX[b as int % 16]
  {
  }

  /** The byte loop of the encoder. */
  method EncodeComponent(s: seq<byte>) returns (out: string)
    ensures out == Encode(s)
  {
    out := "";
    for i := 0 to |s|
      invariant out == Encode(s[..i])
    {
      var b := s[i];
      EncodeSnoc(s[..i], b);
      assert s[..i] + [b] == s[..i + 1];
      var c := b as int as char;
      if 'A' <= c <= 'Z' || 'a' <= c <= 'z' || '0' <= c <= '9' || c == '-' || c == '_' || c == '.' || c == '~' {
        out := out + [c];
      } else {
        HexDigits(b);
        out := out + ['%'];
        out := out + [HEX[b as int / 16]];
        out := out + [HEX[b as int % 16]];
      }
    }
    assert s[..|s|] == s;
  }

  // ---- decoding: the partner that shows nothing is lost ----

  function HexValue(c: char): Option<int> {
    if '0' <= c <= '9' then Some(c as int - '0' as int)
    else if 'A' <= c <= 'F' then Some(c as int - 'A' as int + 10)
    else None
  }

  function Decode(t: string): Option<seq<byte>> {
    if t == "" then Some([])
    else if t[0] == '%' then
      if |t| < 3 || HexValue(t[1]).None? || HexValue(t[2]).None? then None
      else match Decode(t[3..])
        case None => None
        case Some(rest) => Some([(16 * HexValue(t[1]).value + HexValue(t[2]).value) as byte] + rest)
    else if t[0] as int < 256 then
      match Decode(t[1..])
      case None => None
      case Some(rest) => Some([t[0] as int as byte] + rest)
    else None
  }

  lemma DecodePlain(c: char, rest: string, bytes: seq<byte>)
    requires c != '%' && c as int < 256 && Decode(rest) == Some(bytes)
    ensures Decode([c] + rest) == Some([c as int as byte] + bytes)
  {
    assert ([c] + rest)[1..] == rest;
  }

  lemma DecodeEscape(c: char, d: char, rest: string, bytes: seq<byte>)
    requires HexValue(c).Some? && HexValue(d).Some? && Decode(rest) == Some(bytes)
    ensures Decode(['%', c, d] + rest) == Some([(16 * HexValue(c).value + HexValue(d).value) as byte] + bytes)
  {
    assert (['%', c, d] + rest)[3..] == rest;
  }

  lemma DecodeByte(b: byte, rest: string, bytes: seq<byte>)
    requires Decode(rest) == Some(bytes)
    ensures Decode(EncodeByte(b) + rest) == Some([b] + bytes)
  {
    if Unreserved(b as int) {
      DecodePlain(b as int as char, rest, bytes);
    } else {
      HexValues(b);
      DecodeEscape(HexDigit(b as int / 16), HexDigit(b as int % 16), rest, bytes);
    }
  }

  lemma {:induction false} DecodeInvertsEncode(s: seq<byte>)
    ensures Decode(Encode(s)) == Some(s)
  {
    if s != [] {
      DecodeInvertsEncode(s[1..]);
      DecodeByte(s[0], Encode(s[1..]), s[1..]);
      assert s == [s[0]] + s[1..];
    }
  }

  lemma HexValues(b: byte)
    ensures HexValue(HexDigit(b as int / 16)) == Some(b as int / 16)
    ensures HexValue(HexDigit(b as int % 16)) == Some(b as int % 16)
  {
  }

  lemma EncodeIsInjective(a: seq<byte>, b: seq<byte>)
    requires Encode(a) == Encode(b)
    ensures a == b
  {
    DecodeInvertsEncode(a);
    DecodeInvertsEncode(b);
  }

  /** Only unreserved characters and the percent sign come out: never `=` or `&`. */
  lemma {:induction false} OutputAlphabet(s: seq<byte>, c: char)
    requires c in Encode(s)
    ensures c == '%' || 'A' <= c <= 'Z' || 'a' <= c <= 'z' || '0' <= c <= '9' || c in "-_.~"
  {
    if s != [] && c !in EncodeByte(s[0]) {
      OutputAlphabet(s[1..], c);
    }
  }

  // ---- key=value lists ----

  type Pair = (seq<byte>, seq<byte>)

  function Item(p: Pair): string {
    Encode(p.0) + "=" + Encode(p.1)
  }

  function Items(pairs: seq<Pair>): (items: seq<string>)
    ensures |items| == |pairs|
    ensures forall i | 0 <= i < |items| :: items[i] == Item(pairs[i])
  {
    seq(|pairs|, i requires 0 <= i < |pairs| => Item(pairs[i]))
  }

  /** The pairs, each encoded, with `=` inside and `&` between. */
  function FormText(pairs: seq<Pair>): string {
    Text.Join(Items(pairs), "&")
  }

  /** One pair is its encoded name, `=` and its encoded value; lists are joined by `&`. */
  lemma FormTextIsBuiltFromPairs(p: Pair, ps: seq<Pair>)
    ensures FormText([]) == "" && FormText([p]) == Encode(p.0) + "=" + Encode(p.1)
    ensures ps != [] ==> FormText([p] + ps) == Encode(p.0) + "=" + Encode(p.1) + "&" + FormText(ps)
  {
    assert Items([p]) == [Item(p)];
    if ps != [] {
      assert Items([p] + ps)[1..] == Items(ps);
    }
  }

  lemma ItemIsInjective(p: Pair, q: Pair)
    requires Item(p) == Item(q)
    ensures p == q
  {
    NoSeparators(p);
    NoSeparators(q);
    Text.SplitOnceAt(Encode(p.0), '=', Encode(p.1));
    Text.SplitOnceAt(Encode(q.0), '=', Encode(q.1));
    EncodeIsInjective(p.0, q.0);
    EncodeIsInjective(p.1, q.1);
  }

  lemma NoSeparators(p: Pair)
    ensures '=' !in Encode(p.0) && '&' !in Item(p)
  {
    if '=' in Encode(p.0) { OutputAlphabet(p.0, '='); }
    if '&' in Encode(p.0) { OutputAlphabet(p.0, '&'); }
    if '&' in Encode(p.1) { OutputAlphabet(p.1, '&'); }
  }

  /** The text determines the list: no two lists of pairs share an encoding. */
  lemma FormTextIsInjective(ps: seq<Pair>, qs: seq<Pair>)
    requires FormText(ps) == FormText(qs)
    ensures ps == qs
  {
    FormTextEmpty(ps);
    FormTextEmpty(qs);
    if ps != [] && qs != [] {
      forall p: Pair ensures '&' !in Item(p) { NoSeparators(p); }
      Text.SplitInvertsJoin(Items(ps), '&');
      Text.SplitInvertsJoin(Items(qs), '&');
      assert Items(ps) == Items(qs);
      forall i | 0 <= i < |ps| ensures ps[i] == qs[i] {
        assert Items(ps)[i] == Items(qs)[i];
        ItemIsInjective(ps[i], qs[i]);
      }
    }
  }

  lemma FormTextEmpty(ps: seq<Pair>)
    ensures FormText(ps) == "" <==> ps == []
  {
    if ps != [] {
      assert '=' in Item(ps[0]);
      assert |Items(ps)[0]| > 0;
    }
  }

  lemma ItemAlphabet(p: Pair, c: char)
    requires c in Item(p)
    ensures c == '%' || c == '=' || Unreserved(c as int)
  {
    if c in Encode(p.0) {
      OutputAlphabet(p.0, c);
    } else if c in Encode(p.1) {
      OutputAlphabet(p.1, c);
    }
  }

  lemma {:induction false} FormAlphabet(pairs: seq<Pair>, c: char)
    requires c in FormText(pairs)
    ensures c == '%' || c == '=' || c == '&' || Unreserved(c as int)
  {
    assert Items(pairs)[1..] == Items(pairs[1..]);
    if c in Item(pairs[0]) {
      ItemAlphabet(pairs[0], c);
    } else if |pairs| > 1 && c != '&' {
      FormAlphabet(pairs[1..], c);
    }
  }
}
