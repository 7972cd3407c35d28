/** Request parts that the cURL printer and the cURL parser share. */
module Requests {
  import opened Wrappers
  import opened PercentEncoding
  import T = Text

  datatype HttpMethod = GET | POST | PUT | DELETE | PATCH | HEAD | OPTIONS | GRPC

  datatype Header = Header(key: string, value: string)

  datatype FormField = FormField(enabled: bool, key: seq<byte>, value: seq<byte>)

  datatype PartField = PartField(enabled: bool, key: string, value: string, isFile: bool)

  datatype BodySpec =
    | NoBody
    | Json(raw: string)
    | Text(raw: string)
    | UrlEncoded(form: seq<FormField>)
    | Multipart(parts: seq<PartField>)
    | GraphQL(payload: string)
    | Binary(path: string)
    | Grpc

  function Name(m: HttpMethod): string {
    match m
    case GET => "GET"
    case POST => "POST"
    case PUT => "PUT"
    case DELETE => "DELETE"
    case PATCH => "PATCH"
    case HEAD => "HEAD"
    case OPTIONS => "OPTIONS"
    case GRPC => "GRPC"
  }

  /**
   * Unicode upper case, as far as a comparison with a method's name can tell: the listed non-ASCII
   * characters have an upper case made of letters that occur in such names; every other one keeps a
   * non-ASCII character or becomes letters that do not.
   */
  function UpperOf(c: char): string {
    if 'a' <= c <= 'z' then [(c as int - 32) as char]
    else if c == '\U{0131}' then "I"
    else if c == '\U{017F}' then "S"
    else if c == '\U{FB05}' || c == '\U{FB06}' then "ST"
    else [c]
  }

  function Upper(s: string): string {
    if s == "" then "" else UpperOf(s[0]) + Upper(s[1..])
  }

  function FromName(s: string): Option<HttpMethod> {
    if s == "GET" then Some(GET)
    else if s == "POST" then Some(POST)
    else if s == "PUT" then Some(PUT)
    else if s == "DELETE" then Some(DELETE)
    else if s == "PATCH" then Some(PATCH)
    else if s == "HEAD" then Some(HEAD)
    else if s == "OPTIONS" then Some(OPTIONS)
    else if s == "GRPC" then Some(GRPC)
    else None
  }

  function ParseMethod(v: string): Option<HttpMethod> {
    FromName(Upper(v))
  }

  predicate IsUpperWord(s: string) {
    s != "" && forall i | 0 <= i < |s| :: 'A' <= s[i] <= 'Z'
  }

  lemma {:induction false} UpperOfUpper(s: string)
    requires forall i | 0 <= i < |s| :: 'A' <= s[i] <= 'Z'
    ensures Upper(s) == s
  {
    if s != "" {
      UpperOfUpper(s[1..]);
      assert [s[0]] + s[1..] == s;
    }
  }

  lemma NameIsUpper(m: HttpMethod)
    ensures IsUpperWord(Name(m))
    ensures FromName(Name(m)) == Some(m)
  {
    match m {
      case GET => assert Name(m) == "GET";
      case POST => assert Name(m) == "POST";
      case PUT => assert Name(m) == "PUT";
      case DELETE => assert Name(m) == "DELETE";
      case PATCH => assert Name(m) == "PATCH";
      case HEAD => assert Name(m) == "HEAD";
      case OPTIONS => assert Name(m) == "OPTIONS";
      case GRPC => assert Name(m) == "GRPC";
    }
  }

  /** The names, as HTTP spells them. */
  lemma NamesAreSpelled()
    ensures Name(GET) == "GET" && Name(POST) == "POST" && Name(PUT) == "PUT" && Name(DELETE) == "DELETE"
    ensures Name(PATCH) == "PATCH" && Name(HEAD) == "HEAD" && Name(OPTIONS) == "OPTIONS" && Name(GRPC) == "GRPC"
  {
  }

  predicate Ascii(s: string) {
    forall i | 0 <= i < |s| :: s[i] < '\U{0080}'
  }

  lemma {:induction false} AsciiUpper(s: string)
    requires Ascii(s)
    ensures Upper(s) == T.UpperAscii(s)
  {
    if s != "" {
      AsciiUpper(s[1..]);
      assert T.UpperAscii(s) == [T.UpperChar(s[0])] + T.UpperAscii(s[1..]);
    }
  }

  lemma NameOfMethod(s: string, m: HttpMethod)
    ensures FromName(s) == Some(m) <==> s == Name(m)
  {
    NamesAreSpelled();
    NameIsUpper(m);
  }

  /** An ASCII text is read as a method if and only if it is that method's name in any case. */
  lemma MethodsIgnoreCase(v: string, m: HttpMethod)
    requires Ascii(v)
    ensures ParseMethod(v) == Some(m) <==> T.EqIgnoreAsciiCase(v, Name(m))
  {
    AsciiUpper(v);
    NameOfMethod(T.UpperAscii(v), m);
    NameIsUpper(m);
    UpperOfName(Name(m));
    T.UpperAgreesWithIgnoreCase(v, Name(m));
  }

  lemma UpperOfName(s: string)
    requires IsUpperWord(s)
    ensures T.UpperAscii(s) == s
  {
  }

  lemma {:induction false} UpperConcat(a: string, b: string)
    ensures Upper(a + b) == Upper(a) + Upper(b)
  {
    if a == "" {
      assert a + b == b;
    } else {
      assert (a + b)[0] == a[0] && (a + b)[1..] == a[1..] + b;
      UpperConcat(a[1..], b);
    }
  }

  /** A letter between ASCII texts. */
  lemma UpperAround(left: string, c: char, right: string)
    requires Ascii(left) && Ascii(right)
    ensures Upper(left + [c] + right) == T.UpperAscii(left) + UpperOf(c) + T.UpperAscii(right)
  {
    AsciiUpper(left);
    AsciiUpper(right);
    UpperConcat(left + [c], right);
    UpperConcat(left, [c]);
    UpperOne(c);
  }

  lemma UpperOne(c: char)
    ensures Upper([c]) == UpperOf(c)
  {
    assert [c][1..] == "";
    assert UpperOf(c) + "" == UpperOf(c);
  }

  /** Two letters outside ASCII have an ASCII upper case, and two ligatures have two such letters: with them
      methods can be spelled too. */
  lemma ForeignLetters(left: string, right: string)
    requires Ascii(left) && Ascii(right)
    ensures ParseMethod(left + ['\U{017F}'] + right) == FromName(T.UpperAscii(left) + "S" + T.UpperAscii(right))
    ensures ParseMethod(left + ['\U{0131}'] + right) == FromName(T.UpperAscii(left) + "I" + T.UpperAscii(right))
    ensures ParseMethod(left + ['\U{FB05}'] + right) == FromName(T.UpperAscii(left) + "ST" + T.UpperAscii(right))
    ensures ParseMethod(left + ['\U{FB06}'] + right) == FromName(T.UpperAscii(left) + "ST" + T.UpperAscii(right))
  {
    UpperAround(left, '\U{017F}', right);
    UpperAround(left, '\U{0131}', right);
    UpperAround(left, '\U{FB05}', right);
    UpperAround(left, '\U{FB06}', right);
  }

  /** Every method is read back from its own name. */
  lemma MethodRoundTrip(m: HttpMethod)
    ensures ParseMethod(Name(m)) == Some(m)
  {
    NameIsUpper(m);
    UpperOfUpper(Name(m));
  }
}
