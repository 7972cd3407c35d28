/** Printing a request as a cURL command. */
module CurlPrinter {
  import opened Wrappers
  import opened Requests
  import opened ShellWords
  import T = Text
  import PercentEncoding

  /** An option word and its argument. */
  type Opt = (string, string)

  // ---- the printed text ----

  function OptionText(opts: seq<Opt>): string {
    if opts == [] then "" else CONTINUATION + opts[0].0 + " " + Quoted(opts[0].1) + OptionText(opts[1..])
  }

  function CommandText(m: HttpMethod, url: string, opts: seq<Opt>): string {
    "curl -X " + Name(m) + " " + Quoted(url) + OptionText(opts)
  }

  lemma {:induction false} OptionTextSnoc(opts: seq<Opt>, o: Opt)
    ensures OptionText(opts + [o]) == OptionText(opts) + (CONTINUATION + o.0 + " " + Quoted(o.1))
  {
    var last := CONTINUATION + o.0 + " " + Quoted(o.1);
    if opts == [] {
      assert OptionText([o]) == last + OptionText([]);
    } else {
      assert (opts + [o])[0] == opts[0] && (opts + [o])[1..] == opts[1..] + [o];
      OptionTextSnoc(opts[1..], o);
      var first := CONTINUATION + opts[0].0 + " " + Quoted(opts[0].1);
      assert first + (OptionText(opts[1..]) + last) == (first + OptionText(opts[1..])) + last;
    }
  }

  lemma CommandTextSnoc(m: HttpMethod, url: string, opts: seq<Opt>, o: Opt)
    ensures CommandText(m, url, opts + [o]) == CommandText(m, url, opts) + (CONTINUATION + o.0 + " " + Quoted(o.1))
  {
    OptionTextSnoc(opts, o);
    var head := "curl -X " + Name(m) + " " + Quoted(url);
    assert head + (OptionText(opts) + (CONTINUATION + o.0 + " " + Quoted(o.1)))
        == (head + OptionText(opts)) + (CONTINUATION + o.0 + " " + Quoted(o.1));
  }

  // ---- which options a request needs ----

  function EnabledPairs(form: seq<FormField>): seq<PercentEncoding.Pair> {
    if form == [] then []
    else (if form[0].enabled then [(form[0].key, form[0].value)] else []) + EnabledPairs(form[1..])
  }

  /** The body text and the content type it implies. */
  function BodyParts(spec: BodySpec): (string, Option<string>) {
    match spec
    case NoBody => ("", None)
    case Json(raw) => (raw, Some("application/json"))
    case Text(raw) => (raw, None)
    case UrlEncoded(form) => (PercentEncoding.FormText(EnabledPairs(form)), Some("application/x-www-form-urlencoded"))
    case Multipart(_) => ("", None)
    case GraphQL(payload) => (payload, Some("application/json"))
    case Binary(_) => ("", Some("application/octet-stream"))
    case Grpc => ("", None)
  }

  predicate HasContentType(headers: seq<Header>) {
    exists i | 0 <= i < |headers| :: T.EqIgnoreAsciiCase(headers[i].key, "content-type")
  }

  function HeaderText(h: Header): string {
    h.key + ": " + h.value
  }

  function HeaderOptions(headers: seq<Header>): (opts: seq<Opt>)
    ensures |opts| == |headers|
    ensures forall i | 0 <= i < |opts| :: opts[i] == ("-H", HeaderText(headers[i]))
  {
    seq(|headers|, i requires 0 <= i < |headers| => ("-H", HeaderText(headers[i])))
  }

  /** The header the printer adds when the request names no content type itself. */
  function DefaultHeaders(headers: seq<Header>, spec: BodySpec): seq<Header> {
    var ct := BodyParts(spec).1;
    if ct.Some? && !HasContentType(headers) then [Header("Content-Type", ct.value)] else []
  }

  predicate PartIsSent(f: PartField) {
    f.enabled && T.Trim(f.key) != ""
  }

  function PartText(f: PartField): string {
    f.key + "=" + (if f.isFile then "@" + f.value else f.value)
  }

  function PartOptions(parts: seq<PartField>): seq<Opt> {
    if parts == [] then []
    else PartOptions(parts[..|parts| - 1]) +
         (if PartIsSent(parts[|parts| - 1]) then [("-F", PartText(parts[|parts| - 1]))] else [])
  }

  function BodyOptions(spec: BodySpec): seq<Opt> {
    match spec
    case Multipart(parts) => PartOptions(parts)
    case Binary(path) => [("--data-binary", "@" + path)]
    case _ => if BodyParts(spec).0 != "" then [("--data", BodyParts(spec).0)] else []
  }

  function Options(headers: seq<Header>, spec: BodySpec): seq<Opt> {
    if spec.Binary?
    then HeaderOptions(headers) + HeaderOptions(DefaultHeaders(headers, spec)) + BodyOptions(spec)
    else HeaderOptions(headers) + BodyOptions(spec) + HeaderOptions(DefaultHeaders(headers, spec))
  }

  /** The whole printed command. */
  function Rendered(m: HttpMethod, url: string, headers: seq<Header>, spec: BodySpec): string {
    CommandText(m, url, Options(headers, spec))
  }

  // ---- the printer ----

  lemma {:induction false} SqOfPlainText(s: string)
    requires '\'' !in s
    ensures Sq(s) == s
  {
    if s != "" {
      SqOfPlainText(s[1..]);
      assert [s[0]] + s[1..] == s;
    }
  }

  /** What the printer appends for one option whose argument is already escaped. */
  function Fragment(flag: string, escaped: string): string {
    CONTINUATION + flag + " '" + escaped + "'"
  }

  /** One more option on the printed command. */
  lemma Appends(m: HttpMethod, url: string, opts: seq<Opt>, flag: string, argument: string, escaped: string)
    requires escaped == Sq(argument)
    ensures CommandText(m, url, opts) + Fragment(flag, escaped) == CommandText(m, url, opts + [(flag, argument)])
  {
    CommandTextSnoc(m, url, opts, (flag, argument));
    QuotesAround(CONTINUATION + flag, escaped);
  }

  lemma QuotesAround(lead: string, escaped: string)
    ensures lead + " '" + escaped + "'" == lead + " " + ("'" + escaped + "'")
  {
    assert lead + " '" == lead + " " + "'";
  }

  /** Escaping the pieces around quote-free text is escaping the whole. */
  lemma SqAround(left: string, middle: string, right: string)
    requires '\'' !in middle
    ensures Sq(left + middle + right) == Sq(left) + middle + Sq(right)
  {
    SqConcat(left + middle, right);
    SqConcat(left, middle);
    SqOfPlainText(middle);
  }

  lemma HeaderIsEscaped(h: Header)
    ensures Sq(HeaderText(h)) == Sq(h.key) + ": " + Sq(h.value)
  {
    SqAround(h.key, ": ", h.value);
  }

  lemma PartIsEscaped(f: PartField)
    ensures Sq(PartText(f)) == Sq(f.key) + "=" + (if f.isFile then "@" + Sq(f.value) else Sq(f.value))
  {
    SqAround(f.key, "=", if f.isFile then "@" + f.value else f.value);
    PathIsEscaped(f.value);
  }

  lemma PathIsEscaped(path: string)
    ensures Sq("@" + path) == "@" + Sq(path)
  {
    SqConcat("@", path);
    SqOfPlainText("@");
  }

  predicate PlainType(contentType: string) {
    contentType != "" && forall i | 0 <= i < |contentType| ::
      contentType[i] != '\'' && contentType[i] != ':' && !T.IsWhitespace(contentType[i])
  }

  /** The characters of the types the printer names. */
  predicate TypeWord(contentType: string) {
    forall i | 0 <= i < |contentType| :: 'a' <= contentType[i] <= 'z' || contentType[i] in "/-"
  }

  lemma TypeWordIsPlain(contentType: string)
    requires contentType != "" && TypeWord(contentType)
    ensures PlainType(contentType)
  {
  }

  lemma ImpliedTypeIsPlain(spec: BodySpec)
    requires BodyParts(spec).1.Some?
    ensures PlainType(BodyParts(spec).1.value)
  {
    TypeWordIsPlain(BodyParts(spec).1.value);
  }

  lemma TypeIsEscaped(contentType: string)
    requires PlainType(contentType)
    ensures Sq("Content-Type: " + contentType) == "Content-Type: " + contentType
    ensures HeaderText(Header("Content-Type", contentType)) == "Content-Type: " + contentType
  {
    assert "Content-Type" + ": " == "Content-Type: ";
    SqOfPlainText("Content-Type: " + contentType);
  }

  lemma FragmentPieces(before: string, lead: string, flag: string, escaped: string)
    ensures before + lead + flag + " '" + escaped + "'" == before + (lead + flag + " '" + escaped + "'")
  {
  }

  /** One option is printed on a line of its own. */
  method AppendOption(m: HttpMethod, url: string, ghost opts: seq<Opt>, flag: string, ghost argument: string, escaped: string,
                      before: string) returns (out: string)
    requires before == CommandText(m, url, opts) && escaped == Sq(argument)
    ensures out == CommandText(m, url, opts + [(flag, argument)])
  {
    out := before + " \\\n     " + flag + " '" + escaped + "'";
    FragmentPieces(before, " \\\n     ", flag, escaped);
    Appends(m, url, opts, flag, argument, escaped);
  }

  /** Whether the request names a content type, in any case. */
  method NamesContentType(headers: seq<Header>) returns (found: bool)
    ensures found == HasContentType(headers)
  {
    for i := 0 to |headers|
      invariant forall k | 0 <= k < i :: !T.EqIgnoreAsciiCase(headers[k].key, "content-type")
    {
      if T.EqIgnoreAsciiCase(headers[i].key, "content-type") {
        return true;
      }
    }
    return false;
  }

  lemma {:induction false} EnabledPairsConcat(a: seq<FormField>, b: seq<FormField>)
    ensures EnabledPairs(a + b) == EnabledPairs(a) + EnabledPairs(b)
  {
    if a == [] {
      assert a + b == b;
    } else {
      assert (a + b)[1..] == a[1..] + b;
      EnabledPairsConcat(a[1..], b);
    }
  }

  lemma OneField(f: FormField)
    ensures EnabledPairs([f]) == if f.enabled then [(f.key, f.value)] else []
  {
    assert [f][1..] == [];
    assert EnabledPairs([]) == [];
  }

  /** The enabled fields, encoded. */
  method FormParts(form: seq<FormField>) returns (text: string)
    ensures text == PercentEncoding.FormText(EnabledPairs(form))
  {
    var parts: seq<string> := [];
    for i := 0 to |form|
      invariant parts == PercentEncoding.Items(EnabledPairs(form[..i]))
    {
      assert form[..i + 1] == form[..i] + [form[i]];
      EnabledPairsConcat(form[..i], [form[i]]);
      OneField(form[i]);
      if form[i].enabled {
        var key := PercentEncoding.EncodeComponent(form[i].key);
        var value := PercentEncoding.EncodeComponent(form[i].value);
        parts := parts + [key + "=" + value];
      }
    }
    assert form[..|form|] == form;
    return T.Join(parts, "&");
  }

  /** `body_parts` */
  method BodyText(spec: BodySpec) returns (body: string, contentType: Option<string>)
    ensures (body, contentType) == BodyParts(spec)
  {
    body, contentType := "", None;
    match spec {
      case NoBody =>
      case Json(raw) => body, contentType := raw, Some("application/json");
      case Text(raw) => body := raw;
      case UrlEncoded(form) =>
        body := FormParts(form);
        contentType := Some("application/x-www-form-urlencoded");
      case Multipart(_) =>
      case GraphQL(payload) => body, contentType := payload, Some("application/json");
      case Binary(_) => contentType := Some("application/octet-stream");
      case Grpc =>
    }
  }

  /** The header printed when the request names no content type but its body implies one. */
  method AppendContentType(m: HttpMethod, url: string, ghost opts: seq<Opt>, headers: seq<Header>, spec: BodySpec, before: string)
    returns (out: string)
    requires before == CommandText(m, url, opts)
    ensures out == CommandText(m, url, opts + HeaderOptions(DefaultHeaders(headers, spec)))
  {
    out := before;
    ghost var defaults := DefaultHeaders(headers, spec);
    var body, contentType := BodyText(spec);
    var named := NamesContentType(headers);
    if contentType.Some? && !named {
      ImpliedTypeIsPlain(spec);
      TypeIsEscaped(contentType.value);
      var text := "Content-Type: " + contentType.value;
      out := AppendOption(m, url, opts, "-H", text, text, out);
      assert HeaderOptions(defaults) == [("-H", text)];
    } else {
      assert opts + HeaderOptions(defaults) == opts;
    }
  }

  /** The loop over the headers. */
  method AppendHeaders(m: HttpMethod, url: string, headers: seq<Header>, before: string) returns (out: string)
    requires before == CommandText(m, url, [])
    ensures out == CommandText(m, url, HeaderOptions(headers))
  {
    out := before;
    for i := 0 to |headers|
      invariant out == CommandText(m, url, HeaderOptions(headers[..i]))
    {
      var h := headers[i];
      HeaderIsEscaped(h);
      out := AppendOption(m, url, HeaderOptions(headers[..i]), "-H", HeaderText(h), Sq(h.key) + ": " + Sq(h.value), out);
      assert HeaderOptions(headers[..i + 1]) == HeaderOptions(headers[..i]) + [("-H", HeaderText(h))];
    }
    assert headers[..|headers|] == headers;
  }

  lemma PartOptionsSnoc(parts: seq<PartField>, i: nat)
    requires i < |parts|
    ensures PartIsSent(parts[i]) ==>
      PartOptions(parts[..i + 1]) == PartOptions(parts[..i]) + [("-F", PartText(parts[i]))]
    ensures !PartIsSent(parts[i]) ==> PartOptions(parts[..i + 1]) == PartOptions(parts[..i])
  {
    assert parts[..i + 1][..i] == parts[..i];
  }

  /** The loop over the multipart fields. */
  method AppendParts(m: HttpMethod, url: string, ghost opts: seq<Opt>, parts: seq<PartField>, before: string)
    returns (out: string)
    requires before == CommandText(m, url, opts)
    ensures out == CommandText(m, url, opts + PartOptions(parts))
  {
    out := before;
    assert opts + [] == opts;
    for i := 0 to |parts|
      invariant out == CommandText(m, url, opts + PartOptions(parts[..i]))
    {
      var f := parts[i];
      PartOptionsSnoc(parts, i);
      if f.enabled && T.Trim(f.key) != "" {
        PartIsEscaped(f);
        var value := if f.isFile then "@" + Sq(f.value) else Sq(f.value);
        out := AppendOption(m, url, opts + PartOptions(parts[..i]), "-F", PartText(f), Sq(f.key) + "=" + value, out);
        assert opts + PartOptions(parts[..i + 1]) == opts + PartOptions(parts[..i]) + [("-F", PartText(f))];
      }
    }
    assert parts[..|parts|] == parts;
  }

  /** The body of every other kind, where there is one. */
  method AppendBody(m: HttpMethod, url: string, ghost opts: seq<Opt>, spec: BodySpec, before: string) returns (out: string)
    requires before == CommandText(m, url, opts) && !spec.Binary?
    ensures out == CommandText(m, url, opts + BodyOptions(spec))
  {
    out := before;
    var body, contentType := BodyText(spec);
    if spec.Multipart? {
      out := AppendParts(m, url, opts, spec.parts, out);
    } else if body != "" {
      out := AppendOption(m, url, opts, "--data", body, Sq(body), out);
    } else {
      assert opts + [] == opts;
    }
  }

  method RenderCurl(m: HttpMethod, url: string, headers: seq<Header>, spec: BodySpec) returns (out: string)
    ensures out == Rendered(m, url, headers, spec)
  {
    out := "curl -X " + Name(m) + " '" + Sq(url) + "'";
    QuotesAround("curl -X " + Name(m), Sq(url));
    assert out == CommandText(m, url, []);
    out := AppendHeaders(m, url, headers, out);
    ghost var opts := HeaderOptions(headers);
    if spec.Binary? {
      out := AppendContentType(m, url, opts, headers, spec, out);
      opts := opts + HeaderOptions(DefaultHeaders(headers, spec));
      PathIsEscaped(spec.path);
      out := AppendOption(m, url, opts, "--data-binary", "@" + spec.path, "@" + Sq(spec.path), out);
    } else {
      out := AppendBody(m, url, opts, spec, out);
      out := AppendContentType(m, url, opts + BodyOptions(spec), headers, spec, out);
    }
  }

  // ---- what a shell makes of the printed command ----

  function OptionWords(opts: seq<Opt>): seq<string> {
    if opts == [] then [] else [opts[0].0, opts[0].1] + OptionWords(opts[1..])
  }

  ghost predicate PlainFlags(opts: seq<Opt>) {
    forall i | 0 <= i < |opts| :: Plain(opts[i].0)
  }

  lemma {:induction false} FeedOptions(words: seq<string>, word: string, opts: seq<Opt>)
    requires PlainFlags(opts)
    ensures Finish(Feed(Scanner(Unquoted, words, word), OptionText(opts))) == Ok(words + [word] + OptionWords(opts))
    decreases opts
  {
    var k := Scanner(Unquoted, words, word);
    if opts == [] {
      assert words + [word] + [] == words + [word];
    } else {
      var (flag, argument) := opts[0];
      var rest := OptionText(opts[1..]);
      FeedOption(words, word, flag, argument);
      FeedConcat(k, CONTINUATION + flag + " " + Quoted(argument), rest);
      FeedOptions(words + [word, flag], argument, opts[1..]);
      assert words + [word, flag] + [argument] + OptionWords(opts[1..]) == words + [word] + OptionWords(opts);
    }
  }

  lemma FeedOption(words: seq<string>, word: string, flag: string, argument: string)
    requires Plain(flag)
    ensures Feed(Scanner(Unquoted, words, word), CONTINUATION + flag + " " + Quoted(argument))
         == Scanner(Unquoted, words + [word, flag], argument)
  {
    var k := Scanner(Unquoted, words, word);
    FeedConcat(k, CONTINUATION + flag + " ", Quoted(argument));
    FeedConcat(k, CONTINUATION + flag, " ");
    FeedConcat(k, CONTINUATION, flag);
    FeedContinuation(words, word);
    FeedBareWord(words + [word], flag);
    assert words + [word] + [flag] == words + [word, flag];
    FeedQuoted(words + [word, flag], argument);
  }

  lemma FeedBareWord(words: seq<string>, w: string)
    requires Plain(w)
    ensures Feed(Feed(Scanner(Delimiter, words, ""), w), " ") == Scanner(Delimiter, words + [w], "")
  {
    FeedPlain(words, w);
    FeedOne(Scanner(Unquoted, words, w), ' ');
  }

  /** Whatever the URL and the arguments contain, a shell reads back exactly the words that were printed. */
  lemma PrintedWordsSurvive(m: HttpMethod, url: string, opts: seq<Opt>)
    requires PlainFlags(opts)
    ensures Split(CommandText(m, url, opts)) == Ok(["curl", "-X", Name(m), url] + OptionWords(opts))
  {
    var words := ["curl", "-X", Name(m)];
    LeadThenTail(Name(m), Quoted(url), OptionText(opts));
    FeedLead(m, Quoted(url) + OptionText(opts));
    FeedConcat(Scanner(Delimiter, words, ""), Quoted(url), OptionText(opts));
    FeedQuoted(words, url);
    FeedOptions(words, url, opts);
    assert words + [url] == ["curl", "-X", Name(m), url];
  }

  lemma LeadThenTail(name: string, url: string, options: string)
    ensures "curl -X " + name + " " + url + options == "curl" + (" " + ("-X" + (" " + (name + (" " + (url + options))))))
  {
    assert "curl -X " == "curl" + (" " + ("-X" + " "));
  }

  lemma FeedWord(words: seq<string>, w: string, tail: string)
    requires Plain(w)
    ensures Feed(Scanner(Delimiter, words, ""), w + (" " + tail)) == Feed(Scanner(Delimiter, words + [w], ""), tail)
  {
    FeedConcat(Scanner(Delimiter, words, ""), w, " " + tail);
    FeedPlain(words, w);
    assert " " == [' '];
    FeedHead(Scanner(Unquoted, words, w), ' ', tail);
  }

  lemma FeedLead(m: HttpMethod, tail: string)
    ensures Feed(Scanner(Delimiter, [], ""), "curl" + (" " + ("-X" + (" " + (Name(m) + (" " + tail))))))
         == Feed(Scanner(Delimiter, ["curl", "-X", Name(m)], ""), tail)
  {
    LeadIsPlain();
    NameIsUpper(m);
    NameIsPlain(Name(m));
    FeedWord([], "curl", "-X" + (" " + (Name(m) + (" " + tail))));
    FeedWord(["curl"], "-X", Name(m) + (" " + tail));
    FeedWord(["curl", "-X"], Name(m), tail);
    assert [] + ["curl"] == ["curl"] && ["curl"] + ["-X"] == ["curl", "-X"];
    assert ["curl", "-X"] + [Name(m)] == ["curl", "-X", Name(m)];
  }

  lemma LeadIsPlain()
    ensures Plain("curl") && Plain("-X")
  {
  }

  lemma NameIsPlain(name: string)
    requires name != "" && forall i | 0 <= i < |name| :: 'A' <= name[i] <= 'Z'
    ensures Plain(name)
  {
  }

  lemma {:induction false} PartFlags(parts: seq<PartField>)
    ensures forall o | o in PartOptions(parts) :: o.0 == "-F"
  {
    if parts != [] {
      PartFlags(parts[..|parts| - 1]);
    }
  }

  predicate PrinterFlag(flag: string) {
    flag == "-H" || flag == "-F" || flag == "--data" || flag == "--data-binary"
  }

  lemma PrinterFlagsArePlain(flag: string)
    requires PrinterFlag(flag)
    ensures Plain(flag)
  {
    assert Plain("-H") && Plain("-F") && Plain("--data") && Plain("--data-binary");
  }

  lemma BodyFlags(spec: BodySpec)
    ensures forall o | o in BodyOptions(spec) :: PrinterFlag(o.0)
  {
    if spec.Multipart? { PartFlags(spec.parts); }
  }

  lemma OptionsArePrinted(headers: seq<Header>, spec: BodySpec)
    ensures forall o | o in Options(headers, spec) :: PrinterFlag(o.0)
  {
    BodyFlags(spec);
  }

  lemma OptionsArePlain(headers: seq<Header>, spec: BodySpec)
    ensures PlainFlags(Options(headers, spec))
  {
    var opts := Options(headers, spec);
    OptionsArePrinted(headers, spec);
    forall i | 0 <= i < |opts| ensures Plain(opts[i].0) {
      PrinterFlagsArePlain(opts[i].0);
    }
  }

  /** The rendered command, for every request at all, is split into exactly its intended words. */
  lemma RenderedWordsSurvive(m: HttpMethod, url: string, headers: seq<Header>, spec: BodySpec)
    ensures Split(Rendered(m, url, headers, spec))
         == Ok(["curl", "-X", Name(m), url] + OptionWords(Options(headers, spec)))
  {
    OptionsArePlain(headers, spec);
    PrintedWordsSurvive(m, url, Options(headers, spec));
  }
}
