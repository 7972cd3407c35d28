/** What the cURL parser makes of a command the cURL printer wrote. */
module CurlRoundTrip {
  import opened Wrappers
  import opened Requests
  import opened CurlPrinter
  import opened CurlParser
  import opened ShellWords
  import T = Text
  import PercentEncoding

  // ---- the options the printer writes, read one at a time ----

  function ApplyOption(p: Progress, o: Opt): Progress {
    if o.0 == "-H" then PushHeader(p, o.1)
    else if o.0 == "-F" then PushIgnored(p, "-F")
    else PushData(p, o.1)
  }

  function ApplyOptions(p: Progress, opts: seq<Opt>): Progress
    decreases opts
  {
    if opts == [] then p else ApplyOptions(ApplyOption(p, opts[0]), opts[1..])
  }

  lemma FlagIsRead(flag: string)
    requires PrinterFlag(flag)
    ensures TakesValue(flag, Classify(flag))
    ensures Classify(flag) == if flag == "-H" then HeaderOption else if flag == "-F" then UnknownShort else DataOption
  {
    assert '=' !in flag;
    if flag == "-F" {
      PartFlagIsRead();
    }
  }

  lemma PartFlagIsRead()
    ensures ClassifyPlain("-F") == UnknownShort && HasValueLetter("-F")
  {
    assert T.StartsWith("-F", "-") by { assert "-F"[..1] == "-"; }
    assert VALUE_SHORT_OPTIONS[6] == 'F' && "-F"[1] == 'F';
  }

  lemma OptionIsRead(flag: string, argument: string, rest: seq<string>, p: Progress)
    requires PrinterFlag(flag)
    ensures Turn([flag, argument] + rest, p) == (rest, ApplyOption(p, (flag, argument)))
  {
    FlagIsRead(flag);
    var words := [flag, argument] + rest;
    assert words[0] == flag && words[1] == argument && words[2..] == rest;
  }

  lemma {:induction false} OptionsAreRead(opts: seq<Opt>, p: Progress)
    requires forall o | o in opts :: PrinterFlag(o.0)
    ensures ReadWords(OptionWords(opts), p) == ApplyOptions(p, opts)
    decreases opts
  {
    if opts != [] {
      OptionIsRead(opts[0].0, opts[0].1, OptionWords(opts[1..]), p);
      OptionsAreRead(opts[1..], ApplyOption(p, opts[0]));
    }
  }

  lemma {:induction false} ApplyConcat(p: Progress, a: seq<Opt>, b: seq<Opt>)
    ensures ApplyOptions(p, a + b) == ApplyOptions(ApplyOptions(p, a), b)
    decreases a
  {
    if a == [] {
      assert a + b == b;
    } else {
      assert (a + b)[0] == a[0] && (a + b)[1..] == a[1..] + b;
      ApplyConcat(ApplyOption(p, a[0]), a[1..], b);
    }
  }

  // ---- headers ----

  /** The headers that come back from printed ones. */
  function ReadBack(headers: seq<Header>): seq<Header> {
    if headers == [] then [] else Found(headers[0]) + ReadBack(headers[1..])
  }

  function Found(h: Header): seq<Header> {
    match ReadHeader(HeaderText(h))
    case None => []
    case Some(read) => [read]
  }

  lemma HeaderIsRead(p: Progress, h: Header)
    ensures ApplyOption(p, ("-H", HeaderText(h))) == p.(headers := p.headers + Found(h))
  {
    assert p.headers + [] == p.headers;
  }

  lemma {:induction false} HeadersAreRead(p: Progress, headers: seq<Header>)
    ensures ApplyOptions(p, HeaderOptions(headers)) == p.(headers := p.headers + ReadBack(headers))
    decreases headers
  {
    if headers == [] {
      assert p.headers + [] == p.headers;
    } else {
      var rest := headers[1..];
      assert HeaderOptions(headers)[1..] == HeaderOptions(rest);
      HeaderIsRead(p, headers[0]);
      HeadersAreRead(p.(headers := p.headers + Found(headers[0])), rest);
      T.Associative(p.headers, Found(headers[0]), ReadBack(rest));
    }
  }

  /** A name the parser can find again: trimmed, not empty, and without a colon. */
  predicate Faithful(h: Header) {
    h.key != "" && T.Trim(h.key) == h.key && ':' !in h.key
  }

  function Received(h: Header): Header {
    Header(h.key, T.Trim(h.value))
  }

  lemma ColonFreeKey(h: Header)
    requires ':' !in h.key
    ensures ReadHeader(HeaderText(h)) ==
      if T.Trim(h.key) == "" then None else Some(Header(T.Trim(h.key), T.Trim(h.value)))
  {
    var rest := " " + h.value;
    assert ": " == [':'] + " ";
    assert HeaderText(h) == h.key + [':'] + rest;
    T.SplitOnceAt(h.key, ':', rest);
    assert rest[1..] == h.value;
  }

  /** Exactly the faithful headers come back under their own name, with the value trimmed. */
  lemma HeaderSurvives(h: Header)
    ensures ReadHeader(HeaderText(h)) == Some(Received(h)) <==> Faithful(h)
  {
    if ':' !in h.key {
      ColonFreeKey(h);
    } else if ReadHeader(HeaderText(h)) == Some(Received(h)) {
      var (key, _) := T.SplitOnce(HeaderText(h), ':').value;
      T.TrimKeepsOnlyItsOwn(key, ':');
    }
  }

  lemma {:induction false} FaithfulHeadersReadBack(headers: seq<Header>)
    requires forall h | h in headers :: Faithful(h)
    ensures ReadBack(headers) == seq(|headers|, i requires 0 <= i < |headers| => Received(headers[i]))
  {
    if headers != [] {
      HeaderSurvives(headers[0]);
      FaithfulHeadersReadBack(headers[1..]);
    }
  }

  lemma DefaultHeaderIsFaithful(headers: seq<Header>, spec: BodySpec)
    ensures forall h | h in DefaultHeaders(headers, spec) :: Faithful(h) && Received(h) == h
  {
    if DefaultHeaders(headers, spec) != [] {
      ImpliedTypeIsPlain(spec);
      TypeIsFaithful(BodyParts(spec).1.value);
    }
  }

  lemma TypeIsFaithful(contentType: string)
    requires PlainType(contentType)
    ensures Faithful(Header("Content-Type", contentType))
    ensures Received(Header("Content-Type", contentType)) == Header("Content-Type", contentType)
  {
    NothingToTrim("Content-Type");
    NothingToTrim(contentType);
  }

  lemma NothingToTrim(s: string)
    requires s != "" && !T.IsWhitespace(s[0]) && !T.IsWhitespace(s[|s| - 1])
    ensures T.Trim(s) == s
  {
  }

  // ---- bodies ----

  function PrintedBody(spec: BodySpec): Option<string> {
    if spec.Binary? then Some("@" + spec.path)
    else if BodyParts(spec).0 != "" then Some(BodyParts(spec).0)
    else None
  }

  predicate SendsParts(spec: BodySpec) {
    spec.Multipart? && exists f :: f in spec.parts && PartIsSent(f)
  }

  lemma {:induction false} PartsAreIgnored(p: Progress, parts: seq<PartField>)
    ensures ApplyOptions(p, PartOptions(parts))
         == if exists f :: f in parts && PartIsSent(f) then PushIgnored(p, "-F") else p
  {
    if parts != [] {
      var last := parts[|parts| - 1];
      var rest := parts[..|parts| - 1];
      assert parts == rest + [last];
      PartsAreIgnored(p, rest);
      var options := if PartIsSent(last) then [("-F", PartText(last))] else [];
      ApplyConcat(p, PartOptions(rest), options);
      var q := ApplyOptions(p, PartOptions(rest));
      if PartIsSent(last) {
        assert options[1..] == [];
        assert ApplyOptions(q, options) == ApplyOptions(PushIgnored(q, "-F"), []);
        assert last in parts;
      } else {
        assert PartOptions(rest) + [] == PartOptions(rest);
      }
    }
  }

  lemma BodyIsRead(p: Progress, spec: BodySpec)
    ensures ApplyOptions(p, BodyOptions(spec))
         == if SendsParts(spec) then PushIgnored(p, "-F")
            else if PrintedBody(spec).Some? then PushData(p, PrintedBody(spec).value)
            else p
  {
    if spec.Multipart? {
      PartsAreIgnored(p, spec.parts);
    } else if PrintedBody(spec).Some? {
      var o := BodyOptions(spec);
      assert o[1..] == [];
      assert ApplyOptions(p, o) == ApplyOptions(ApplyOption(p, o[0]), []);
    }
  }

  // ---- the URL ----

  /** The URLs the word loop takes for a URL and not for an option. */
  predicate UrlSurvives(url: string) {
    url != "" && (url[0] != '-' || url == "-")
  }

  lemma UrlIsPositional(url: string)
    ensures Classify(url) == Positional <==> url == "" || UrlSurvives(url)
  {
    if url != "" && url[0] != '-' {
      NoDashIsPositional(url);
    } else if |url| > 1 {
      DashIsOption(url);
    }
  }

  lemma NoDashIsPositional(url: string)
    requires url != "" && url[0] != '-'
    ensures Classify(url) == Positional
  {
    if T.SplitOnce(url, '=').Some? {
      var (name, value) := T.SplitOnce(url, '=').value;
      assert name == "" || name[0] == url[0];
    }
  }

  lemma DashIsOption(url: string)
    requires |url| > 1 && url[0] == '-'
    ensures Classify(url) != Positional
  {
    assert T.StartsWith(url, "-") by { assert url[..1] == "-"; }
  }

  lemma LeadIsRead(m: HttpMethod, url: string, rest: seq<string>)
    requires UrlSurvives(url)
    ensures ReadWords(["-X", Name(m), url] + rest, START)
         == ReadWords(rest, START.(explicit := Some(m), url := url))
  {
    var words := ["-X", Name(m), url] + rest;
    MethodIsRead(m, [url] + rest);
    assert words == ["-X", Name(m)] + ([url] + rest);
    UrlIsPositional(url);
    var p := START.(explicit := Some(m));
    assert ([url] + rest)[1..] == rest;
    assert Turn([url] + rest, p) == (rest, p.(url := url));
  }

  lemma MethodIsRead(m: HttpMethod, rest: seq<string>)
    ensures Turn(["-X", Name(m)] + rest, START) == (rest, START.(explicit := Some(m)))
  {
    assert '=' !in "-X";
    MethodRoundTrip(m);
    var words := ["-X", Name(m)] + rest;
    assert words[0] == "-X" && words[1] == Name(m) && words[2..] == rest;
  }

  // ---- the round trip ----

  function ExpectedBody(validJson: string -> bool, spec: BodySpec): Option<BodySpec> {
    match PrintedBody(spec)
    case None => None
    case Some(text) => Some(InferBody(validJson, text))
  }

  function Expected(validJson: string -> bool, m: HttpMethod, url: string, headers: seq<Header>, spec: BodySpec): Parsed {
    Parsed(url, m, ReadBack(headers) + DefaultHeaders(headers, spec), ExpectedBody(validJson, spec), NoAuth,
           if SendsParts(spec) then ["-F"] else [])
  }

  lemma OptionsGiveTheRequest(m: HttpMethod, url: string, headers: seq<Header>, spec: BodySpec)
    ensures ApplyOptions(START.(explicit := Some(m), url := url), Options(headers, spec))
         == Progress(url, ReadBack(headers) + DefaultHeaders(headers, spec), NoAuth,
                     if SendsParts(spec) then ["-F"] else [], Some(m), PrintedBody(spec).Some?,
                     if PrintedBody(spec).Some? then [PrintedBody(spec).value] else [], false)
  {
    var p := START.(explicit := Some(m), url := url);
    var defaults := DefaultHeaders(headers, spec);
    var h, b, d := HeaderOptions(headers), BodyOptions(spec), HeaderOptions(defaults);
    DefaultHeaderIsFaithful(headers, spec);
    FaithfulHeadersReadBack(defaults);
    assert ReadBack(defaults) == defaults;
    HeadersAreRead(p, headers);
    assert [] + ReadBack(headers) == ReadBack(headers);
    var q := p.(headers := ReadBack(headers));
    if spec.Binary? {
      ApplyConcat(p, h + d, b);
      ApplyConcat(p, h, d);
      HeadersAreRead(q, defaults);
      BodyIsRead(q.(headers := ReadBack(headers) + defaults), spec);
    } else {
      ApplyConcat(p, h + b, d);
      ApplyConcat(p, h, b);
      BodyIsRead(q, spec);
      HeadersAreRead(ApplyOptions(q, b), defaults);
    }
  }

  /** Parsing the printed command, for every method, header list and body, and every URL that is not an option. */
  lemma PrintedCommandParses(validJson: string -> bool, m: HttpMethod, url: string, headers: seq<Header>, spec: BodySpec)
    requires UrlSurvives(url)
    ensures Parse(validJson, Rendered(m, url, headers, spec)) == Ok(Expected(validJson, m, url, headers, spec))
  {
    var opts := Options(headers, spec);
    var words := ["curl", "-X", Name(m), url] + OptionWords(opts);
    RenderedWordsSurvive(m, url, headers, spec);
    assert words[1..] == ["-X", Name(m), url] + OptionWords(opts);
    LeadIsRead(m, url, OptionWords(opts));
    OptionsArePrinted(headers, spec);
    OptionsAreRead(opts, START.(explicit := Some(m), url := url));
    OptionsGiveTheRequest(m, url, headers, spec);
    var text := PrintedBody(spec);
    assert text.Some? ==> T.Join([text.value], "&") == text.value;
  }

  /**
   * The round trip. With names the parser can find again, the same method, URL, headers (values
   * trimmed, the default content type appended when absent) and body text come back, without
   * authentication; nothing but multipart fields is ignored.
   */
  lemma RoundTrip(validJson: string -> bool, m: HttpMethod, url: string, headers: seq<Header>, spec: BodySpec)
    requires UrlSurvives(url)
    requires forall h | h in headers :: Faithful(h)
    ensures
      var result := Parse(validJson, Rendered(m, url, headers, spec));
      && result.Ok?
      && result.value.method_ == m && result.value.url == url && result.value.auth == NoAuth
      && result.value.headers
         == seq(|headers|, i requires 0 <= i < |headers| => Received(headers[i])) + DefaultHeaders(headers, spec)
      && (result.value.body.None? <==> PrintedBody(spec).None?)
      && (result.value.body.Some? ==>
            (result.value.body.value.Json? || result.value.body.value.Text?)
            && result.value.body.value.raw == PrintedBody(spec).value)
      && result.value.ignored == if SendsParts(spec) then ["-F"] else []
  {
    PrintedCommandParses(validJson, m, url, headers, spec);
    FaithfulHeadersReadBack(headers);
  }

  function AddedType(headers: seq<Header>, value: string): seq<Header> {
    if HasContentType(headers) then [] else [Header("Content-Type", value)]
  }

  /** The same, spelled out for the everyday bodies: nothing is ignored, and each kind brings its own content type. */
  lemma EverydayRoundTrip(validJson: string -> bool, m: HttpMethod, url: string, headers: seq<Header>, spec: BodySpec)
    requires UrlSurvives(url) && forall h | h in headers :: Faithful(h)
    requires spec.Json? || spec.Text? || spec.UrlEncoded?
    ensures
      var received := seq(|headers|, i requires 0 <= i < |headers| => Received(headers[i]));
      var text := match spec
        case Json(raw) => raw
        case Text(raw) => raw
        case UrlEncoded(form) => PercentEncoding.FormText(EnabledPairs(form))
        case _ => "";
      var added := match spec
        case Json(_) => AddedType(headers, "application/json")
        case UrlEncoded(_) => AddedType(headers, "application/x-www-form-urlencoded")
        case _ => [];
      Parse(validJson, Rendered(m, url, headers, spec))
      == Ok(Parsed(url, m, received + added, if text == "" then None else Some(InferBody(validJson, text)), NoAuth, []))
  {
    PrintedCommandParses(validJson, m, url, headers, spec);
    FaithfulHeadersReadBack(headers);
  }

  /** The kind of body that comes back: JSON bodies stay JSON exactly when they look like JSON to the parser. */
  lemma BodyKinds(validJson: string -> bool, spec: BodySpec)
    requires PrintedBody(spec).Some?
    ensures ExpectedBody(validJson, spec) == Some(Json(PrintedBody(spec).value)) <==>
      (var text := T.Trim(PrintedBody(spec).value);
       PlausibleJson(text) && T.Utf8Length(text) <= 65536 && validJson(text))
    ensures spec.UrlEncoded? || spec.Binary? ==> ExpectedBody(validJson, spec) == Some(Text(PrintedBody(spec).value))
  {
    if spec.UrlEncoded? {
      FormIsNotJson(EnabledPairs(spec.form));
    } else if spec.Binary? {
      PathIsNotJson(spec.path);
    }
  }

  lemma FormIsNotJson(pairs: seq<PercentEncoding.Pair>)
    ensures !PlausibleJson(T.Trim(PercentEncoding.FormText(pairs)))
  {
    var text := PercentEncoding.FormText(pairs);
    var trimmed := T.Trim(text);
    if PlausibleJson(trimmed) {
      T.TrimKeepsOnlyItsOwn(text, trimmed[0]);
      PercentEncoding.FormAlphabet(pairs, trimmed[0]);
    }
  }

  lemma PathIsNotJson(path: string)
    ensures !PlausibleJson(T.Trim("@" + path))
  {
    var text := "@" + path;
    assert T.TrimStart(text) == text;
    T.TrimEndIsPrefix(text);
  }

  // ---- exactly which URLs ----

  lemma NoOptionLeavesTheUrl(url: string, p: Progress)
    requires p.url == "" && !UrlSurvives(url)
    ensures Turn([url], p).1.url != url || url == ""
    ensures Turn([url], p).0 == []
  {
    UrlIsPositional(url);
    var t := Classify(url);
    if t.Joined? {
      assert |t.value| < |url|;
      JoinedUrl(p, t.name, t.value);
    }
  }

  lemma JoinedUrl(p: Progress, name: string, value: string)
    requires p.url == ""
    ensures ApplyJoined(p, name, value).url == "" || ApplyJoined(p, name, value).url == value
  {
  }

  /** A request without headers and body comes back if and only if its URL is not empty and not an option. */
  lemma BareRequestSurvives(validJson: string -> bool, m: HttpMethod, url: string)
    ensures Parse(validJson, Rendered(m, url, [], NoBody)) == Ok(Parsed(url, m, [], None, NoAuth, []))
       <==> UrlSurvives(url)
  {
    if UrlSurvives(url) {
      PrintedCommandParses(validJson, m, url, [], NoBody);
    } else {
      RenderedWordsSurvive(m, url, [], NoBody);
      assert Options([], NoBody) == [];
      var words := ["curl", "-X", Name(m), url];
      assert words + [] == words && words[1..] == ["-X", Name(m)] + [url];
      MethodIsRead(m, [url]);
      var p := START.(explicit := Some(m));
      NoOptionLeavesTheUrl(url, p);
      var q := Turn([url], p).1;
      assert ReadWords([url], p) == ReadWords([], q) == q;
      assert Conclude(validJson, q).Ok? ==> Conclude(validJson, q).value.url == q.url != "";
    }
  }

  // ---- the two spellings of a long option ----

  /** `--name value` and `--name=value` mean the same, for every option that takes a value and every value. */
  lemma SpellingsAgree(name: string, value: string, rest: seq<string>, p: Progress)
    requires IsValueOption(name)
    ensures ReadWords([name, value] + rest, p) == ReadWords([name + "=" + value] + rest, p)
  {
    var apart, joined := [name, value] + rest, [name + "=" + value] + rest;
    LongNames(name);
    ReadApart(name, value, rest, p);
    ReadJoined(name, value, rest, p);
  }

  lemma ReadJoined(name: string, value: string, rest: seq<string>, p: Progress)
    requires '=' !in name && T.StartsWith(name, "--")
    ensures Turn([name + "=" + value] + rest, p) == (rest, ApplyJoined(p, name, value))
  {
    var w := name + "=" + value;
    T.SplitOnceAt(name, '=', value);
    assert w[|name|] == '=' && |w| > 2;
    assert Classify(w) == Joined(name, value);
    assert ([w] + rest)[0] == w && ([w] + rest)[1..] == rest;
  }

  lemma ReadApart(name: string, value: string, rest: seq<string>, p: Progress)
    requires IsValueOption(name)
    ensures Turn([name, value] + rest, p) == (rest, ApplyJoined(p, name, value))
  {
    LongNames(name);
    ApplicationsAgree(name, p, value);
    var words := [name, value] + rest;
    assert words[0] == name && words[1] == value && words[2..] == rest;
    var t := Classify(name);
    assert t.RequestOption? || t.HeaderOption? || t.UserOption? || t.DataOption? || t.UrlOption?;
  }

  lemma LongNames(name: string)
    requires IsValueOption(name)
    ensures '=' !in name && T.StartsWith(name, "--") && |name| > 2
    ensures TakesValue(name, Classify(name)) && Classify(name) == ClassifyPlain(name)
    ensures Classify(name) in {RequestOption, HeaderOption, UserOption, DataOption, UrlOption}
  {
    NamesAreLong(name);
  }

  lemma NamesAreLong(name: string)
    requires IsValueOption(name)
    ensures '=' !in name && T.StartsWith(name, "--") && |name| > 2
  {
  }

  lemma ApplicationsAgree(name: string, p: Progress, value: string)
    requires IsValueOption(name)
    ensures ApplyValue(p, ClassifyPlain(name), value) == ApplyJoined(p, name, value)
  {
  }

  // ---- commands the printer does not write ----

  function DataOptions(parts: seq<string>): (opts: seq<Opt>)
    ensures |opts| == |parts| && forall i | 0 <= i < |opts| :: opts[i] == ("--data", parts[i])
  {
    seq(|parts|, i requires 0 <= i < |parts| => ("--data", parts[i]))
  }

  lemma {:induction false} DataIsGathered(p: Progress, parts: seq<string>)
    ensures ApplyOptions(p, DataOptions(parts))
         == p.(dataParts := p.dataParts + parts, hasData := p.hasData || parts != [])
    decreases parts
  {
    if parts == [] {
      assert p.dataParts + [] == p.dataParts;
    } else {
      assert DataOptions(parts)[1..] == DataOptions(parts[1..]);
      DataIsGathered(PushData(p, parts[0]), parts[1..]);
      T.Associative(p.dataParts, [parts[0]], parts[1..]);
      assert [parts[0]] + parts[1..] == parts;
    }
  }

  /** Without an explicit method, data makes the request a POST with the parts joined by `&`; no data, a GET without body. */
  lemma DataPartsAreJoined(validJson: string -> bool, url: string, parts: seq<string>)
    requires UrlSurvives(url)
    ensures ParseWords(validJson, ["curl", url] + OptionWords(DataOptions(parts)))
         == Ok(Parsed(url, if parts == [] then GET else POST, [],
                      if parts == [] then None else Some(InferBody(validJson, T.Join(parts, "&"))), NoAuth, []))
  {
    var rest := OptionWords(DataOptions(parts));
    var words := ["curl", url] + rest;
    assert words[1..] == [url] + rest && ([url] + rest)[1..] == rest;
    UrlIsPositional(url);
    assert Turn([url] + rest, START) == (rest, START.(url := url));
    OptionsAreRead(DataOptions(parts), START.(url := url));
    DataIsGathered(START.(url := url), parts);
    assert [] + parts == parts;
  }

  /** `-u user:password` is Basic authentication, and Digest with the switch, wherever the switch stands. */
  lemma CredentialsAreRead(validJson: string -> bool, user: string, password: string, url: string, before: bool, after: bool)
    requires ':' !in user && UrlSurvives(url)
    ensures ParseWords(validJson, ["curl"] + Switch(before) + ["-u", user + ":" + password] + Switch(after) + [url])
         == Ok(Parsed(url, GET, [], None,
                      if before || after then Digest(T.Trim(user), password) else Basic(T.Trim(user), password), []))
  {
    var credentials := user + ":" + password;
    var words := ["curl"] + Switch(before) + ["-u", credentials] + Switch(after) + [url];
    var last := [url];
    var tail := Switch(after) + last;
    assert words[1..] == Switch(before) + (["-u", credentials] + tail);
    SwitchIsRead(before, ["-u", credentials] + tail, START);
    var p := START.(digest := before);
    UserIsRead(user, password, tail, p);
    var q := p.(auth := Basic(T.Trim(user), password));
    SwitchIsRead(after, last, q);
    UrlIsRead(url, q.(digest := before || after));
  }

  lemma UrlIsRead(url: string, p: Progress)
    requires UrlSurvives(url) && p.url == ""
    ensures ReadWords([url], p) == p.(url := url)
  {
    UrlIsPositional(url);
    assert [url][1..] == [];
    assert ReadWords([url], p) == ReadWords([], p.(url := url));
  }

  lemma DigestFlag()
    ensures Classify("--digest") == DigestOption && !TakesValue("--digest", DigestOption)
  {
    DigestWord("--digest");
  }

  lemma DigestWord(w: string)
    requires w == "--digest"
    ensures Classify(w) == DigestOption
  {
    assert '=' !in w;
    WithoutEquals(w);
  }

  lemma WithoutEquals(w: string)
    requires w != "--" && '=' !in w
    ensures Classify(w) == ClassifyPlain(w)
  {
  }

  lemma UserFlag()
    ensures Classify("-u") == UserOption && TakesValue("-u", UserOption)
  {
    assert '=' !in "-u";
  }

  function Switch(on: bool): seq<string> {
    if on then ["--digest"] else []
  }

  lemma SwitchIsRead(on: bool, rest: seq<string>, p: Progress)
    ensures ReadWords(Switch(on) + rest, p) == ReadWords(rest, p.(digest := p.digest || on))
  {
    if on {
      DigestFlag();
      var words := ["--digest"] + rest;
      assert words[0] == "--digest" && words[1..] == rest;
      assert Turn(words, p) == (rest, p.(digest := true));
    } else {
      assert Switch(on) + rest == rest;
    }
  }

  lemma UserIsRead(user: string, password: string, rest: seq<string>, p: Progress)
    requires ':' !in user
    ensures ReadWords(["-u", user + ":" + password] + rest, p)
         == ReadWords(rest, p.(auth := Basic(T.Trim(user), password)))
  {
    UserFlag();
    var words := ["-u", user + ":" + password] + rest;
    assert words[0] == "-u" && words[1] == user + ":" + password && words[2..] == rest;
    T.SplitOnceAt(user, ':', password);
    assert Turn(words, p) == (rest, p.(auth := ParseUser(user + ":" + password)));
  }
}
