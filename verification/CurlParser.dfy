/** Reading a pasted cURL command. */
module CurlParser {
  import opened Wrappers
  import opened Requests
  import ShellWords
  import T = Text

  datatype Auth = NoAuth | Basic(username: string, password: string) | Digest(username: string, password: string)

  datatype Parsed = Parsed(url: string, method_: HttpMethod, headers: seq<Header>, body: Option<BodySpec>,
                           auth: Auth, ignored: seq<string>)

  datatype ParseError = BadQuoting | EmptyCommand | MissingUrl

  /** What the word loop has gathered. */
  datatype Progress = Progress(url: string, headers: seq<Header>, auth: Auth, ignored: seq<string>,
                               explicit: Option<HttpMethod>, hasData: bool, dataParts: seq<string>, digest: bool)

  const START := Progress("", [], NoAuth, [], None, false, [], false)

  // ---- the word classes ----

  datatype Token =
    | EndOfOptions
    | Joined(name: string, value: string)
    | RequestOption | HeaderOption | UserOption | DigestOption | DataOption | UrlOption
    | UnknownLong | UnknownShort
    | Positional

  function Classify(w: string): Token {
    if w == "--" then EndOfOptions
    else match T.SplitOnce(w, '=')
      case Some((name, value)) => if T.StartsWith(name, "--") then Joined(name, value) else ClassifyPlain(w)
      case None => ClassifyPlain(w)
  }

  function ClassifyPlain(w: string): Token {
    if w == "-X" || w == "--request" then RequestOption
    else if w == "-H" || w == "--header" then HeaderOption
    else if w == "-u" || w == "--user" then UserOption
    else if w == "--digest" then DigestOption
    else if w == "-d" || w == "--data" || w == "--data-raw" || w == "--data-binary" || w == "--data-urlencode"
    then DataOption
    else if w == "--url" then UrlOption
    else if T.StartsWith(w, "--") && |w| > 2 then UnknownLong
    else if T.StartsWith(w, "-") && |w| > 1 then UnknownShort
    else Positional
  }

  predicate IsCommandWord(w: string) {
    w == "curl" || w == "curl.exe" || T.EndsWith(w, "/curl")
  }

  /** Long options of other tools' habits that take the next word as their value. */
  const VALUE_LONG_OPTIONS: set<string> := {
    "--user-agent", "--cookie", "--referer", "--output", "--write-out", "--proxy", "--cookie-jar", "--cert",
    "--form", "--config", "--max-time", "--max-redirs", "--connect-timeout", "--limit-rate", "--range",
    "--upload-file", "--resolve", "--retry", "--retry-delay", "--interface", "--cacert", "--capath", "--key",
    "--proto", "--proto-redir"
  }

  /** Short option letters that take the next word as their value. */
  const VALUE_SHORT_OPTIONS := "AbcdeEFHKmoPrTUuwxXtz"

  predicate HasValueLetter(w: string) {
    exists i | 0 < i < |w| :: w[i] in VALUE_SHORT_OPTIONS
  }

  // ---- the effect of one option ----

  function PushIgnored(p: Progress, token: string): Progress {
    if token in p.ignored then p else p.(ignored := p.ignored + [token])
  }

  function ReadHeader(v: string): Option<Header> {
    match T.SplitOnce(v, ':')
    case None => None
    case Some((key, value)) => if T.Trim(key) == "" then None else Some(Header(T.Trim(key), T.Trim(value)))
  }

  function PushHeader(p: Progress, v: string): Progress {
    match ReadHeader(v)
    case None => p
    case Some(h) => p.(headers := p.headers + [h])
  }

  function ParseUser(v: string): Auth {
    match T.SplitOnce(v, ':')
    case Some((user, password)) => Basic(T.Trim(user), password)
    case None => Basic(T.Trim(v), "")
  }

  function PushData(p: Progress, v: string): Progress {
    p.(dataParts := p.dataParts + [v], hasData := true)
  }

  function SetUrl(p: Progress, v: string): Progress {
    if p.url == "" then p.(url := v) else p
  }

  predicate IsDataName(name: string) {
    name == "--data" || name == "--data-raw" || name == "--data-binary" || name == "--data-urlencode"
  }

  predicate IsValueOption(name: string) {
    name == "--url" || name == "--request" || name == "--header" || name == "--user" || IsDataName(name)
  }

  /** The `--name=value` spelling. */
  function ApplyJoined(p: Progress, name: string, value: string): Progress {
    if !IsValueOption(name) then PushIgnored(p, name)
    else if name == "--url" then SetUrl(p, value)
    else if name == "--request" then p.(explicit := ParseMethod(value))
    else if name == "--header" then PushHeader(p, value)
    else if name == "--user" then p.(auth := ParseUser(value))
    else PushData(p, value)
  }

  /** An option that takes the next word; without one it does nothing. */
  function ApplyValue(p: Progress, t: Token, value: string): Progress {
    match t
    case RequestOption => p.(explicit := ParseMethod(value))
    case HeaderOption => PushHeader(p, value)
    case UserOption => p.(auth := ParseUser(value))
    case DataOption => PushData(p, value)
    case UrlOption => SetUrl(p, value)
    case _ => p
  }

  predicate TakesValue(w: string, token: Token) {
    match token
    case UnknownLong => w in VALUE_LONG_OPTIONS
    case UnknownShort => HasValueLetter(w)
    case RequestOption => true
    case HeaderOption => true
    case UserOption => true
    case DataOption => true
    case UrlOption => true
    case _ => false
  }

  /** One turn of the word loop: the words still to read, and what is gathered. */
  function Turn(words: seq<string>, p: Progress): (r: (seq<string>, Progress))
    requires words != []
    ensures |r.0| < |words|
  {
    TurnAs(Classify(words[0]), words, p)
  }

  function TurnAs(token: Token, words: seq<string>, p: Progress): (r: (seq<string>, Progress))
    requires words != []
    ensures |r.0| < |words|
  {
    var w := words[0];
    var next := if TakesValue(w, token) && |words| > 1 then words[2..] else words[1..];
    match token
    case EndOfOptions => ([], if |words| > 1 then SetUrl(p, words[1]) else p)
    case Joined(name, value) => (next, ApplyJoined(p, name, value))
    case DigestOption => (next, p.(digest := true))
    case UnknownLong => (next, PushIgnored(p, w))
    case UnknownShort => (next, PushIgnored(p, w))
    case Positional => (next, SetUrl(p, w))
    case t => (next, if |words| > 1 then ApplyValue(p, t, words[1]) else p)
  }

  function ReadWords(words: seq<string>, p: Progress): Progress
    decreases |words|
  {
    if words == [] then p else var (rest, q) := Turn(words, p); ReadWords(rest, q)
  }

  // ---- the result ----

  const MAX_PRECISE_CHECK_BYTES := 65536

  predicate PlausibleJson(s: string) {
    s != "" && (s[0] == '{' || s[0] == '[') && (s[|s| - 1] == '}' || s[|s| - 1] == ']')
  }

  /** `validJson` stands for the JSON parser's verdict on a text. */
  function InferBody(validJson: string -> bool, data: string): BodySpec {
    var trimmed := T.Trim(data);
    if PlausibleJson(trimmed) && T.Utf8Length(trimmed) <= MAX_PRECISE_CHECK_BYTES && validJson(trimmed)
    then Json(data) else Text(data)
  }

  function Conclude(validJson: string -> bool, p: Progress): Result<Parsed, ParseError> {
    if p.url == "" then Err(MissingUrl)
    else Ok(Parsed(
      p.url,
      match p.explicit case Some(m) => m case None => (if p.hasData then POST else GET),
      p.headers,
      if p.hasData then Some(InferBody(validJson, T.Join(p.dataParts, "&"))) else None,
      if p.digest && p.auth.Basic? then Digest(p.auth.username, p.auth.password) else p.auth,
      p.ignored))
  }

  function ParseWords(validJson: string -> bool, words: seq<string>): Result<Parsed, ParseError> {
    if words == [] then Err(EmptyCommand)
    else Conclude(validJson, ReadWords(if IsCommandWord(words[0]) then words[1..] else words, START))
  }

  function Parse(validJson: string -> bool, input: string): Result<Parsed, ParseError> {
    match ShellWords.Split(input)
    case Err(_) => Err(BadQuoting)
    case Ok(words) => ParseWords(validJson, words)
  }

  lemma WordsFrom(words: seq<string>, i: nat)
    requires i < |words|
    ensures words[i..][0] == words[i] && words[i..][1..] == words[i + 1..] && words[|words|..] == []
    ensures i + 1 < |words| ==> words[i..][1] == words[i + 1] && words[i..][2..] == words[i + 2..]
  {
  }

  // ---- the loop ----

  /** The tests of the loop, in their order. */
  method ClassifyWord(w: string) returns (token: Token)
    ensures token == Classify(w)
  {
    if w == "--" {
      return EndOfOptions;
    }
    var pair := T.SplitOnce(w, '=');
    if pair.Some? && |pair.value.0| >= 2 && pair.value.0[..2] == "--" {
      return Joined(pair.value.0, pair.value.1);
    }
    token := ClassifyUnjoined(w);
  }

  method ClassifyUnjoined(w: string) returns (token: Token)
    ensures token == ClassifyPlain(w)
  {
    if w == "-X" || w == "--request" { return RequestOption; }
    if w == "-H" || w == "--header" { return HeaderOption; }
    if w == "-u" || w == "--user" { return UserOption; }
    if w == "--digest" { return DigestOption; }
    if w == "-d" || w == "--data" || w == "--data-raw" || w == "--data-binary" || w == "--data-urlencode" { return DataOption; }
    if w == "--url" { return UrlOption; }
    DashesAhead(w);
    if |w| > 2 && w[0] == '-' && w[1] == '-' { return UnknownLong; }
    if |w| > 1 && w[0] == '-' { return UnknownShort; }
    return Positional;
  }

  lemma DashesAhead(w: string)
    ensures T.StartsWith(w, "--") && |w| > 2 <==> |w| > 2 && w[0] == '-' && w[1] == '-'
    ensures T.StartsWith(w, "-") && |w| > 1 <==> |w| > 1 && w[0] == '-'
  {
    if |w| > 2 && w[0] == '-' && w[1] == '-' { assert w[..2] == "--"; }
    if |w| > 1 && w[0] == '-' { assert w[..1] == "-"; }
  }

  /** `push_ignored` */
  method Ignore(p: Progress, token: string) returns (q: Progress)
    ensures q == PushIgnored(p, token)
  {
    for k := 0 to |p.ignored|
      invariant token !in p.ignored[..k]
    {
      if p.ignored[k] == token {
        return p;
      }
    }
    return Progress(p.url, p.headers, p.auth, p.ignored + [token], p.explicit, p.hasData, p.dataParts, p.digest);
  }

  /** `push_header` */
  method AddHeader(p: Progress, v: string) returns (q: Progress)
    ensures q == PushHeader(p, v)
  {
    var pair := T.SplitOnce(v, ':');
    if pair.None? {
      return p;
    }
    var key := T.Trim(pair.value.0);
    if key == "" {
      return p;
    }
    return p.(headers := p.headers + [Header(key, T.Trim(pair.value.1))]);
  }

  /** `parse_user` */
  method ReadUser(v: string) returns (auth: Auth)
    ensures auth == ParseUser(v)
  {
    var pair := T.SplitOnce(v, ':');
    if pair.Some? {
      return Basic(T.Trim(pair.value.0), pair.value.1);
    }
    return Basic(T.Trim(v), "");
  }

  /** The options that set something from a value, in either spelling. */
  datatype Setting = RequestSetting | HeaderSetting | UserSetting | DataSetting | UrlSetting

  method Set(setting: Setting, value: string, p: Progress) returns (q: Progress)
    ensures q == match setting
      case RequestSetting => p.(explicit := ParseMethod(value))
      case HeaderSetting => PushHeader(p, value)
      case UserSetting => p.(auth := ParseUser(value))
      case DataSetting => PushData(p, value)
      case UrlSetting => SetUrl(p, value)
  {
    q := p;
    match setting {
      case RequestSetting => q := p.(explicit := ParseMethod(value));
      case HeaderSetting => q := AddHeader(p, value);
      case UserSetting =>
        var auth := ReadUser(value);
        q := p.(auth := auth);
      case DataSetting => q := p.(dataParts := p.dataParts + [value], hasData := true);
      case UrlSetting => if p.url == "" { q := p.(url := value); }
    }
  }

  /** `--name=value` */
  method FollowJoined(name: string, value: string, p: Progress) returns (q: Progress)
    ensures q == ApplyJoined(p, name, value)
  {
    if name == "--url" {
      q := Set(UrlSetting, value, p);
    } else if name == "--request" {
      q := Set(RequestSetting, value, p);
    } else if name == "--header" {
      q := Set(HeaderSetting, value, p);
    } else if name == "--user" {
      q := Set(UserSetting, value, p);
    } else if name == "--data" || name == "--data-raw" || name == "--data-binary" || name == "--data-urlencode" {
      q := Set(DataSetting, value, p);
    } else {
      q := Ignore(p, name);
    }
  }

  /** Whether an unknown long option takes the next word. */
  method LongTakesValue(w: string) returns (takes: bool)
    ensures takes == (w in VALUE_LONG_OPTIONS)
  {
    takes := w == "--user-agent" || w == "--cookie" || w == "--referer" || w == "--output" || w == "--write-out"
      || w == "--proxy" || w == "--cookie-jar" || w == "--cert" || w == "--form" || w == "--config"
      || w == "--max-time" || w == "--max-redirs" || w == "--connect-timeout" || w == "--limit-rate" || w == "--range"
      || w == "--upload-file" || w == "--resolve" || w == "--retry" || w == "--retry-delay" || w == "--interface"
      || w == "--cacert" || w == "--capath" || w == "--key" || w == "--proto" || w == "--proto-redir";
  }

  /** The short options that take the next word. */
  predicate TakesWord(c: char) {
    || c == 'A' || c == 'b' || c == 'c' || c == 'd' || c == 'e' || c == 'E' || c == 'F' || c == 'H' || c == 'K' || c == 'm'
    || c == 'o' || c == 'P' || c == 'r' || c == 'T' || c == 'U' || c == 'u' || c == 'w' || c == 'x' || c == 'X' || c == 't'
    || c == 'z'
  }

  lemma ValueLetters(c: char)
    ensures c in VALUE_SHORT_OPTIONS <==> TakesWord(c)
  {
  }

  /** Whether any letter of an unknown short option takes the next word. */
  method ShortTakesValue(w: string) returns (takes: bool)
    ensures takes == HasValueLetter(w)
  {
    takes := false;
    for k := 0 to |w|
      invariant takes == exists i | 0 < i < k :: w[i] in VALUE_SHORT_OPTIONS
    {
      ValueLetters(w[k]);
      if k > 0 && TakesWord(w[k]) {
        takes := true;
      }
    }
  }

  /** One turn of the loop, by index: an option steps over its value. */
  method TakeTurn(words: seq<string>, i: nat, p: Progress) returns (j: nat, q: Progress)
    requires i < |words|
    ensures i < j <= |words|
    ensures (words[j..], q) == Turn(words[i..], p)
  {
    var token := ClassifyWord(words[i]);
    j, q := FollowToken(token, words, i, p);
  }

  method FollowToken(token: Token, words: seq<string>, i: nat, p: Progress) returns (j: nat, q: Progress)
    requires i < |words|
    ensures i < j <= |words|
    ensures (words[j..], q) == TurnAs(token, words[i..], p)
  {
    var w := words[i];
    var hasNext := i + 1 < |words|;
    WordsFrom(words, i);
    j, q := i + 1, p;
    match token {
      case EndOfOptions =>
        if p.url == "" && hasNext { q := p.(url := words[i + 1]); }
        j := |words|;
      case Joined(name, value) =>
        q := FollowJoined(name, value, p);
      case DigestOption =>
        q := p.(digest := true);
      case UnknownLong =>
        q := Ignore(p, w);
        var takes := LongTakesValue(w);
        if hasNext && takes { j := i + 2; }
      case UnknownShort =>
        q := Ignore(p, w);
        var takes := ShortTakesValue(w);
        if hasNext && takes { j := i + 2; }
      case Positional =>
        if p.url == "" { q := p.(url := w); }
      case _ =>
        if hasNext {
          q := Set(SettingOf(token), words[i + 1], p);
          j := i + 2;
        }
    }
  }

  function SettingOf(token: Token): Setting {
    match token
    case RequestOption => RequestSetting
    case HeaderOption => HeaderSetting
    case UserOption => UserSetting
    case DataOption => DataSetting
    case _ => UrlSetting
  }

  /** `infer_body` */
  method GuessBody(validJson: string -> bool, data: string) returns (body: BodySpec)
    ensures body == InferBody(validJson, data)
  {
    var trimmed := T.Trim(data);
    if trimmed == "" {
      return Text(data);
    }
    var first, last := trimmed[0], trimmed[|trimmed| - 1];
    if (first == '{' || first == '[') && (last == '}' || last == ']') && T.Utf8Length(trimmed) <= 64 * 1024 && validJson(trimmed) {
      return Json(data);
    }
    return Text(data);
  }

  /** What is left to do after the loop. */
  method Finish(validJson: string -> bool, p: Progress) returns (result: Result<Parsed, ParseError>)
    ensures result == Conclude(validJson, p)
  {
    if p.url == "" {
      return Err(MissingUrl);
    }
    var method_ := GET;
    if p.explicit.Some? {
      method_ := p.explicit.value;
    } else if p.hasData {
      method_ := POST;
    }
    var auth := p.auth;
    if p.digest && auth.Basic? {
      auth := Digest(auth.username, auth.password);
    }
    var body: Option<BodySpec> := None;
    if p.hasData {
      var guessed := GuessBody(validJson, T.Join(p.dataParts, "&"));
      body := Some(guessed);
    }
    return Ok(Parsed(p.url, method_, p.headers, body, auth, p.ignored));
  }

  method ParseCurl(validJson: string -> bool, input: string) returns (result: Result<Parsed, ParseError>)
    ensures result == Parse(validJson, input)
  {
    var split := ShellWords.Split(input);
    if split.Err? {
      return Err(BadQuoting);
    }
    var words := split.value;
    if words == [] {
      return Err(EmptyCommand);
    }
    var p := Progress("", [], NoAuth, [], None, false, [], false);
    var i := 0;
    var w := words[0];
    CommandWord(w);
    if w == "curl" || w == "curl.exe" || (|w| >= 5 && w[|w| - 5..] == "/curl") {
      i := 1;
    }
    assert words[0..] == words;
    while i < |words|
      invariant 0 <= i <= |words|
      invariant Conclude(validJson, ReadWords(words[i..], p)) == ParseWords(validJson, words)
    {
      ghost var here := words[i..];
      ghost var before := p;
      i, p := TakeTurn(words, i, p);
      assert ReadWords(here, before) == ReadWords(words[i..], p);
    }
    assert words[i..] == [];
    result := Finish(validJson, p);
  }

  lemma CommandWord(w: string)
    ensures IsCommandWord(w) <==> w == "curl" || w == "curl.exe" || (|w| >= 5 && w[|w| - 5..] == "/curl")
  {
  }

  // ---- options this program does not know ----

  lemma LettersThatTakeAWord(w: string)
    ensures HasValueLetter(w) <==> exists i | 0 < i < |w| :: TakesWord(w[i])
  {
    forall i | 0 < i < |w| ensures w[i] in VALUE_SHORT_OPTIONS <==> TakesWord(w[i]) { ValueLetters(w[i]); }
  }

  lemma UnknownTurn(w: string, token: Token, rest: seq<string>, p: Progress)
    requires Classify(w) == token && (token.UnknownLong? || token.UnknownShort?)
    ensures ReadWords([w] + rest, p)
         == ReadWords(if TakesValue(w, token) && rest != [] then rest[1..] else rest, PushIgnored(p, w))
  {
    var words := [w] + rest;
    assert words[1..] == rest && (rest != [] ==> words[2..] == rest[1..]);
    assert Turn(words, p) == TurnAs(token, words, p);
  }

  /** A short option with a letter that takes a value, or a long one known to take one, is noted with its
      value skipped: the value is never taken for the URL. Any other is noted alone. */
  lemma UnknownOptionsAreSkipped(w: string, rest: seq<string>, p: Progress)
    requires Classify(w) == UnknownLong || Classify(w) == UnknownShort
    ensures var noted := if w in p.ignored then p else p.(ignored := p.ignored + [w]);
      var takes := if Classify(w) == UnknownLong then w in VALUE_LONG_OPTIONS else exists i | 0 < i < |w| :: TakesWord(w[i]);
      ReadWords([w] + rest, p) == ReadWords(if takes && rest != [] then rest[1..] else rest, noted)
  {
    UnknownTurn(w, Classify(w), rest, p);
    LettersThatTakeAWord(w);
  }
}
