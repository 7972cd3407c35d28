/** Laws of the `{{name}}` resolver: size, depth, stability and counters. */
module VariableLaws {
  import opened Wrappers
  import opened Variables
  import Text

  // ---------- Output size ----------

  function Pow(b: nat, e: nat): nat {
    if e == 0 then 1 else b * Pow(b, e - 1)
  }

  function Max(a: nat, b: nat): nat {
    if a > b then a else b
  }

  /** No value is longer than `m`, and 64-bit counters fit in `m` if there are any. */
  predicate FoundFits(found: Found, st: State, m: nat) {
    match found
    case Missing => true
    case Value(text, st') => |text| <= m && st'.counters == st.counters
    case Counter(_) => m >= 20
  }

  ghost predicate Bounded(find: Finder, m: nat) {
    forall inner, st :: FoundFits(find(inner, st), st, m)
  }

  /** Counters are 64-bit. */
  predicate CountersFit(st: State) {
    forall key | key in st.counters :: st.counters[key] < U64
  }

  lemma {:induction false} DecimalLength(n: nat, k: nat)
    requires k >= 1 && n < Pow(10, k)
    ensures |Decimal(n)| <= k
    decreases k
  {
    if n >= 10 {
      DecimalLength(n / 10, k - 1);
    }
  }

  lemma CounterLength(st: State, key: string)
    requires CountersFit(st)
    ensures |Decimal(NextOutput(st, key))| <= 20 && CountersFit(Bump(st, key))
  {
    assert Pow(10, 5) == 100_000;
    assert Pow(10, 10) == 10_000_000_000;
    assert Pow(10, 15) == 1_000_000_000_000_000;
    assert Pow(10, 20) == 100_000_000_000_000_000_000;
    DecimalLength(NextOutput(st, key), 20);
  }

  lemma {:induction false} PowPositive(b: nat, e: nat)
    requires b >= 1
    ensures Pow(b, e) >= 1
  {
    if e > 0 {
      PowPositive(b, e - 1);
      assert b * Pow(b, e - 1) >= Pow(b, e - 1) by { assert (b - 1) * Pow(b, e - 1) >= 0; }
    }
  }

  lemma Scale(a: nat, b: nat, p: nat)
    requires a <= b
    ensures a * p <= b * p
  {
    assert b * p == a * p + (b - a) * p;
  }

  lemma TokenBound(find: Finder, raw: string, depth: nat, st: State, m: nat)
    requires Bounded(find, m) && CountersFit(st) && depth > 0 && |raw| >= 4
    ensures |Render(ExpandToken(find, raw, depth, st).0)| <= |raw| * Pow(Max(1, m), depth)
    ensures CountersFit(ExpandToken(find, raw, depth, st).1)
    decreases depth, 0
  {
    var base := Max(1, m);
    PowPositive(base, depth);
    PowPositive(base, depth - 1);
    Scale(1, Pow(base, depth), |raw|);
    Scale(1, |raw|, Pow(base, depth));
    var found := find(Inner(raw), st);
    assert FoundFits(found, st, m);
    match found
    case Missing =>
      UnresolvedToken(find, "", raw, depth, st);
    case Value(text, st') =>
      OutputIsBounded(find, text, depth - 1, st', m);
      Scale(|text|, base, Pow(base, depth - 1));
    case Counter(key) =>
      CounterLength(st, key);
      RenderOne(Count(key, NextOutput(st, key)));
      Scale(1, Pow(base, depth - 1), base);
  }

  /** The output is at most |s| * max(1, m)^depth long, whatever the references do. */
  lemma {:induction false} OutputIsBounded(find: Finder, s: string, depth: nat, st: State, m: nat)
    requires Bounded(find, m) && CountersFit(st)
    ensures |Resolved(find, s, depth, st)| <= |s| * Pow(Max(1, m), depth)
    ensures CountersFit(Expand(find, s, depth, st).1)
    decreases depth, |s|
  {
    var p := Pow(Max(1, m), depth);
    PowPositive(Max(1, m), depth);
    if depth == 0 || FirstToken(s).None? {
      LiteralOnly(find, "", s, depth, st);
      Scale(1, p, |s|);
    } else {
      var literal, raw, rest := CutAt(s);
      ResolvedUnfolds(find, s, literal, raw, rest, depth, st);
      TokenBound(find, raw, depth, st, m);
      OutputIsBounded(find, rest, depth, ExpandToken(find, raw, depth, st).1, m);
      PiecesAddUp(find, s, literal, raw, rest, depth, st, p);
    }
  }

  /** So it is for every variable table, cyclic ones too: `m` is the longest value, and with
      built-ins allowed also the longest text they generate. */
  lemma ResolutionIsBounded(b: Builtins, s: string, vars: VariableMap, depth: nat, st: State, m: nat)
    requires CountersFit(st) && forall name | name in vars :: |vars[name]| <= m
    requires b.allowed ==> m >= 20 && forall name, n :: |b.generate(name, n)| <= m
    ensures |Resolved(Find(b, vars), s, depth, st)| <= |s| * Pow(Max(1, m), depth)
  {
    OutputIsBounded(Find(b, vars), s, depth, st, m);
  }

  lemma PiecesAddUp(find: Finder, s: string, literal: string, raw: string, rest: string, depth: nat, st: State, p: nat)
    requires depth > 0 && Cut(s, literal, raw, rest) && p >= 1
    requires |Render(ExpandToken(find, raw, depth, st).0)| <= |raw| * p
    requires |Resolved(find, rest, depth, ExpandToken(find, raw, depth, st).1)| <= |rest| * p
    ensures |Resolved(find, s, depth, st)| <= |s| * p
  {
    var (middle, st1) := ExpandToken(find, raw, depth, st);
    ResolvedUnfolds(find, s, literal, raw, rest, depth, st);
    LengthsAddUp(literal, raw, rest, Render(middle), Resolved(find, rest, depth, st1), p);
  }

  lemma LengthsAddUp(literal: string, raw: string, rest: string, middle: string, end: string, p: nat)
    requires p >= 1 && |middle| <= |raw| * p && |end| <= |rest| * p
    ensures |literal + middle + end| <= |literal + raw + rest| * p
  {
    Distribute(|literal|, |raw|, |rest|, |middle|, |end|, p);
  }

  lemma Distribute(a: nat, b: nat, c: nat, b': nat, c': nat, p: nat)
    requires p >= 1 && b' <= b * p && c' <= c * p
    ensures a + b' + c' <= (a + b + c) * p
  {
    Scale(1, p, a);
    assert (a + b + c) * p == a * p + b * p + c * p;
  }

  // ---------- References and depth, built-ins off ----------

  /** The non-empty token names of a text, in order. */
  function Names(s: string): seq<string> {
    match FirstToken(s)
    case None => []
    case Some(t) =>
      var name := Text.Trim(Inner(TokenText(s, t)));
      (if name == "" then [] else [name]) + Names(s[t.close + 2..])
  }

  /** References from `s` are nested at most `r` deep. */
  predicate RankAtMost(s: string, vars: VariableMap, r: nat)
    decreases r
  {
    forall n | n in Names(s) && n in vars :: r > 0 && RankAtMost(vars[n], vars, r - 1)
  }

  /** Each name of the chain is referenced by the value of the one before, the first by `s`. */
  predicate Chain(s: string, vars: VariableMap, chain: seq<string>)
    decreases |chain|
  {
    chain == [] || (chain[0] in Names(s) && chain[0] in vars && Chain(vars[chain[0]], vars, chain[1..]))
  }

  lemma {:induction false} RankBoundsChains(s: string, vars: VariableMap, r: nat, chain: seq<string>)
    requires RankAtMost(s, vars, r) && Chain(s, vars, chain)
    ensures |chain| <= r
    decreases r
  {
    if chain != [] {
      RankBoundsChains(vars[chain[0]], vars, r - 1, chain[1..]);
    }
  }

  lemma {:induction false} LongChain(s: string, vars: VariableMap, r: nat) returns (chain: seq<string>)
    requires !RankAtMost(s, vars, r)
    ensures Chain(s, vars, chain) && |chain| > r
    decreases r
  {
    var n :| n in Names(s) && n in vars && !(r > 0 && RankAtMost(vars[n], vars, r - 1));
    chain := [];
    if r > 0 {
      chain := LongChain(vars[n], vars, r - 1);
    }
    assert ([n] + chain)[1..] == chain;
    chain := [n] + chain;
  }

  /** The rank is the length of the longest reference chain. */
  lemma RankIsLongestChain(s: string, vars: VariableMap, r: nat)
    ensures RankAtMost(s, vars, r) <==> forall chain | Chain(s, vars, chain) :: |chain| <= r
  {
    if RankAtMost(s, vars, r) {
      forall chain | Chain(s, vars, chain)
        ensures |chain| <= r
      {
        RankBoundsChains(s, vars, r, chain);
      }
    } else {
      var chain := LongChain(s, vars, r);
    }
  }

  /** No reference chain from `s` comes back to a name. */
  ghost predicate Acyclic(s: string, vars: VariableMap) {
    forall chain | Chain(s, vars, chain) :: forall i, j | 0 <= i < j < |chain| :: chain[i] != chain[j]
  }

  lemma {:induction false} ChainNamesAreKeys(s: string, vars: VariableMap, chain: seq<string>)
    requires Chain(s, vars, chain)
    ensures forall i | 0 <= i < |chain| :: chain[i] in vars
    decreases |chain|
  {
    if chain != [] {
      ChainNamesAreKeys(vars[chain[0]], vars, chain[1..]);
    }
  }

  lemma {:induction false} DistinctFitIn(names: seq<string>, pool: set<string>)
    requires forall i | 0 <= i < |names| :: names[i] in pool
    requires forall i, j | 0 <= i < j < |names| :: names[i] != names[j]
    ensures |names| <= |pool|
  {
    if names != [] {
      DistinctFitIn(names[1..], pool - {names[0]});
    }
  }

  lemma AcyclicHasRank(s: string, vars: VariableMap)
    requires Acyclic(s, vars)
    ensures RankAtMost(s, vars, |vars|)
  {
    forall chain | Chain(s, vars, chain)
      ensures |chain| <= |vars|
    {
      ChainNamesAreKeys(s, vars, chain);
      DistinctFitIn(chain, vars.Keys);
    }
    RankIsLongestChain(s, vars, |vars|);
  }

  /** Only user variables are found. */
  function UserFound(vars: VariableMap, inner: string, st: State): Found {
    var name := Text.Trim(inner);
    if name != "" && name in vars then Value(vars[name], st) else Missing
  }

  ghost predicate OnlyUser(find: Finder, vars: VariableMap) {
    forall inner, st :: Agrees(find, vars, inner, st)
  }

  ghost predicate Agrees(find: Finder, vars: VariableMap, inner: string, st: State) {
    find(inner, st) == UserFound(vars, inner, st)
  }

  lemma RankOfRest(s: string, literal: string, raw: string, rest: string, vars: VariableMap, r: nat, st: State)
    requires Cut(s, literal, raw, rest) && RankAtMost(s, vars, r)
    ensures RankAtMost(rest, vars, r)
    ensures UserFound(vars, Inner(raw), st).Value? ==> r > 0 && RankAtMost(UserFound(vars, Inner(raw), st).text, vars, r - 1)
  {
    var t := FirstToken(s).value;
    assert TokenText(s, t) == raw && s[t.close + 2..] == rest;
  }

  lemma {:induction false} RankZeroStays(find: Finder, s: string, vars: VariableMap, depth: nat, st: State)
    requires OnlyUser(find, vars) && RankAtMost(s, vars, 0)
    ensures Resolved(find, s, depth, st) == s && Expand(find, s, depth, st).1 == st
    decreases |s|
  {
    if depth == 0 || FirstToken(s).None? {
      LiteralOnly(find, "", s, depth, st);
    } else {
      var literal, raw, rest := CutAt(s);
      RankOfRest(s, literal, raw, rest, vars, 0, st);
      RankZeroStays(find, rest, vars, depth, st);
      assert Agrees(find, vars, Inner(raw), st);
      UnresolvedToken(find, "", raw, depth, st);
      ResolvedUnfolds(find, s, literal, raw, rest, depth, st);
    }
  }

  lemma TokenSettles(find: Finder, raw: string, vars: VariableMap, r: nat, depth: nat, st: State, found: Found)
    requires OnlyUser(find, vars) && |raw| >= 4 && 0 < r <= depth
    requires found == find(Inner(raw), st) && !found.Counter?
    requires found.Value? ==> RankAtMost(found.text, vars, r - 1) && found == Value(found.text, st)
    ensures Render(ExpandToken(find, raw, depth, st).0) == Render(ExpandToken(find, raw, r, st).0)
    ensures ExpandToken(find, raw, depth, st).1 == st == ExpandToken(find, raw, r, st).1
    decreases depth, 0
  {
    if found.Missing? {
      UnresolvedToken(find, "", raw, depth, st);
      UnresolvedToken(find, "", raw, r, st);
    } else {
      DepthSettles(find, found.text, vars, r - 1, depth - 1, st);
    }
  }

  /** If references are nested at most `r` deep, every depth limit from `r` on gives the same
      text. */
  lemma {:induction false} DepthSettles(find: Finder, s: string, vars: VariableMap, r: nat, depth: nat, st: State)
    requires OnlyUser(find, vars) && RankAtMost(s, vars, r) && r <= depth
    ensures Resolved(find, s, depth, st) == Resolved(find, s, r, st)
    ensures Expand(find, s, depth, st).1 == st == Expand(find, s, r, st).1
    decreases depth, |s|
  {
    if r == 0 {
      RankZeroStays(find, s, vars, depth, st);
      RankZeroStays(find, s, vars, r, st);
    } else if FirstToken(s).None? {
      LiteralOnly(find, "", s, depth, st);
      LiteralOnly(find, "", s, r, st);
    } else {
      var literal, raw, rest := CutAt(s);
      RankOfRest(s, literal, raw, rest, vars, r, st);
      assert Agrees(find, vars, Inner(raw), st);
      TokenSettles(find, raw, vars, r, depth, st, UserFound(vars, Inner(raw), st));
      DepthSettles(find, rest, vars, r, depth, st);
      ResolvedUnfolds(find, s, literal, raw, rest, depth, st);
      ResolvedUnfolds(find, s, literal, raw, rest, r, st);
    }
  }

  lemma BuiltinsOff(b: Builtins, vars: VariableMap)
    requires !b.allowed
    ensures OnlyUser(Find(b, vars), vars)
  {
    forall inner, st
      ensures Agrees(Find(b, vars), vars, inner, st)
    {
      assert Find(b, vars)(inner, st) == FoundBy(b, vars, inner, st);
    }
  }

  /** Built-ins off: a text without a resolvable token is returned as it is, at any depth. */
  lemma UnresolvableStays(b: Builtins, s: string, vars: VariableMap, depth: nat, st: State)
    requires !b.allowed && forall n | n in Names(s) :: n !in vars
    ensures Resolved(Find(b, vars), s, depth, st) == s && Expand(Find(b, vars), s, depth, st).1 == st
  {
    BuiltinsOff(b, vars);
    RankZeroStays(Find(b, vars), s, vars, depth, st);
  }

  /** Chains within a limit, or an acyclic table within it: no deeper limit resolves more. */
  lemma LimitSuffices(find: Finder, s: string, vars: VariableMap, limit: nat, depth: nat, st: State)
    requires OnlyUser(find, vars) && limit <= depth
    requires (forall chain | Chain(s, vars, chain) :: |chain| <= limit) || (Acyclic(s, vars) && |vars| <= limit)
    ensures Resolved(find, s, depth, st) == Resolved(find, s, limit, st)
  {
    if Acyclic(s, vars) && |vars| <= limit {
      AcyclicHasRank(s, vars);
      DepthSettles(find, s, vars, |vars|, depth, st);
      DepthSettles(find, s, vars, |vars|, limit, st);
    } else {
      RankIsLongestChain(s, vars, limit);
      DepthSettles(find, s, vars, limit, depth, st);
    }
  }

  /** Built-ins off: chains of up to ten references, so all acyclic tables of up to ten
      variables, are fully resolved by the default limit: no deeper limit resolves more. */
  lemma DefaultDepthSuffices(b: Builtins, s: string, vars: VariableMap, depth: nat, st: State)
    requires !b.allowed && depth >= 10
    requires (forall chain | Chain(s, vars, chain) :: |chain| <= 10) || (Acyclic(s, vars) && |vars| <= 10)
    ensures Resolved(Find(b, vars), s, depth, st) == Resolved(Find(b, vars), s, MAX_VARIABLE_DEPTH, st)
  {
    BuiltinsOff(b, vars);
    LimitSuffices(Find(b, vars), s, vars, MAX_VARIABLE_DEPTH, depth, st);
  }

  // ---------- Single tokens ----------

  /** A name as it stands between the braces. */
  predicate PlainName(name: string) {
    && name != "" && !Text.IsWhitespace(name[0]) && !Text.IsWhitespace(name[|name| - 1])
    && forall i | 0 <= i < |name| :: name[i] != '{' && name[i] != '}'
  }

  function Braced(name: string): string {
    "{{" + name + "}}"
  }

  lemma BracedIsAToken(name: string)
    requires PlainName(name)
    ensures FirstToken(Braced(name)) == Some(Token(0, |name| + 2)) && Inner(Braced(name)) == name && Text.Trim(name) == name
  {
    var s, n := Braced(name), |name| + 2;
    assert forall i | 2 <= i < n :: s[i] == name[i - 2];
    FindPairIsFirst(s, '{', 0);
    FindPairIsFirst(s, '}', 2);
    assert PairAt(s, '{', 0) && PairAt(s, '}', n);
    assert FindPair(s, '}', 2) == Some(n) by { ClosingOfBraced(s, n, FindPair(s, '}', 2)); }
  }

  lemma ClosingOfBraced(s: string, n: nat, found: Option<nat>)
    requires PairAt(s, '}', n) && |s| == n + 2 && 2 <= n && forall i | 2 <= i < n :: s[i] != '}'
    requires found.Some? ==> 2 <= found.value && PairAt(s, '}', found.value)
    requires forall j | 2 <= j && (found.Some? ==> j < found.value) :: !PairAt(s, '}', j)
    ensures found == Some(n)
  {
  }

  /** One token alone, by what its name stands for. */
  lemma OneToken(find: Finder, name: string, depth: nat, st: State)
    requires PlainName(name) && depth > 0
    ensures Resolved(find, Braced(name), depth, st) == Render(ExpandToken(find, Braced(name), depth, st).0)
    ensures Expand(find, Braced(name), depth, st).1 == ExpandToken(find, Braced(name), depth, st).1
  {
    var s := Braced(name);
    BracedIsAToken(name);
    assert s == "" + s + "";
    ResolvedUnfolds(find, s, "", s, "", depth, st);
    LiteralOnly(find, "", "", depth, ExpandToken(find, s, depth, st).1);
  }

  /** `{{$seq}}`, with anything but a colon behind it, and `{{$seq:key}}`, when no variable has that name: the decimal text of the counter's
      next number, starting at 1; the counter is left at the number after it, and nothing else changes. */
  lemma SeqTokenCounts(b: Builtins, vars: VariableMap, name: string, key: string, depth: nat, st: State)
    requires b.allowed && depth > 0 && PlainName(name) && name !in vars
    requires ("$seq" <= name && !("$seq:" <= name) && key == "") || name == "$seq:" + key
    ensures var out := Resolved(Find(b, vars), Braced(name), depth, st);
      var n := if key !in st.counters || st.counters[key] == 0 then 1 else st.counters[key];
      && Digits(out) && (|out| > 1 ==> out[0] != '0') && Read(out) == n
      && Expand(Find(b, vars), Braced(name), depth, st).1
         == State(st.counters[key := (n + 1) % 0x1_0000_0000_0000_0000], st.draws)
  {
    BracedIsAToken(name);
    OneToken(Find(b, vars), name, depth, st);
    SeqNameIsCounter(b, vars, name, key, st);
    RenderOne(Count(key, NextOutput(st, key)));
    DecimalReads(NextOutput(st, key));
  }

  lemma SeqNameIsCounter(b: Builtins, vars: VariableMap, name: string, key: string, st: State)
    requires b.allowed && name !in vars && Text.Trim(name) == name
    requires ("$seq" <= name && !("$seq:" <= name) && key == "") || name == "$seq:" + key
    ensures Find(b, vars)(name, st) == Counter(key)
  {
    ColonBehindSeq(name);
    if "$seq:" <= name {
      assert name == "$seq:" + key;
      assert name[4..] == ":" + key && name[4..][1..] == key;
    }
  }

  lemma ColonBehindSeq(name: string)
    ensures "$seq" <= name ==> HasPrefix(name, "$seq") && name[1] == 's' && name[2] == 'e'
    ensures "$seq" <= name ==> ("$seq:" <= name <==> HasPrefix(name[4..], ":"))
    ensures "$seq:" <= name ==> "$seq" <= name
  {
    if "$seq:" <= name {
      assert name[..4] == "$seq";
    }
    if "$seq" <= name {
      assert name[..4] == "$seq";
      if HasPrefix(name[4..], ":") {
        assert name[..5] == "$seq" + name[4..][..1];
      }
    }
  }

  /** A name in the variable table is replaced by its value, resolved one level deeper, whether or not
      built-ins have the name too. */
  lemma VariableTokenResolves(b: Builtins, vars: VariableMap, name: string, depth: nat, st: State)
    requires depth > 0 && PlainName(name) && name in vars
    ensures Resolved(Find(b, vars), Braced(name), depth, st) == Resolved(Find(b, vars), vars[name], depth - 1, st)
  {
    BracedIsAToken(name);
    OneToken(Find(b, vars), name, depth, st);
  }

  /** A generated built-in gives the next draw, when built-ins are allowed and no variable has its name. */
  lemma GeneratedTokenDraws(b: Builtins, vars: VariableMap, name: string, depth: nat, st: State)
    requires b.allowed && depth > 0 && PlainName(name) && name !in vars
    requires name == "$uuid" || name == "$timestamp" || name == "$isoTimestamp" || name == "$randomInt"
    ensures Resolved(Find(b, vars), Braced(name), depth, st)
         == Resolved(Find(b, vars), b.generate(name, st.draws), depth - 1, State(st.counters, st.draws + 1))
  {
    BracedIsAToken(name);
    OneToken(Find(b, vars), name, depth, st);
  }

  /** Without the name in the table and without built-ins the token stays as it is. */
  lemma UnknownTokenStays(b: Builtins, vars: VariableMap, name: string, depth: nat, st: State)
    requires PlainName(name) && name !in vars
    requires !b.allowed || (name != "$uuid" && name != "$timestamp" && name != "$isoTimestamp" && name != "$randomInt" && !("$seq" <= name))
    ensures Resolved(Find(b, vars), Braced(name), depth, st) == Braced(name)
  {
    if depth > 0 {
      BracedIsAToken(name);
      OneToken(Find(b, vars), name, depth, st);
      UnresolvedToken(Find(b, vars), "", Braced(name), depth, st);
    } else {
      LiteralOnly(Find(b, vars), "", Braced(name), depth, st);
    }
  }

  // ---------- The default limit is ten levels ----------

  function Xs(n: nat): string {
    if n == 0 then "" else Xs(n - 1) + "x"
  }

  lemma {:induction false} CyclicOutput(find: Finder, name: string, vars: VariableMap, depth: nat, st: State)
    requires OnlyUser(find, vars) && PlainName(name) && Get(vars, name) == Some(Braced(name) + "x")
    ensures Resolved(find, Braced(name), depth, st) == Braced(name) + Xs(depth)
    ensures Expand(find, Braced(name), depth, st).1 == st
  {
    if depth == 0 {
      LiteralOnly(find, "", Braced(name), depth, st);
    } else {
      CyclicOutput(find, name, vars, depth - 1, st);
      BracedIsAToken(name);
      OneToken(find, name, depth, st);
      assert Agrees(find, vars, name, st);
      BehindBraced(find, name, "x", depth - 1, st);
      OneMoreX(Braced(name), Xs(depth - 1));
    }
  }

  lemma OneMoreX(a: string, b: string)
    ensures a + b + "x" == a + (b + "x")
  {
  }

  /** Text without braces behind a token is copied. */
  lemma BehindBraced(find: Finder, name: string, rest: string, depth: nat, st: State)
    requires PlainName(name) && forall i | 0 <= i < |rest| :: rest[i] != '{' && rest[i] != '}'
    ensures Resolved(find, Braced(name) + rest, depth, st) == Resolved(find, Braced(name), depth, st) + rest
    ensures Expand(find, Braced(name) + rest, depth, st).1 == Expand(find, Braced(name), depth, st).1
  {
    if depth == 0 {
      LiteralOnly(find, "", Braced(name) + rest, depth, st);
      LiteralOnly(find, "", Braced(name), depth, st);
    } else {
      BehindToken(find, name, Braced(name) + rest, rest, depth, st);
    }
  }

  lemma BehindToken(find: Finder, name: string, s: string, rest: string, depth: nat, st: State)
    requires depth > 0 && s == Braced(name) + rest
    requires PlainName(name) && forall i | 0 <= i < |rest| :: rest[i] != '{' && rest[i] != '}'
    ensures Resolved(find, s, depth, st) == Resolved(find, Braced(name), depth, st) + rest
    ensures Expand(find, s, depth, st).1 == Expand(find, Braced(name), depth, st).1
  {
    OneToken(find, name, depth, st);
    BracedIsCutOff(name, s, rest);
    NoBracesNoToken(rest);
    LastToken(find, s, Braced(name), rest, depth, st);
  }

  lemma LastToken(find: Finder, s: string, raw: string, rest: string, depth: nat, st: State)
    requires depth > 0 && Cut(s, "", raw, rest) && FirstToken(rest).None?
    ensures Resolved(find, s, depth, st) == Render(ExpandToken(find, raw, depth, st).0) + rest
    ensures Expand(find, s, depth, st).1 == ExpandToken(find, raw, depth, st).1
  {
    var middle := ExpandToken(find, raw, depth, st);
    ResolvedUnfolds(find, s, "", raw, rest, depth, st);
    LiteralOnly(find, "", rest, depth, middle.1);
    assert "" + Render(middle.0) == Render(middle.0);
  }

  lemma BracedIsCutOff(name: string, s: string, rest: string)
    requires PlainName(name) && s == Braced(name) + rest
    ensures Cut(s, "", Braced(name), rest)
  {
    BracedIsAToken(name);
    FirstTokenOfLonger(Braced(name), rest, |name| + 2);
    assert s == "" + Braced(name) + rest;
  }

  lemma NoBracesNoToken(s: string)
    requires forall i | 0 <= i < |s| :: s[i] != '{' && s[i] != '}'
    ensures FirstToken(s).None?
  {
    FindPairIsFirst(s, '{', 0);
  }

  lemma FirstTokenOfLonger(s: string, rest: string, close: nat)
    requires FirstToken(s) == Some(Token(0, close))
    ensures FirstToken(s + rest) == Some(Token(0, close))
  {
    FindPairOfLonger(s, rest, '{', 0);
    FindPairOfLonger(s, rest, '}', 2);
  }

  lemma {:induction false} FindPairOfLonger(s: string, rest: string, c: char, from: nat)
    requires FindPair(s, c, from).Some?
    ensures FindPair(s + rest, c, from) == FindPair(s, c, from)
    decreases |s| - from
  {
    if !PairAt(s, c, from) {
      FindPairOfLonger(s, rest, c, from + 1);
    }
  }

  /** A variable that refers to itself is expanded exactly ten times by default: the limit is what ends it. */
  lemma DefaultLimitIsTen(b: Builtins, name: string, vars: VariableMap, st: State)
    requires !b.allowed && PlainName(name) && Get(vars, name) == Some(Braced(name) + "x")
    ensures Resolved(Find(b, vars), Braced(name), MAX_VARIABLE_DEPTH, st) == Braced(name) + "xxxxxxxxxx"
  {
    BuiltinsOff(b, vars);
    CyclicOutput(Find(b, vars), name, vars, MAX_VARIABLE_DEPTH, st);
    TenXs();
  }

  lemma TenXs()
    ensures Xs(10) == "xxxxxxxxxx"
  {
    assert Xs(5) == "xxxxx";
  }

  // ---------- Counters ----------

  /** The outputs of counter `key` among the pieces, left to right. */
  function Outputs(pieces: seq<Piece>, key: string): seq<nat> {
    if pieces == [] then []
    else (if pieces[0].Count? && pieces[0].key == key then [pieces[0].n] else []) + Outputs(pieces[1..], key)
  }

  predicate Consecutive(ns: seq<nat>, first: nat) {
    forall i | 0 <= i < |ns| :: ns[i] == first + i
  }

  /** From `st` to `st'`, counter `key` gave the outputs in `pieces`: consecutive numbers from
      its next output on, after which it stands at the following one. */
  predicate Threads(st: State, pieces: seq<Piece>, st': State, key: string) {
    var outputs := Outputs(pieces, key);
    NextOutput(st, key) + |outputs| < U64 ==>
      && Consecutive(outputs, NextOutput(st, key))
      && (if outputs == [] then Get(st'.counters, key) == Get(st.counters, key)
          else Get(st'.counters, key) == Some(NextOutput(st, key) + |outputs|))
  }

  lemma {:induction false} OutputsConcat(p: seq<Piece>, q: seq<Piece>, key: string)
    ensures Outputs(p + q, key) == Outputs(p, key) + Outputs(q, key)
  {
    if p == [] {
      assert p + q == q;
    } else {
      assert (p + q)[1..] == p[1..] + q;
      OutputsConcat(p[1..], q, key);
    }
  }

  lemma ThreadsCompose(st: State, p: seq<Piece>, st1: State, q: seq<Piece>, st2: State, key: string)
    requires Threads(st, p, st1, key) && Threads(st1, q, st2, key)
    ensures Threads(st, p + q, st2, key)
  {
    OutputsConcat(p, q, key);
  }

  lemma NoOutputs(text: string, key: string)
    ensures Outputs([Lit(text)], key) == []
  {
    assert [Lit(text)][1..] == [];
  }

  lemma CounterThreads(st: State, k: string, key: string)
    ensures Threads(st, [Count(k, NextOutput(st, k))], Bump(st, k), key)
  {
    assert [Count(k, NextOutput(st, k))][1..] == [];
  }

  /** Only counter tokens change counters. */
  ghost predicate LeavesCounters(find: Finder) {
    forall inner, st :: find(inner, st).Value? ==> find(inner, st).st.counters == st.counters
  }

  lemma TokenThreads(find: Finder, raw: string, depth: nat, st: State, key: string)
    requires LeavesCounters(find) && depth > 0 && |raw| >= 4
    ensures Threads(st, ExpandToken(find, raw, depth, st).0, ExpandToken(find, raw, depth, st).1, key)
    decreases depth, 0
  {
    NoOutputs(raw, key);
    var found := find(Inner(raw), st);
    if found.Counter? {
      CounterThreads(st, found.key, key);
    } else if found.Value? {
      TextThreads(find, found.text, depth - 1, found.st, key);
    }
  }

  lemma {:induction false} TextThreads(find: Finder, s: string, depth: nat, st: State, key: string)
    requires LeavesCounters(find)
    ensures Threads(st, Expand(find, s, depth, st).0, Expand(find, s, depth, st).1, key)
    decreases depth, |s|
  {
    NoOutputs(s, key);
    if depth > 0 && FirstToken(s).Some? {
      var t := FirstToken(s).value;
      var (middle, st1) := ExpandToken(find, TokenText(s, t), depth, st);
      var (rest, st2) := Expand(find, s[t.close + 2..], depth, st1);
      NoOutputs(s[..t.open], key);
      TokenThreads(find, TokenText(s, t), depth, st, key);
      TextThreads(find, s[t.close + 2..], depth, st1, key);
      ThreadsCompose(st, [Lit(s[..t.open])], st, middle, st1, key);
      ThreadsCompose(st, [Lit(s[..t.open])] + middle, st1, rest, st2, key);
    }
  }

  /** Any resolution, nested values included, outputs for each counter n, n+1, ..., n+k-1 from
      left to right, in decimal, leaves it at n+k, and touches no counter it does not output. */
  lemma CountersAreThreaded(b: Builtins, s: string, vars: VariableMap, depth: nat, st: State, key: string)
    ensures var (pieces, st') := Expand(Find(b, vars), s, depth, st);
            var outputs := Outputs(pieces, key);
            var first := NextOutput(st, key);
            first + |outputs| < U64 ==>
              && (forall i | 0 <= i < |outputs| :: outputs[i] == first + i)
              && (if outputs == [] then Get(st'.counters, key) == Get(st.counters, key)
                  else Get(st'.counters, key) == Some(first + |outputs|))
    ensures forall p | p in Expand(Find(b, vars), s, depth, st).0 && p.Count? :: Digits(RenderPiece(p)) && Read(RenderPiece(p)) == p.n
  {
    TextThreads(Find(b, vars), s, depth, st, key);
    forall p: Piece | p.Count? ensures Digits(RenderPiece(p)) && Read(RenderPiece(p)) == p.n {
      DecimalReads(p.n);
    }
  }
}
