/** The `{{name}}` resolver: a clean recursive meaning, and the index-based scanner with its
    process-wide counters that computes it. */
module Variables {
  import opened Wrappers
  import Text

  type VariableMap = map<string, string>

  const MAX_VARIABLE_DEPTH: nat := 10

  const U64: nat := 0x1_0000_0000_0000_0000

  /** The generated built-ins; `generate(name, n)` is the text of the `n`-th draw. */
  datatype Builtins = Builtins(allowed: bool, generate: (string, nat) -> string)

  predicate IsGenerated(name: string) {
    name == "$uuid" || name == "$timestamp" || name == "$isoTimestamp" || name == "$randomInt"
  }

  /** The resolver's state: the next output of each counter, and the draws made. */
  datatype State = State(counters: map<string, nat>, draws: nat)

  /** Output comes in pieces, so that a counter's output can be told from text that looks like it. */
  datatype Piece = Lit(text: string) | Count(key: string, n: nat)

  // ---------- Tokens ----------

  predicate PairAt(s: string, c: char, i: int) {
    0 <= i && i + 1 < |s| && s[i] == c && s[i + 1] == c
  }

  /** The first place at or after `from` where `c` stands twice. */
  function FindPair(s: string, c: char, from: nat): (r: Option<nat>)
    ensures r.Some? ==> from <= r.value && r.value + 1 < |s|
    decreases |s| - from
  {
    if from + 1 >= |s| then None
    else if PairAt(s, c, from) then Some(from)
    else FindPair(s, c, from + 1)
  }

  lemma {:induction false} FindPairIsFirst(s: string, c: char, from: nat)
    ensures FindPair(s, c, from).Some? ==> PairAt(s, c, FindPair(s, c, from).value)
    ensures var r := FindPair(s, c, from); forall j | from <= j && (r.Some? ==> j < r.value) :: !PairAt(s, c, j)
    decreases |s| - from
  {
    if from + 1 < |s| && !PairAt(s, c, from) {
      FindPairIsFirst(s, c, from + 1);
    }
  }

  datatype Token = Token(open: nat, close: nat)

  /** The leftmost `{{`, if a `}}` follows it. */
  function FirstToken(s: string): (r: Option<Token>)
    ensures r.Some? ==> r.value.open + 2 <= r.value.close && r.value.close + 2 <= |s|
  {
    match FindPair(s, '{', 0)
    case None => None
    case Some(i) =>
      match FindPair(s, '}', i + 2)
      case None => None
      case Some(c) => Some(Token(i, c))
  }

  /** It is the first closed token: any opening that is closed anywhere makes the leftmost
      opening a token, closed by the nearest `}}`. */
  lemma FirstTokenIsFirst(s: string)
    ensures FirstToken(s).Some? <==> exists i, c :: i + 2 <= c && PairAt(s, '{', i) && PairAt(s, '}', c)
    ensures FirstToken(s).Some? ==>
      var t := FirstToken(s).value;
      && PairAt(s, '{', t.open) && PairAt(s, '}', t.close)
      && (forall i | i < t.open :: !PairAt(s, '{', i))
      && (forall c | t.open + 2 <= c < t.close :: !PairAt(s, '}', c))
  {
    FindPairIsFirst(s, '{', 0);
    if FindPair(s, '{', 0).Some? {
      FindPairIsFirst(s, '}', FindPair(s, '{', 0).value + 2);
    }
    if i, c :| i + 2 <= c && PairAt(s, '{', i) && PairAt(s, '}', c) {
      assert FindPair(s, '{', 0).Some? && FindPair(s, '{', 0).value <= i;
      assert FindPair(s, '}', FindPair(s, '{', 0).value + 2).Some?;
    }
  }

  // ---------- Lookup ----------

  datatype Found = Missing | Value(text: string, st: State) | Counter(key: string)

  predicate HasPrefix(s: string, prefix: string) {
    |prefix| <= |s| && s[..|prefix|] == prefix
  }

  /** The counter a `$seq` name stands for: `$seq:key`; anything else after `$seq` is global. */
  function SeqKey(name: string): string
    requires HasPrefix(name, "$seq")
  {
    var rest := name[4..];
    if HasPrefix(rest, ":") then rest[1..] else ""
  }

  /** User variables first, then built-ins when they are allowed. */
  function Lookup(b: Builtins, name: string, vars: VariableMap, st: State): Found {
    if name in vars then Value(vars[name], st)
    else if !b.allowed then Missing
    else if IsGenerated(name) then Value(b.generate(name, st.draws), st.(draws := st.draws + 1))
    else if HasPrefix(name, "$seq") then Counter(SeqKey(name))
    else Missing
  }

  /** What the text between a token's braces stands for. */
  type Finder = (string, State) -> Found

  /** Names are trimmed; an empty name stands for nothing. */
  function FoundBy(b: Builtins, vars: VariableMap, inner: string, st: State): Found {
    var name := Text.Trim(inner);
    if name == "" then Missing else Lookup(b, name, vars, st)
  }

  function Find(b: Builtins, vars: VariableMap): Finder {
    (inner, st) => FoundBy(b, vars, inner, st)
  }

  ghost predicate Finds(find: Finder, b: Builtins, vars: VariableMap) {
    forall inner, st {:trigger FoundBy(b, vars, inner, st)} :: find(inner, st) == FoundBy(b, vars, inner, st)
  }

  /** The next output of a counter: what is stored, or 1 when that is missing or zero. */
  function NextOutput(st: State, key: string): nat {
    if key in st.counters && st.counters[key] != 0 then st.counters[key] else 1
  }

  /** 64-bit addition wraps in release builds. */
  function Bump(st: State, key: string): State {
    st.(counters := st.counters[key := (NextOutput(st, key) + 1) % U64])
  }

  // ---------- The recursive meaning ----------

  /** The text of a token, braces included. */
  function TokenText(s: string, t: Token): (raw: string)
    requires t.open + 2 <= t.close && t.close + 2 <= |s|
    ensures |raw| >= 4
  {
    s[t.open..t.close + 2]
  }

  /** The text between a token's braces. */
  function Inner(raw: string): string
    requires |raw| >= 4
  {
    raw[2..|raw| - 2]
  }

  /** Literal text, the first closed token, the rest; a value is resolved one level deeper. */
  function Expand(find: Finder, s: string, depth: nat, st: State): (seq<Piece>, State)
    decreases depth, |s|
  {
    if depth == 0 || FirstToken(s).None? then ([Lit(s)], st)
    else
      var t := FirstToken(s).value;
      var (middle, st1) := ExpandToken(find, TokenText(s, t), depth, st);
      var (rest, st2) := Expand(find, s[t.close + 2..], depth, st1);
      ([Lit(s[..t.open])] + middle + rest, st2)
  }

  function ExpandToken(find: Finder, raw: string, depth: nat, st: State): (seq<Piece>, State)
    requires depth > 0 && |raw| >= 4
    decreases depth, 0
  {
    match find(Inner(raw), st)
    case Missing => ([Lit(raw)], st)
    case Value(text, st') => Expand(find, text, depth - 1, st')
    case Counter(key) => ([Count(key, NextOutput(st, key))], Bump(st, key))
  }

  function Digit(n: nat): char
    requires n < 10
  {
    ('0' as int + n) as char
  }

  function Decimal(n: nat): string {
    if n < 10 then [Digit(n)] else Decimal(n / 10) + [Digit(n % 10)]
  }

  /** The number a decimal text stands for. */
  function Read(s: string): int {
    if s == "" then 0 else 10 * Read(s[..|s| - 1]) + (s[|s| - 1] as int - '0' as int)
  }

  predicate Digits(s: string) {
    s != "" && forall i | 0 <= i < |s| :: '0' <= s[i] <= '9'
  }

  /** The decimal text reads as its number and has no leading zero. */
  lemma {:induction false} DecimalReads(n: nat)
    ensures Read(Decimal(n)) == n && Digits(Decimal(n))
    ensures n > 0 ==> Decimal(n)[0] != '0'
  {
    if n >= 10 {
      DecimalReads(n / 10);
      assert Decimal(n)[..|Decimal(n)| - 1] == Decimal(n / 10);
    }
  }

  function RenderPiece(p: Piece): string {
    match p
    case Lit(text) => text
    case Count(_, n) => Decimal(n)
  }

  function Render(pieces: seq<Piece>): string {
    if pieces == [] then "" else RenderPiece(pieces[0]) + Render(pieces[1..])
  }

  /** The resolved text. */
  function Resolved(find: Finder, s: string, depth: nat, st: State): string {
    Render(Expand(find, s, depth, st).0)
  }

  lemma {:induction false} RenderConcat(p: seq<Piece>, q: seq<Piece>)
    ensures Render(p + q) == Render(p) + Render(q)
  {
    if p == [] {
      assert p + q == q;
    } else {
      assert (p + q)[1..] == p[1..] + q;
      RenderConcat(p[1..], q);
    }
  }

  /** `s` is the literal text before its first closed token, that token, and the rest. */
  ghost predicate Cut(s: string, literal: string, raw: string, rest: string) {
    && |raw| >= 4 && s == literal + raw + rest
    && FirstToken(s) == Some(Token(|literal|, |literal| + |raw| - 2))
  }

  lemma CutAt(s: string) returns (literal: string, raw: string, rest: string)
    requires FirstToken(s).Some?
    ensures Cut(s, literal, raw, rest) && |literal| + |raw| + |rest| == |s|
    ensures raw == TokenText(s, FirstToken(s).value) && rest == s[FirstToken(s).value.close + 2..]
  {
    var t := FirstToken(s).value;
    literal, raw, rest := s[..t.open], TokenText(s, t), s[t.close + 2..];
  }

  /** The meaning, on texts. */
  lemma ResolvedUnfolds(find: Finder, s: string, literal: string, raw: string, rest: string,
                        depth: nat, st: State)
    requires depth > 0 && Cut(s, literal, raw, rest)
    ensures var middle := ExpandToken(find, raw, depth, st);
            && Resolved(find, s, depth, st)
               == literal + Render(middle.0) + Resolved(find, rest, depth, middle.1)
            && Expand(find, s, depth, st).1 == Expand(find, rest, depth, middle.1).1
  {
    var t := FirstToken(s).value;
    assert s[..t.open] == literal && TokenText(s, t) == raw && s[t.close + 2..] == rest;
    var (middle, st1) := ExpandToken(find, raw, depth, st);
    JoinThree(literal, middle, Expand(find, rest, depth, st1).0);
  }

  lemma JoinThree(literal: string, middle: seq<Piece>, rest: seq<Piece>)
    ensures Render([Lit(literal)] + middle + rest) == literal + Render(middle) + Render(rest)
  {
    RenderConcat([Lit(literal)] + middle, rest);
    RenderConcat([Lit(literal)], middle);
    RenderOne(Lit(literal));
  }

  lemma RenderOne(p: Piece)
    ensures Render([p]) == RenderPiece(p)
  {
    assert [p][1..] == [];
  }

  // ---------- The scanner ----------

  lemma {:induction false} DigitsHaveNoPair(n: nat)
    ensures forall i | 0 <= i < |Decimal(n)| :: '0' <= Decimal(n)[i] <= '9'
  {
    if n >= 10 {
      DigitsHaveNoPair(n / 10);
    }
  }

  /** A counter's output survives the second resolution it is put through. */
  lemma NumbersStayAsTheyAre(find: Finder, n: nat, depth: nat, st: State)
    ensures Resolved(find, Decimal(n), depth, st) == Decimal(n)
    ensures Expand(find, Decimal(n), depth, st).1 == st
  {
    DigitsHaveNoPair(n);
    FindPairIsFirst(Decimal(n), '{', 0);
    assert FirstToken(Decimal(n)).None?;
    RenderOne(Lit(Decimal(n)));
  }

  lemma {:induction false} FindPairInTail(s: string, tail: string, c: char, start: nat, from: nat)
    requires start <= |s| && tail == s[start..]
    ensures FindPair(tail, c, from)
         == match FindPair(s, c, from + start) case None => None case Some(j) => Some(j - start)
    decreases |tail| - from
  {
    if from + 1 < |tail| && !PairAt(tail, c, from) {
      FindPairInTail(s, tail, c, start, from + 1);
    }
  }

  /** What resolving `s` onto `out` comes to: the text and the state. */
  function Outcome(find: Finder, out: string, s: string, depth: nat, st: State): (string, State) {
    (out + Resolved(find, s, depth, st), Expand(find, s, depth, st).1)
  }

  function TokenOutcome(find: Finder, out: string, raw: string, depth: nat, st: State): (string, State)
    requires depth > 0 && |raw| >= 4
  {
    (out + Render(ExpandToken(find, raw, depth, st).0), ExpandToken(find, raw, depth, st).1)
  }

  /** An empty or unknown token is copied. */
  lemma UnresolvedToken(find: Finder, out: string, raw: string, depth: nat, st: State)
    requires depth > 0 && |raw| >= 4
    requires find(Inner(raw), st).Missing?
    ensures TokenOutcome(find, out, raw, depth, st) == (out + raw, st)
    ensures Render(ExpandToken(find, raw, depth, st).0) == raw && ExpandToken(find, raw, depth, st).1 == st
  {
    RenderOne(Lit(raw));
  }

  /** What is looked up is resolved one level deeper; that changes nothing about a number. */
  lemma ResolvedToken(find: Finder, out: string, raw: string, depth: nat, st: State)
    requires depth > 0 && |raw| >= 4
    ensures match find(Inner(raw), st)
            case Missing => true
            case Value(text, st') =>
              TokenOutcome(find, out, raw, depth, st) == Outcome(find, out, text, depth - 1, st')
            case Counter(key) =>
              TokenOutcome(find, out, raw, depth, st)
              == Outcome(find, out, Decimal(NextOutput(st, key)), depth - 1, Bump(st, key))
  {
    var found := find(Inner(raw), st);
    if found.Counter? {
      NumberOutcome(find, out, NextOutput(st, found.key), depth - 1, Bump(st, found.key));
      RenderOne(Count(found.key, NextOutput(st, found.key)));
    }
  }

  lemma NumberOutcome(find: Finder, out: string, n: nat, depth: nat, st: State)
    ensures Outcome(find, out, Decimal(n), depth, st) == (out + Decimal(n), st)
  {
    NumbersStayAsTheyAre(find, n, depth, st);
  }

  /** Scanning on from `copied` and meeting the first `{{` at `i` is meeting it in the tail. */
  lemma TokenInTail(s: string, tail: string, copied: nat, i: nat)
    requires copied <= i && FindPair(s, '{', copied) == Some(i) && tail == s[copied..]
    ensures FirstToken(tail)
         == match FindPair(s, '}', i + 2) case None => None case Some(c) => Some(Token(i - copied, c - copied))
  {
    OpeningInTail(s, tail, copied, i);
    ClosingInTail(s, tail, copied, i - copied);
  }

  lemma OpeningInTail(s: string, tail: string, copied: nat, i: nat)
    requires copied <= i && FindPair(s, '{', copied) == Some(i) && tail == s[copied..]
    ensures FindPair(tail, '{', 0) == Some(i - copied)
  {
    FindPairInTail(s, tail, '{', copied, 0);
  }

  lemma ClosingInTail(s: string, tail: string, copied: nat, open: nat)
    requires copied <= |s| && tail == s[copied..] && FindPair(tail, '{', 0) == Some(open)
    ensures FirstToken(tail)
         == match FindPair(s, '}', open + copied + 2) case None => None case Some(c) => Some(Token(open, c - copied))
  {
    FindPairInTail(s, tail, '}', copied, open + 2);
  }

  /** Without a further closed token the tail is literal. */
  lemma NoTokenInTail(s: string, copied: nat)
    requires copied <= |s|
    requires match FindPair(s, '{', copied) case None => true case Some(i) => FindPair(s, '}', i + 2).None?
    ensures FirstToken(s[copied..]).None?
  {
    if FindPair(s, '{', copied).Some? {
      TokenInTail(s, s[copied..], copied, FindPair(s, '{', copied).value);
    } else {
      FindPairInTail(s, s[copied..], '{', copied, 0);
    }
  }

  lemma LiteralOnly(find: Finder, out: string, s: string, depth: nat, st: State)
    requires depth == 0 || FirstToken(s).None?
    ensures Outcome(find, out, s, depth, st) == (out + s, st)
    ensures Resolved(find, s, depth, st) == s && Expand(find, s, depth, st).1 == st
  {
    RenderOne(Lit(s));
  }

  /** After a token, what is left to do is the text behind it. */
  lemma TokenDone(find: Finder, out: string, s: string, literal: string, raw: string, rest: string,
                  depth: nat, st: State)
    requires depth > 0 && Cut(s, literal, raw, rest)
    ensures var (out', st') := TokenOutcome(find, out + literal, raw, depth, st);
            Outcome(find, out, s, depth, st) == Outcome(find, out', rest, depth, st')
  {
    ResolvedUnfolds(find, s, literal, raw, rest, depth, st);
    var middle := ExpandToken(find, raw, depth, st);
    Regroup(out, literal, Render(middle.0), Resolved(find, rest, depth, middle.1));
  }

  lemma Regroup(a: string, b: string, c: string, d: string)
    ensures a + (b + c + d) == a + b + c + d
  {
  }

  /** The tail's first closed token stands at `i` and is closed at `close`. */
  predicate TokenAt(s: string, copied: nat, i: nat, close: nat) {
    copied <= i && i + 2 <= close && close + 2 <= |s| && FirstToken(s[copied..]) == Some(Token(i - copied, close - copied))
  }

  lemma CutOfTail(s: string, copied: nat, i: nat, close: nat)
    requires TokenAt(s, copied, i, close)
    ensures Cut(s[copied..], s[copied..i], s[i..close + 2], s[close + 2..])
  {
    assert s[copied..] == s[copied..i] + s[i..close + 2] + s[close + 2..];
  }

  /** The process-wide counters, with the resolver working on them. */
  class Engine {
    const builtins: Builtins
    var counters: map<string, nat>
    var draws: nat
    var dirty: bool

    constructor (builtins: Builtins)
      ensures this.builtins == builtins && View() == State(map[], 0) && !dirty
    {
      this.builtins := builtins;
      counters, draws, dirty := map[], 0, false;
    }

    ghost function View(): State
      reads this
    {
      State(counters, draws)
    }

    /** `seq_value` */
    method SeqValue(key: string) returns (out: string)
      modifies this
      ensures out == Decimal(NextOutput(old(View()), key))
      ensures Digits(out) && (|out| > 1 ==> out[0] != '0')
      ensures Read(out) == if key !in old(counters) || old(counters)[key] == 0 then 1 else old(counters)[key]
      ensures counters == old(counters)[key := (Read(out) + 1) % 0x1_0000_0000_0000_0000] && draws == old(draws)
      ensures View() == Bump(old(View()), key) && dirty
    {
      var current := if key in counters then counters[key] else 0;
      var value := if current == 0 then 1 else current;
      counters := counters[key := (value + 1) % U64];
      dirty := true;
      out := Decimal(value);
      DecimalReads(value);
    }

    /** `lookup` */
    method LookUp(name: string, vars: VariableMap) returns (value: Option<string>)
      modifies this
      ensures match Lookup(builtins, name, vars, old(View()))
              case Missing => value == None && View() == old(View())
              case Value(text, st) => value == Some(text) && View() == st
              case Counter(key) =>
                value == Some(Decimal(NextOutput(old(View()), key))) && View() == Bump(old(View()), key)
    {
      if name in vars {
        return Some(vars[name]);
      }
      if builtins.allowed {
        if name == "$uuid" || name == "$timestamp" || name == "$isoTimestamp" || name == "$randomInt" {
          value := Some(builtins.generate(name, draws));
          draws := draws + 1;
          return;
        }
        if |name| >= 4 && name[..4] == "$seq" {
          var text := SeqValue(if |name| > 4 && name[4] == ':' then name[5..] else "");
          return Some(text);
        }
      }
      return None;
    }

    /** `resolve_variables_with` */
    method ResolveVariablesWith(s: string, vars: VariableMap, maxDepth: nat) returns (out: string)
      modifies this
      ensures out == Resolved(Find(builtins, vars), s, maxDepth, old(View()))
      ensures View() == Expand(Find(builtins, vars), s, maxDepth, old(View())).1
    {
      out := ResolveInto(Find(builtins, vars), "", s, vars, maxDepth);
    }

    /** `resolve_into`: literal, token, literal, token, ..., appending to `out`. `find` is what the
        variable table and the built-ins make of a name. */
    method ResolveInto(ghost find: Finder, prefix: string, s: string, vars: VariableMap, depth: nat) returns (out: string)
      requires Finds(find, builtins, vars)
      modifies this
      ensures (out, View()) == Outcome(find, prefix, s, depth, old(View()))
      decreases depth, 3
    {
      out := prefix;
      if depth == 0 {
        LiteralOnly(find, prefix, s, depth, View());
        return out + s;
      }
      ghost var whole := Outcome(find, prefix, s, depth, View());
      var copied, done := 0, false;
      assert s[copied..] == s;
      while !done
        invariant copied <= |s|
        invariant if done then (out, View()) == whole else Outcome(find, out, s[copied..], depth, View()) == whole
        decreases if done then 0 else |s| - copied + 1
      {
        out, copied, done := ScanOn(find, out, s, vars, depth, copied);
      }
    }

    /** One pass of the scanner's loop: the literal and the token behind it, or the literal that is left. */
    method ScanOn(ghost find: Finder, before: string, s: string, vars: VariableMap, depth: nat, start: nat)
      returns (out: string, copied: nat, done: bool)
      requires Finds(find, builtins, vars)
      requires depth > 0 && start <= |s|
      modifies this
      ensures copied <= |s| && (!done ==> start < copied)
      ensures var whole := Outcome(find, before, s[start..], depth, old(View()));
        if done then (out, View()) == whole else Outcome(find, out, s[copied..], depth, View()) == whole
      decreases depth, 2
    {
      var i, close := NextToken(s, start);
      if close + 1 >= |s| {
        LiteralOnly(find, before, s[start..], depth, View());
        return before + s[start..], start, true;
      }
      out := TakeToken(find, before, s, vars, depth, start, i, close);
      return out, close + 2, false;
    }

    /** The scan for the next token: an opening at `i` closed at `close`, which lies too far out
        when there is none. */
    method NextToken(s: string, copied: nat) returns (i: nat, close: nat)
      requires copied <= |s|
      ensures if close + 1 >= |s| then FirstToken(s[copied..]).None?
              else TokenAt(s, copied, i, close)
    {
      i, close := copied, |s|;
      while i + 1 < |s|
        invariant copied <= i <= |s|
        invariant FindPair(s, '{', copied) == FindPair(s, '{', i)
      {
        if s[i] == '{' && s[i + 1] == '{' {
          close := i + 2;
          while close + 1 < |s|
            invariant i + 2 <= close <= |s|
            invariant FindPair(s, '}', i + 2) == FindPair(s, '}', close)
          {
            if s[close] == '}' && s[close + 1] == '}' {
              TokenInTail(s, s[copied..], copied, i);
              return;
            }
            close := close + 1;
          }
          break;
        }
        i := i + 1;
      }
      NoTokenInTail(s, copied);
    }

    /** The literal before a closed token, then the token. */
    method TakeToken(ghost find: Finder, before: string, s: string, vars: VariableMap, depth: nat, copied: nat, i: nat, close: nat)
      returns (out: string)
      requires Finds(find, builtins, vars)
      requires depth > 0 && TokenAt(s, copied, i, close)
      modifies this
      ensures Outcome(find, out, s[close + 2..], depth, View()) == Outcome(find, before, s[copied..], depth, old(View()))
      decreases depth, 1
    {
      CutOfTail(s, copied, i, close);
      TokenDone(find, before, s[copied..], s[copied..i], s[i..close + 2], s[close + 2..], depth, View());
      out := ResolveToken(find, before + s[copied..i], s[i..close + 2], vars, depth);
    }

    /** The scanner's branch for a closed token. */
    method ResolveToken(ghost find: Finder, prefix: string, raw: string, vars: VariableMap, depth: nat) returns (out: string)
      requires Finds(find, builtins, vars)
      requires depth > 0 && |raw| >= 4
      modifies this
      ensures (out, View()) == TokenOutcome(find, prefix, raw, depth, old(View()))
      decreases depth, 0
    {
      ghost var st := View();
      assert find(Inner(raw), st) == FoundBy(builtins, vars, Inner(raw), st);
      var name := Text.Trim(raw[2..|raw| - 2]);
      if name == "" {
        UnresolvedToken(find, prefix, raw, depth, st);
        return prefix + raw;
      }
      var value := LookUp(name, vars);
      if value.None? {
        UnresolvedToken(find, prefix, raw, depth, st);
        return prefix + raw;
      }
      ResolvedToken(find, prefix, raw, depth, st);
      out := ResolveInto(find, prefix, value.value, vars, depth - 1);
    }
  }
}
