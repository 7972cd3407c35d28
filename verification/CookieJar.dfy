/** The managed cookie jar: slots per domain that together hold one cookie per (domain, name, path). */
module CookieJar {
  import opened Sorting
  import opened Wrappers
  import T = Text

  datatype Cookie = Cookie(name: string, value: string, domain: string, path: string,
                           expiresAt: Option<int>, secure: bool, httpOnly: bool)

  type Slots = map<string, seq<Cookie>>

  datatype Key = Key(domain: string, name: string, path: string)

  function KeyOf(c: Cookie): Key {
    Key(c.domain, c.name, c.path)
  }

  type FlatJar = map<Key, Cookie>

  // ---- the slots and the flat map they stand for ----

  ghost predicate DistinctKeys(cookies: seq<Cookie>) {
    forall i, j | 0 <= i < j < |cookies| :: KeyOf(cookies[i]) != KeyOf(cookies[j])
  }

  ghost predicate SlotInv(domain: string, slot: seq<Cookie>) {
    DistinctKeys(slot) && forall i | 0 <= i < |slot| :: slot[i].domain == domain
  }

  ghost predicate JarInv(slots: Slots) {
    forall d | d in slots :: SlotInv(d, slots[d])
  }

  ghost predicate Holds(slots: Slots, c: Cookie) {
    c.domain in slots && c in slots[c.domain]
  }

  /** The flat map holds exactly the cookies in the slots, each under its own key. */
  ghost predicate Represents(slots: Slots, flat: FlatJar) {
    forall c :: Holds(slots, c) <==> KeyOf(c) in flat && flat[KeyOf(c)] == c
  }

  ghost predicate KeyedRight(flat: FlatJar) {
    forall k | k in flat :: KeyOf(flat[k]) == k
  }

  // ---- storing ----

  function Position(slot: seq<Cookie>, c: Cookie): (i: nat)
    ensures i <= |slot|
    ensures forall j | 0 <= j < i :: !(slot[j].name == c.name && slot[j].path == c.path)
    ensures i < |slot| ==> slot[i].name == c.name && slot[i].path == c.path
  {
    if slot == [] || (slot[0].name == c.name && slot[0].path == c.path) then 0 else 1 + Position(slot[1..], c)
  }

  function Stored(slots: Slots, c: Cookie): Slots {
    var slot := if c.domain in slots then slots[c.domain] else [];
    var i := Position(slot, c);
    slots[c.domain := if i < |slot| then slot[i := c] else slot + [c]]
  }

  lemma StoreIsMapUpdate(slots: Slots, flat: FlatJar, c: Cookie)
    requires JarInv(slots) && KeyedRight(flat) && Represents(slots, flat)
    ensures JarInv(Stored(slots, c)) && KeyedRight(flat[KeyOf(c) := c])
    ensures Represents(Stored(slots, c), flat[KeyOf(c) := c])
  {
    var slot := if c.domain in slots then slots[c.domain] else [];
    var i := Position(slot, c);
    var after := if i < |slot| then slot[i := c] else slot + [c];
    assert SlotInv(c.domain, slot);
    forall x: Cookie | x.domain == c.domain
      ensures SlotInv(c.domain, after) && (x in after <==> x == c || (Holds(slots, x) && KeyOf(x) != KeyOf(c)))
    {
      SlotAfterStore(c.domain, slot, c, x);
    }
    SlotAfterStore(c.domain, slot, c, c);
    SlotReplaced(slots, flat, c, after);
  }

  /** Replacing one slot by one that differs in one key updates the flat map at that key. */
  lemma SlotReplaced(slots: Slots, flat: FlatJar, c: Cookie, after: seq<Cookie>)
    requires JarInv(slots) && KeyedRight(flat) && Represents(slots, flat) && SlotInv(c.domain, after)
    requires forall x: Cookie :: x.domain == c.domain ==> (x in after <==> x == c || (Holds(slots, x) && KeyOf(x) != KeyOf(c)))
    ensures JarInv(slots[c.domain := after]) && KeyedRight(flat[KeyOf(c) := c])
    ensures Represents(slots[c.domain := after], flat[KeyOf(c) := c])
  {
    var more, updated := slots[c.domain := after], flat[KeyOf(c) := c];
    forall x: Cookie ensures Holds(more, x) <==> KeyOf(x) in updated && updated[KeyOf(x)] == x {
      assert Holds(slots, x) <==> KeyOf(x) in flat && flat[KeyOf(x)] == x;
      assert x.domain != c.domain ==> (Holds(more, x) <==> Holds(slots, x));
    }
  }

  lemma SlotAfterStore(domain: string, slot: seq<Cookie>, c: Cookie, x: Cookie)
    requires SlotInv(domain, slot) && c.domain == domain == x.domain
    ensures var i := Position(slot, c); var after := if i < |slot| then slot[i := c] else slot + [c];
      SlotInv(domain, after) && (x in after <==> x == c || (x in slot && KeyOf(x) != KeyOf(c)))
  {
    var i := Position(slot, c);
    if i < |slot| {
      SlotAfterReplacement(domain, slot, i, c, x);
    } else {
      SlotAfterAppending(domain, slot, c, x);
    }
  }

  lemma SlotAfterReplacement(domain: string, slot: seq<Cookie>, i: nat, c: Cookie, x: Cookie)
    requires SlotInv(domain, slot) && c.domain == domain && i < |slot| && KeyOf(slot[i]) == KeyOf(c)
    ensures SlotInv(domain, slot[i := c]) && (x in slot[i := c] <==> x == c || (x in slot && KeyOf(x) != KeyOf(c)))
  {
    var after := slot[i := c];
    assert forall j | 0 <= j < |slot| :: KeyOf(after[j]) == KeyOf(slot[j]);
    if x in slot && KeyOf(x) != KeyOf(c) {
      var j :| 0 <= j < |slot| && slot[j] == x;
      assert after[j] == x;
    }
    if x in after {
      var j :| 0 <= j < |after| && after[j] == x;
      assert j != i ==> slot[j] == x && KeyOf(slot[j]) != KeyOf(slot[i]);
    }
    assert after[i] == c;
  }

  lemma SlotAfterAppending(domain: string, slot: seq<Cookie>, c: Cookie, x: Cookie)
    requires SlotInv(domain, slot) && c.domain == domain
    requires forall j | 0 <= j < |slot| :: KeyOf(slot[j]) != KeyOf(c)
    ensures SlotInv(domain, slot + [c]) && (x in slot + [c] <==> x == c || (x in slot && KeyOf(x) != KeyOf(c)))
  {
    if x in slot {
      var j :| 0 <= j < |slot| && slot[j] == x;
    }
  }

  // ---- keeping some of a list ----

  function Filter<X>(xs: seq<X>, keep: X -> bool): seq<X> {
    if xs == [] then [] else (if keep(xs[0]) then [xs[0]] else []) + Filter(xs[1..], keep)
  }

  lemma {:induction false} FilterKeepsMembers<X>(xs: seq<X>, keep: X -> bool, x: X)
    ensures x in Filter(xs, keep) <==> x in xs && keep(x)
  {
    if xs != [] {
      FilterKeepsMembers(xs[1..], keep, x);
      assert xs == [xs[0]] + xs[1..];
    }
  }

  lemma {:induction false} FilterKeepsDistinct(xs: seq<Cookie>, keep: Cookie -> bool)
    requires DistinctKeys(xs)
    ensures DistinctKeys(Filter(xs, keep))
  {
    if xs != [] {
      var rest := Filter(xs[1..], keep);
      FilterKeepsDistinct(xs[1..], keep);
      forall y | y in rest ensures KeyOf(y) != KeyOf(xs[0]) {
        FilterKeepsMembers(xs[1..], keep, y);
      }
    }
  }

  // ---- which cookies a request carries ----

  predicate Live(c: Cookie, now: int) {
    c.expiresAt.None? || c.expiresAt.value > now
  }

  /** One leading dot of the cookie's domain is ignored; the host is that domain or below it. */
  predicate DomainMatches(host: string, cookieDomain: string) {
    var cd := if cookieDomain != "" && cookieDomain[0] == '.' then cookieDomain[1..] else cookieDomain;
    host == cd || T.EndsWith(host, "." + cd)
  }

  function LiveAt(now: int): Cookie -> bool {
    (c: Cookie) => Live(c, now)
  }

  predicate HasValue(c: Cookie) {
    c.value != ""
  }

  function Matching(host: string): string -> bool {
    d => DomainMatches(host, d)
  }

  function Sends(host: string, now: int): Cookie -> bool {
    (c: Cookie) => DomainMatches(host, c.domain) && Live(c, now) && HasValue(c)
  }

  /** The list holds each wanted cookie of the jar exactly once and nothing else. */
  ghost predicate ListsExactly(listed: seq<Cookie>, flat: FlatJar, wanted: Cookie -> bool) {
    && DistinctKeys(listed)
    && forall c :: c in listed <==> KeyOf(c) in flat && flat[KeyOf(c)] == c && wanted(c)
  }

  function Purged(flat: FlatJar, gone: Cookie -> bool): FlatJar {
    map k | k in flat && !gone(flat[k]) :: flat[k]
  }

  function Expired(covers: string -> bool, now: int): Cookie -> bool {
    (c: Cookie) => covers(c.domain) && !Live(c, now)
  }

  /** The slots once the covered ones among these domains have dropped their expired cookies. */
  function Swept(before: Slots, covers: string -> bool, done: set<string>, now: int): Slots {
    map d | d in before :: if d in done && covers(d) then Filter(before[d], LiveAt(now)) else before[d]
  }

  lemma SweepIsPurge(before: Slots, after: Slots, flat: FlatJar, covers: string -> bool, now: int)
    requires JarInv(before) && KeyedRight(flat) && Represents(before, flat)
    requires after == Swept(before, covers, before.Keys, now)
    ensures JarInv(after) && KeyedRight(Purged(flat, Expired(covers, now)))
    ensures Represents(after, Purged(flat, Expired(covers, now)))
  {
    var live := LiveAt(now);
    forall d | d in after ensures SlotInv(d, after[d]) {
      assert SlotInv(d, before[d]);
      if covers(d) {
        FilterKeepsDistinct(before[d], live);
        forall j | 0 <= j < |after[d]| ensures after[d][j].domain == d {
          FilterKeepsMembers(before[d], live, after[d][j]);
        }
      }
    }
    forall c: Cookie
      ensures Holds(after, c) <==> KeyOf(c) in Purged(flat, Expired(covers, now)) && Purged(flat, Expired(covers, now))[KeyOf(c)] == c
    {
      assert Holds(before, c) <==> KeyOf(c) in flat && flat[KeyOf(c)] == c;
      if c.domain in before && covers(c.domain) {
        FilterKeepsMembers(before[c.domain], live, c);
      }
    }
  }

  /** The list holds each wanted cookie of these domains exactly once. */
  ghost predicate Gathered(listed: seq<Cookie>, slots: Slots, done: set<string>, wanted: Cookie -> bool) {
    DistinctKeys(listed) && forall c :: c in listed <==> c.domain in done && Holds(slots, c) && wanted(c)
  }

  ghost predicate FromSlot(more: seq<Cookie>, slot: seq<Cookie>, wanted: Cookie -> bool) {
    DistinctKeys(more) && forall c :: c in more <==> c in slot && wanted(c)
  }

  /** One domain fewer to visit is one more visited. */
  lemma OneMoreVisited(all: set<string>, rest: set<string>, d: string)
    requires d in rest && rest <= all
    ensures all - (rest - {d}) == (all - rest) + {d} && d !in all - rest
    ensures rest - {d} <= all && |rest - {d}| < |rest|
  {
  }

  lemma NothingVisited(before: Slots, covers: string -> bool, now: int)
    ensures Swept(before, covers, before.Keys - before.Keys, now) == before
  {
  }

  lemma SweptGrows(before: Slots, covers: string -> bool, done: set<string>, d: string, now: int)
    requires d in before && d !in done
    ensures var slots := Swept(before, covers, done, now);
      && d in slots && slots[d] == before[d]
      && Swept(before, covers, done + {d}, now) == if covers(d) then slots[d := Filter(before[d], LiveAt(now))] else slots
  {
  }

  lemma GatheredAll(listed: seq<Cookie>, slots: Slots, flat: FlatJar, wanted: Cookie -> bool)
    requires Represents(slots, flat) && Gathered(listed, slots, slots.Keys, wanted)
    ensures ListsExactly(listed, flat, wanted)
  {
    forall c: Cookie ensures c in listed <==> KeyOf(c) in flat && flat[KeyOf(c)] == c && wanted(c) {
      assert Holds(slots, c) <==> KeyOf(c) in flat && flat[KeyOf(c)] == c;
    }
  }

  /** One more slot's cookies are listed. */
  lemma GatheredGrows(listed: seq<Cookie>, slots: Slots, done: set<string>, d: string, more: seq<Cookie>, wanted: Cookie -> bool)
    requires JarInv(slots) && d in slots && d !in done
    requires Gathered(listed, slots, done, wanted) && FromSlot(more, slots[d], wanted)
    ensures Gathered(listed + more, slots, done + {d}, wanted)
  {
    assert SlotInv(d, slots[d]);
    forall c | c in more ensures c.domain == d {
      assert c in slots[d];
    }
    forall i, j | 0 <= i < |listed| && 0 <= j < |more| ensures listed[i].domain != more[j].domain {
      assert listed[i] in listed && more[j] in more;
    }
  }

  // ---- counting ----

  function KeysIn(flat: FlatJar, domains: set<string>): set<Key> {
    set k | k in flat && k.domain in domains
  }

  function SlotKeys(slot: seq<Cookie>): set<Key> {
    set i | 0 <= i < |slot| :: KeyOf(slot[i])
  }

  lemma {:induction false} SlotKeysCount(slot: seq<Cookie>)
    requires DistinctKeys(slot)
    ensures |SlotKeys(slot)| == |slot|
  {
    if slot != [] {
      var n := |slot| - 1;
      SlotKeysCount(slot[..n]);
      assert SlotKeys(slot) == SlotKeys(slot[..n]) + {KeyOf(slot[n])};
    }
  }

  lemma CountGrows(slots: Slots, flat: FlatJar, done: set<string>, d: string)
    requires JarInv(slots) && KeyedRight(flat) && Represents(slots, flat) && d in slots && d !in done
    ensures |KeysIn(flat, done + {d})| == |KeysIn(flat, done)| + |slots[d]|
  {
    var slot := slots[d];
    assert SlotInv(d, slot);
    SlotKeysCount(slot);
    forall k | k in KeysIn(flat, {d}) ensures k in SlotKeys(slot) {
      assert Holds(slots, flat[k]);
      var i :| 0 <= i < |slot| && slot[i] == flat[k];
    }
    forall k | k in SlotKeys(slot) ensures k in KeysIn(flat, {d}) {
      var i :| 0 <= i < |slot| && KeyOf(slot[i]) == k;
      assert Holds(slots, slot[i]);
    }
    assert KeysIn(flat, {d}) == SlotKeys(slot);
    assert KeysIn(flat, done + {d}) == KeysIn(flat, done) + KeysIn(flat, {d});
  }

  lemma CountsAll(slots: Slots, flat: FlatJar)
    requires KeyedRight(flat) && Represents(slots, flat)
    ensures KeysIn(flat, slots.Keys) == flat.Keys
  {
    forall k | k in flat ensures k.domain in slots {
      assert Holds(slots, flat[k]);
    }
  }

  // ---- listing in order ----

  predicate TextLe(a: string, b: string) {
    a == "" || (b != "" && (a[0] < b[0] || (a[0] == b[0] && TextLe(a[1..], b[1..]))))
  }

  predicate ListLe(a: Cookie, b: Cookie) {
    if a.domain == b.domain then TextLe(a.name, b.name) else TextLe(a.domain, b.domain)
  }

  lemma {:induction false} TextLeTotal(a: string, b: string)
    ensures TextLe(a, b) || TextLe(b, a)
    ensures TextLe(a, b) && TextLe(b, a) ==> a == b
  {
    if a != "" && b != "" {
      TextLeTotal(a[1..], b[1..]);
      assert a == [a[0]] + a[1..] && b == [b[0]] + b[1..];
    }
  }

  lemma {:induction false} TextLeTransitive(a: string, b: string, c: string)
    requires TextLe(a, b) && TextLe(b, c)
    ensures TextLe(a, c)
  {
    if a != "" && a[0] == b[0] == c[0] {
      TextLeTransitive(a[1..], b[1..], c[1..]);
    }
  }

  lemma ListOrder()
    ensures IsTotalPreorder(ListLe)
  {
    forall a: Cookie, b: Cookie ensures ListLe(a, b) || ListLe(b, a) {
      TextLeTotal(a.domain, b.domain);
      TextLeTotal(a.name, b.name);
    }
    forall a: Cookie, b: Cookie, c: Cookie | ListLe(a, b) && ListLe(b, c) ensures ListLe(a, c) {
      ListLeTransitive(a, b, c);
    }
  }

  lemma ListLeTransitive(a: Cookie, b: Cookie, c: Cookie)
    requires ListLe(a, b) && ListLe(b, c)
    ensures ListLe(a, c)
  {
    if a.domain == b.domain == c.domain {
      TextLeTransitive(a.name, b.name, c.name);
    } else if a.domain != b.domain && b.domain != c.domain {
      TextLeTransitive(a.domain, b.domain, c.domain);
      if a.domain == c.domain { TextLeTotal(a.domain, b.domain); }
    }
  }

  /** Sorting a listing leaves it a listing. */
  lemma SortedListing(listed: seq<Cookie>)
    requires DistinctKeys(listed)
    ensures Sorted(Sort(listed, ListLe), ListLe) && DistinctKeys(Sort(listed, ListLe))
    ensures forall c :: c in Sort(listed, ListLe) <==> c in listed
  {
    ListOrder();
    SortSorts(listed, ListLe);
    var out := Sort(listed, ListLe);
    forall c: Cookie ensures c in out <==> c in listed {
      assert c in multiset(out) <==> c in multiset(listed);
    }
    forall i, j | 0 <= i < j < |out| ensures KeyOf(out[i]) != KeyOf(out[j]) {
      DistinctByMultiset(listed, out, i, j);
    }
  }

  lemma DistinctByMultiset(xs: seq<Cookie>, ys: seq<Cookie>, i: nat, j: nat)
    requires DistinctKeys(xs) && multiset(xs) == multiset(ys) && i < j < |ys|
    ensures KeyOf(ys[i]) != KeyOf(ys[j])
  {
    assert ys[i] in multiset(xs) && ys[j] in multiset(xs);
    if ys[i] == ys[j] {
      TwiceInMultiset(ys, i, j);
      OnceInMultiset(xs, ys[i]);
    }
  }

  lemma {:induction false} TwiceInMultiset(ys: seq<Cookie>, i: nat, j: nat)
    requires i < j < |ys| && ys[i] == ys[j]
    ensures multiset(ys)[ys[i]] >= 2
  {
    assert ys == ys[..j] + ys[j..];
    assert ys[i] == ys[..j][i] && ys[j] == ys[j..][0];
    assert ys[i] in multiset(ys[..j]) && ys[i] in multiset(ys[j..]);
  }

  lemma {:induction false} OnceInMultiset(xs: seq<Cookie>, c: Cookie)
    requires DistinctKeys(xs)
    ensures multiset(xs)[c] <= 1
  {
    if xs != [] {
      var n := |xs| - 1;
      OnceInMultiset(xs[..n], c);
      assert xs == xs[..n] + [xs[n]];
      assert xs[n] == c ==> c !in xs[..n];
    }
  }

  // ---- the jar ----

  function Texts(cookies: seq<Cookie>): (texts: seq<string>)
    ensures |texts| == |cookies|
  {
    seq(|cookies|, i requires 0 <= i < |cookies| => cookies[i].name + "=" + cookies[i].value)
  }

  predicate Contains(s: string, part: string) {
    exists i | 0 <= i <= |s| :: part <= s[i..]
  }

  /** The domains a clear removes: the domain itself and everything below it. */
  predicate Clears(cleared: string, domain: string) {
    domain == cleared || T.EndsWith(domain, "." + cleared)
  }

  function ClearedBy(cleared: string): Cookie -> bool {
    (c: Cookie) => Clears(cleared, c.domain)
  }

  function Covered(filter: Option<string>): string -> bool {
    d => filter.None? || Contains(d, filter.value)
  }

  function Listable(filter: Option<string>, now: int): Cookie -> bool {
    (c: Cookie) => Covered(filter)(c.domain) && Live(c, now)
  }

  // ---- what these tests mean ----

  /** The host is this domain or ends in it after a dot. */
  ghost predicate Under(host: string, domain: string) {
    host == domain || exists sub: string :: host == sub + "." + domain
  }

  /** One leading dot of the cookie's domain does not count. */
  ghost predicate Covers(domain: string, host: string) {
    if domain != "" && domain[0] == '.' then Under(host, domain[1..]) else Under(host, domain)
  }

  /** Without an expiry, or before it. */
  predicate Unexpired(c: Cookie, now: int) {
    match c.expiresAt case None => true case Some(end) => now < end
  }

  /** The filter stands somewhere in the domain. */
  ghost predicate Holding(domain: string, filter: string) {
    exists before: string, after: string :: domain == before + filter + after
  }

  /** The first text is a beginning of the second, or smaller where they first differ. */
  ghost predicate AtMost(a: string, b: string) {
    exists n | 0 <= n <= |a| && n <= |b| :: a[..n] == b[..n] && (n == |a| || (n < |b| && a[n] < b[n]))
  }

  lemma UnderMeans(host: string, domain: string)
    ensures host == domain || T.EndsWith(host, "." + domain) <==> Under(host, domain)
  {
    var tail := "." + domain;
    if T.EndsWith(host, tail) {
      var sub := host[..|host| - |tail|];
      assert host == sub + tail;
      assert host == sub + "." + domain;
    }
    if sub: string :| host == sub + "." + domain {
      assert host[|host| - |tail|..] == tail;
    }
  }

  lemma MatchingMeans(host: string, domain: string)
    ensures DomainMatches(host, domain) <==> Covers(domain, host)
  {
    UnderMeans(host, if domain != "" && domain[0] == '.' then domain[1..] else domain);
  }

  lemma ContainsMeans(domain: string, filter: string)
    ensures Contains(domain, filter) <==> Holding(domain, filter)
  {
    if Contains(domain, filter) {
      var i :| 0 <= i <= |domain| && filter <= domain[i..];
      assert domain == domain[..i] + filter + domain[i + |filter|..];
    }
    if before: string, after: string :| domain == before + filter + after {
      assert domain[|before|..] == filter + after;
    }
  }

  lemma {:induction false} TextLeMeans(a: string, b: string)
    ensures TextLe(a, b) <==> AtMost(a, b)
  {
    if a == "" {
      assert a[..0] == b[..0];
    } else if b != "" && a[0] == b[0] {
      TextLeMeans(a[1..], b[1..]);
      if n :| 0 <= n <= |a[1..]| && n <= |b[1..]| && a[1..][..n] == b[1..][..n] && (n == |a[1..]| || (n < |b[1..]| && a[1..][n] < b[1..][n])) {
        assert a[..n + 1] == [a[0]] + a[1..][..n] && b[..n + 1] == [b[0]] + b[1..][..n];
      }
      if n :| 0 <= n <= |a| && n <= |b| && a[..n] == b[..n] && (n == |a| || (n < |b| && a[n] < b[n])) {
        assert n > 0;
        assert a[1..][..n - 1] == a[..n][1..] == b[..n][1..] == b[1..][..n - 1];
      }
    } else if b != "" {
      if a[0] < b[0] { assert a[..0] == b[..0]; }
    }
  }

  /** A request carries exactly the cookies with a value, not expired, whose domain is the host's or above it. */
  lemma SendsMeans(host: string, now: int, c: Cookie)
    ensures Sends(host, now)(c) <==> c.value != "" && Unexpired(c, now) && Covers(c.domain, host)
    ensures Expired(Matching(host), now)(c) <==> Covers(c.domain, host) && !Unexpired(c, now)
  {
    MatchingMeans(host, c.domain);
  }

  /** A listing shows exactly the cookies, not expired, whose domain holds the filter. */
  lemma ListableMeans(filter: Option<string>, now: int, c: Cookie)
    ensures Listable(filter, now)(c) <==> Unexpired(c, now) && (filter.Some? ==> Holding(c.domain, filter.value))
    ensures Expired(Covered(filter), now)(c) <==> !Unexpired(c, now) && (filter.Some? ==> Holding(c.domain, filter.value))
  {
    assert Covered(filter)(c.domain) <==> filter.None? || Contains(c.domain, filter.value);
    if filter.Some? { ContainsMeans(c.domain, filter.value); }
  }

  /** Sorted by domain, and by name within a domain. */
  ghost predicate Ordered(listed: seq<Cookie>) {
    forall i, j | 0 <= i < j < |listed| ::
      if listed[i].domain == listed[j].domain then AtMost(listed[i].name, listed[j].name)
      else AtMost(listed[i].domain, listed[j].domain)
  }

  lemma SortedMeans(listed: seq<Cookie>)
    requires Sorted(listed, ListLe)
    ensures Ordered(listed)
  {
    forall i, j | 0 <= i < j < |listed|
      ensures if listed[i].domain == listed[j].domain then AtMost(listed[i].name, listed[j].name)
              else AtMost(listed[i].domain, listed[j].domain)
    {
      assert ListLe(listed[i], listed[j]);
      TextLeMeans(listed[i].name, listed[j].name);
      TextLeMeans(listed[i].domain, listed[j].domain);
    }
  }

  method PairTexts(cookies: seq<Cookie>) returns (texts: seq<string>)
    ensures texts == Texts(cookies)
  {
    texts := [];
    for i := 0 to |cookies|
      invariant texts == Texts(cookies)[..i]
    {
      texts := texts + [cookies[i].name + "=" + cookies[i].value];
    }
    assert texts == Texts(cookies);
  }

  datatype Op =
    | OpStore(cookie: Cookie)
    | OpHeader(host: string)
    | OpList(filter: Option<string>)
    | OpClear(domain: Option<string>)

  /** The jar with its purges. */
  function Do(flat: FlatJar, op: Op, now: int): FlatJar {
    match op
    case OpStore(c) => flat[KeyOf(c) := c]
    case OpHeader(host) => Purged(flat, Expired(Matching(host), now))
    case OpList(filter) => Purged(flat, Expired(Covered(filter), now))
    case OpClear(None) => map[]
    case OpClear(Some(d)) => Purged(flat, ClearedBy(T.LowerAscii(d)))
  }

  class ManagedJar {
    var slots: Slots
    ghost var flat: FlatJar

    ghost predicate Valid()
      reads this
    {
      JarInv(slots) && KeyedRight(flat) && Represents(slots, flat)
    }

    constructor ()
      ensures Valid() && flat == map[]
    {
      slots, flat := map[], map[];
    }

    /** `parsed` is the cookie read from the header, if it could be read. */
    method Store(parsed: Option<Cookie>)
      requires Valid()
      modifies this
      ensures Valid()
      ensures flat == if parsed.None? then old(flat) else old(flat)[KeyOf(parsed.value) := parsed.value]
      ensures parsed.Some? ==> forall now: int :: flat == Do(old(flat), OpStore(parsed.value), now)
    {
      if parsed.None? {
        return;
      }
      var cookie := parsed.value;
      StoreIsMapUpdate(slots, flat, cookie);
      var slot := if cookie.domain in slots then slots[cookie.domain] else [];
      var pos := Position(slot, cookie);
      if pos < |slot| {
        slot := slot[pos := cookie];
      } else {
        slot := slot + [cookie];
      }
      slots := slots[cookie.domain := slot];
      flat := flat[KeyOf(cookie) := cookie];
    }

    /** The `Cookie` header: every wanted cookie once, in the order the map of slots happens to be visited. */
    method HeaderFor(host: Option<string>, now: int, validHeader: string -> bool)
      returns (header: Option<string>, ghost listed: seq<Cookie>)
      requires Valid()
      modifies this
      ensures Valid()
      ensures host.None? ==> header.None? && listed == [] && flat == old(flat)
      ensures host.Some? ==>
        var covers := Matching(host.value);
        && flat == Purged(old(flat), Expired(covers, now)) == Do(old(flat), OpHeader(host.value), now)
        && ListsExactly(listed, old(flat), Sends(host.value, now))
        && header == (var text := T.Join(Texts(listed), "; ");
                      if listed != [] && validHeader(text) then Some(text) else None)
      ensures host.Some? ==> forall c :: c in listed <==>
        && KeyOf(c) in old(flat) && old(flat)[KeyOf(c)] == c
        && c.value != "" && Unexpired(c, now) && Covers(c.domain, host.value)
      ensures host.Some? ==> forall k | k in old(flat) ::
        k in flat <==> Unexpired(old(flat)[k], now) || !Covers(old(flat)[k].domain, host.value)
    {
      listed := [];
      if host.None? {
        return None, listed;
      }
      forall c: Cookie
        ensures Sends(host.value, now)(c) <==> c.value != "" && Unexpired(c, now) && Covers(c.domain, host.value)
        ensures Expired(Matching(host.value), now)(c) <==> Covers(c.domain, host.value) && !Unexpired(c, now)
      {
        SendsMeans(host.value, now, c);
      }
      ghost var before := slots;
      var pairs: seq<string> := [];
      listed, pairs := CollectPairs(host.value, now);
      ghost var covers := Matching(host.value);
      SweepIsPurge(before, slots, flat, covers, now);
      flat := Purged(flat, Expired(covers, now));
      if pairs == [] {
        return None, listed;
      }
      var text := T.Join(pairs, "; ");
      if validHeader(text) {
        return Some(text), listed;
      }
      return None, listed;
    }

    /** The loop over the slots, in any order. */
    method CollectPairs(host: string, now: int) returns (ghost listed: seq<Cookie>, pairs: seq<string>)
      requires Valid()
      modifies this`slots
      ensures slots == Swept(old(slots), Matching(host), old(slots).Keys, now)
      ensures ListsExactly(listed, flat, Sends(host, now)) && pairs == Texts(listed)
    {
      ghost var before := slots;
      listed, pairs := [], [];
      var rest := slots.Keys;
      NothingVisited(before, Matching(host), now);
      while rest != {}
        invariant rest <= before.Keys
        invariant slots == Swept(before, Matching(host), before.Keys - rest, now)
        invariant Gathered(listed, before, before.Keys - rest, Sends(host, now)) && pairs == Texts(listed)
        decreases |rest|
      {
        var d :| d in rest;
        OneMoreVisited(before.Keys, rest, d);
        SweptGrows(before, Matching(host), before.Keys - rest, d, now);
        var sent: seq<Cookie> := [];
        if DomainMatches(host, d) {
          var kept := Filter(slots[d], LiveAt(now));
          slots := slots[d := kept];
          sent := Filter(kept, HasValue);
        }
        SentFromSlot(before, d, host, now, sent);
        GatheredGrows(listed, before, before.Keys - rest, d, sent, Sends(host, now));
        TextsConcat(listed, sent);
        var texts := PairTexts(sent);
        pairs := pairs + texts;
        listed := listed + sent;
        rest := rest - {d};
      }
      assert before.Keys - rest == before.Keys;
      GatheredAll(listed, before, flat, Sends(host, now));
    }

    /** The stored cookies of the covered domains, sorted by domain and name. */
    method List(filter: Option<string>, now: int) returns (out: seq<Cookie>)
      requires Valid()
      modifies this
      ensures Valid() && flat == Purged(old(flat), Expired(Covered(filter), now)) == Do(old(flat), OpList(filter), now)
      ensures ListsExactly(out, old(flat), Listable(filter, now)) && Sorted(out, ListLe)
      ensures forall c :: c in out <==>
        && KeyOf(c) in old(flat) && old(flat)[KeyOf(c)] == c
        && Unexpired(c, now) && (filter.Some? ==> Holding(c.domain, filter.value))
      ensures Ordered(out)
    {
      forall c: Cookie
        ensures Listable(filter, now)(c) <==> Unexpired(c, now) && (filter.Some? ==> Holding(c.domain, filter.value))
      {
        ListableMeans(filter, now, c);
      }
      ghost var before := slots;
      out := CollectListed(filter, now);
      SweepIsPurge(before, slots, flat, Covered(filter), now);
      flat := Purged(flat, Expired(Covered(filter), now));
      SortedListing(out);
      out := Sort(out, ListLe);
      SortedMeans(out);
    }

    method CollectListed(filter: Option<string>, now: int) returns (out: seq<Cookie>)
      requires Valid()
      modifies this`slots
      ensures slots == Swept(old(slots), Covered(filter), old(slots).Keys, now)
      ensures ListsExactly(out, flat, Listable(filter, now))
    {
      ghost var before := slots;
      out := [];
      var rest := slots.Keys;
      NothingVisited(before, Covered(filter), now);
      while rest != {}
        invariant rest <= before.Keys
        invariant slots == Swept(before, Covered(filter), before.Keys - rest, now)
        invariant Gathered(out, before, before.Keys - rest, Listable(filter, now))
        decreases |rest|
      {
        var d :| d in rest;
        OneMoreVisited(before.Keys, rest, d);
        SweptGrows(before, Covered(filter), before.Keys - rest, d, now);
        var kept: seq<Cookie> := [];
        if filter.None? || Contains(d, filter.value) {
          kept := Filter(slots[d], LiveAt(now));
          slots := slots[d := kept];
        }
        KeptFromSlot(before, d, filter, now, kept);
        GatheredGrows(out, before, before.Keys - rest, d, kept, Listable(filter, now));
        out := out + kept;
        rest := rest - {d};
      }
      assert before.Keys - rest == before.Keys;
      GatheredAll(out, before, flat, Listable(filter, now));
    }

    /** Clearing removes exactly the domain's and its subdomains' cookies and returns how many there were. */
    method Clear(domain: Option<string>) returns (removed: nat)
      requires Valid()
      modifies this
      ensures Valid()
      ensures domain.None? ==> flat == map[] && removed == |old(flat)|
      ensures domain.Some? ==> var gone := T.LowerAscii(domain.value);
        && flat == Purged(old(flat), ClearedBy(gone))
        && removed == |old(flat)| - |flat|
      ensures forall now: int :: flat == Do(old(flat), OpClear(domain), now)
      ensures domain.Some? ==> forall k | k in old(flat) ::
        k in flat <==> !Under(old(flat)[k].domain, T.LowerAscii(domain.value))
    {
      if domain.None? {
        removed := Len();
        slots, flat := map[], map[];
        return;
      }
      var gone := T.LowerAscii(domain.value);
      removed := ClearDomain(gone);
      forall d: string ensures Clears(gone, d) <==> Under(d, gone) { UnderMeans(d, gone); }
    }

    method ClearDomain(gone: string) returns (removed: nat)
      requires Valid()
      modifies this
      ensures Valid() && flat == Purged(old(flat), ClearedBy(gone)) && removed == |old(flat)| - |flat|
    {
      ghost var before := slots;
      removed := 0;
      var rest := slots.Keys;
      NothingCleared(before, flat, gone);
      while rest != {}
        invariant rest <= before.Keys && flat == old(flat)
        invariant slots == Without(before, gone, before.Keys - rest)
        invariant removed == |KeysIn(flat, ClearedIn(gone, before.Keys - rest))|
        decreases |rest|
      {
        var d :| d in rest;
        OneMoreVisited(before.Keys, rest, d);
        ClearedGrows(before, flat, gone, before.Keys - rest, d);
        if d == gone || T.EndsWith(d, "." + gone) {
          removed := removed + |slots[d]|;
          slots := slots - {d};
        }
        rest := rest - {d};
      }
      assert before.Keys - rest == before.Keys;
      ClearIsPurge(before, flat, gone);
      flat := Purged(flat, ClearedBy(gone));
    }

    method Len() returns (n: nat)
      requires Valid()
      ensures n == |flat|
    {
      n := 0;
      ghost var done: set<string> := {};
      var rest := slots.Keys;
      while rest != {}
        invariant done + rest == slots.Keys && done !! rest && n == |KeysIn(flat, done)|
        decreases |rest|
      {
        var d :| d in rest;
        CountGrows(slots, flat, done, d);
        n := n + |slots[d]|;
        done := done + {d};
        rest := rest - {d};
      }
      CountsAll(slots, flat);
      assert |flat.Keys| == |flat|;
    }
  }

  lemma TextsConcat(a: seq<Cookie>, b: seq<Cookie>)
    ensures Texts(a + b) == Texts(a) + Texts(b)
  {
  }

  lemma KeptFromSlot(slots: Slots, d: string, filter: Option<string>, now: int, kept: seq<Cookie>)
    requires JarInv(slots) && d in slots
    requires kept == if Covered(filter)(d) then Filter(slots[d], LiveAt(now)) else []
    ensures FromSlot(kept, slots[d], Listable(filter, now))
  {
    var live := LiveAt(now);
    assert SlotInv(d, slots[d]);
    FilterKeepsDistinct(slots[d], live);
    forall c: Cookie ensures c in kept <==> c in slots[d] && Listable(filter, now)(c) {
      FilterKeepsMembers(slots[d], live, c);
    }
  }

  /** The visited domains a clear removes. */
  function ClearedIn(gone: string, done: set<string>): set<string> {
    set d | d in done && Clears(gone, d)
  }

  /** The slots without the cleared ones among the visited domains. */
  function Without(before: Slots, gone: string, done: set<string>): Slots {
    before - ClearedIn(gone, done)
  }

  lemma NothingCleared(before: Slots, flat: FlatJar, gone: string)
    ensures Without(before, gone, before.Keys - before.Keys) == before
    ensures KeysIn(flat, ClearedIn(gone, before.Keys - before.Keys)) == {}
  {
  }

  lemma ClearedGrows(before: Slots, flat: FlatJar, gone: string, done: set<string>, d: string)
    requires JarInv(before) && KeyedRight(flat) && Represents(before, flat) && d in before && d !in done
    ensures var slots := Without(before, gone, done);
      && d in slots && slots[d] == before[d]
      && Without(before, gone, done + {d}) == if Clears(gone, d) then slots - {d} else slots
    ensures |KeysIn(flat, ClearedIn(gone, done + {d}))|
         == |KeysIn(flat, ClearedIn(gone, done))| + if Clears(gone, d) then |before[d]| else 0
  {
    if Clears(gone, d) {
      CountGrows(before, flat, ClearedIn(gone, done), d);
      assert ClearedIn(gone, done + {d}) == ClearedIn(gone, done) + {d};
    } else {
      assert ClearedIn(gone, done + {d}) == ClearedIn(gone, done);
    }
  }

  lemma ClearIsPurge(before: Slots, flat: FlatJar, gone: string)
    requires JarInv(before) && KeyedRight(flat) && Represents(before, flat)
    ensures var after := Without(before, gone, before.Keys); var left := Purged(flat, ClearedBy(gone));
      && JarInv(after) && KeyedRight(left) && Represents(after, left)
      && |KeysIn(flat, ClearedIn(gone, before.Keys))| == |flat| - |left|
  {
    var after, left := Without(before, gone, before.Keys), Purged(flat, ClearedBy(gone));
    forall c: Cookie ensures Holds(after, c) <==> KeyOf(c) in left && left[KeyOf(c)] == c {
      assert Holds(before, c) <==> KeyOf(c) in flat && flat[KeyOf(c)] == c;
    }
    ClearCounts(before, flat, gone);
  }

  lemma ClearCounts(before: Slots, flat: FlatJar, gone: string)
    requires KeyedRight(flat) && Represents(before, flat)
    ensures |KeysIn(flat, ClearedIn(gone, before.Keys))| == |flat| - |Purged(flat, ClearedBy(gone))|
  {
    var left, out := Purged(flat, ClearedBy(gone)), ClearedIn(gone, before.Keys);
    forall k | k in flat ensures k.domain in before {
      assert Holds(before, flat[k]);
    }
    assert left.Keys + KeysIn(flat, out) == flat.Keys && left.Keys !! KeysIn(flat, out);
    assert |left.Keys| == |left| && |flat.Keys| == |flat|;
  }

  lemma SentFromSlot(slots: Slots, d: string, host: string, now: int, sent: seq<Cookie>)
    requires JarInv(slots) && d in slots
    requires sent == if DomainMatches(host, d)
                     then Filter(Filter(slots[d], LiveAt(now)), HasValue) else []
    ensures FromSlot(sent, slots[d], Sends(host, now))
  {
    var live, full := LiveAt(now), HasValue;
    assert SlotInv(d, slots[d]);
    FilterKeepsDistinct(slots[d], live);
    FilterKeepsDistinct(Filter(slots[d], live), full);
    forall c: Cookie ensures c in sent <==> c in slots[d] && Sends(host, now)(c) {
      FilterKeepsMembers(slots[d], live, c);
      FilterKeepsMembers(Filter(slots[d], live), full, c);
    }
  }

  // ---- purging cannot be observed ----

  /** What a jar will still answer with, from this moment on. */
  function LiveView(flat: FlatJar, now: int): FlatJar {
    map k | k in flat && Live(flat[k], now) :: flat[k]
  }

  /** The jar that never purges: reading changes nothing. */
  function DoLazily(flat: FlatJar, op: Op, now: int): FlatJar {
    if op.OpHeader? || op.OpList? then flat else Do(flat, op, now)
  }

  /** The operations with the times at which they happen. */
  function DoAll(flat: FlatJar, ops: seq<(Op, int)>): FlatJar
    decreases ops
  {
    if ops == [] then flat else DoAll(Do(flat, ops[0].0, ops[0].1), ops[1..])
  }

  function DoAllLazily(flat: FlatJar, ops: seq<(Op, int)>): FlatJar
    decreases ops
  {
    if ops == [] then flat else DoAllLazily(DoLazily(flat, ops[0].0, ops[0].1), ops[1..])
  }

  predicate NotBefore(ops: seq<(Op, int)>, start: int)
    decreases ops
  {
    ops == [] || (start <= ops[0].1 && NotBefore(ops[1..], ops[0].1))
  }

  predicate EndsBy(ops: seq<(Op, int)>, end: int) {
    forall i | 0 <= i < |ops| :: ops[i].1 <= end
  }

  lemma LaterView(a: FlatJar, b: FlatJar, now: int, later: int)
    requires LiveView(a, now) == LiveView(b, now) && now <= later
    ensures LiveView(a, later) == LiveView(b, later)
  {
    forall k ensures k in LiveView(a, later) <==> k in LiveView(b, later) {
      assert k in LiveView(a, now) <==> k in LiveView(b, now);
      assert k in LiveView(a, now) ==> LiveView(a, now)[k] == a[k] == LiveView(b, now)[k] == b[k];
    }
    forall k | k in LiveView(a, later) ensures LiveView(a, later)[k] == LiveView(b, later)[k] {
      assert k in LiveView(a, now) && LiveView(a, now)[k] == LiveView(b, now)[k];
    }
  }

  lemma PurgeUnseen(flat: FlatJar, covers: string -> bool, now: int, later: int)
    requires now <= later
    ensures LiveView(Purged(flat, Expired(covers, now)), later) == LiveView(flat, later)
  {
    var gone := Expired(covers, now);
    var left := Purged(flat, gone);
    forall k ensures k in LiveView(left, later) <==> k in LiveView(flat, later) {
      if k in flat {
        assert Live(flat[k], later) ==> Live(flat[k], now);
        assert gone(flat[k]) ==> !Live(flat[k], now);
        assert k in left <==> !gone(flat[k]);
      }
    }
  }

  lemma StoreSeen(flat: FlatJar, c: Cookie, now: int)
    ensures LiveView(flat[KeyOf(c) := c], now)
         == if Live(c, now) then LiveView(flat, now)[KeyOf(c) := c] else LiveView(flat, now) - {KeyOf(c)}
  {
    var after := flat[KeyOf(c) := c];
    assert forall k :: k in LiveView(after, now) <==> if k == KeyOf(c) then Live(c, now) else k in LiveView(flat, now);
  }

  lemma ClearSeen(flat: FlatJar, gone: string, now: int)
    ensures LiveView(Purged(flat, ClearedBy(gone)), now) == Purged(LiveView(flat, now), ClearedBy(gone))
  {
  }

  lemma StepsAgree(a: FlatJar, b: FlatJar, op: Op, now: int)
    requires LiveView(a, now) == LiveView(b, now)
    ensures LiveView(Do(a, op, now), now) == LiveView(DoLazily(b, op, now), now)
  {
    match op {
      case OpStore(c) =>
        StoreSeen(a, c, now);
        StoreSeen(b, c, now);
      case OpHeader(host) => PurgeUnseen(a, Matching(host), now, now);
      case OpList(filter) => PurgeUnseen(a, Covered(filter), now, now);
      case OpClear(None) =>
      case OpClear(Some(d)) =>
        ClearSeen(a, T.LowerAscii(d), now);
        ClearSeen(b, T.LowerAscii(d), now);
    }
  }

  /** When the clock never goes back, a jar that purges and one that does not have the same live cookies after any operations. */
  lemma {:induction false} RunsAgree(a: FlatJar, b: FlatJar, ops: seq<(Op, int)>, start: int, end: int)
    requires LiveView(a, start) == LiveView(b, start) && NotBefore(ops, start) && EndsBy(ops, end) && start <= end
    ensures LiveView(DoAll(a, ops), end) == LiveView(DoAllLazily(b, ops), end)
    decreases ops
  {
    if ops == [] {
      LaterView(a, b, start, end);
    } else {
      var (op, now) := ops[0];
      LaterView(a, b, start, now);
      StepsAgree(a, b, op, now);
      RunsAgree(Do(a, op, now), DoLazily(b, op, now), ops[1..], now, end);
    }
  }

  /** So every later header and list is the same: purging cannot be observed through them. */
  lemma PurgingIsUnobservable(flat: FlatJar, ops: seq<(Op, int)>, start: int, now: int, host: string,
                              filter: Option<string>, listed: seq<Cookie>)
    requires NotBefore(ops, start) && EndsBy(ops, now) && start <= now && KeyedRight(flat)
    ensures ListsExactly(listed, DoAll(flat, ops), Sends(host, now)) <==> ListsExactly(listed, DoAllLazily(flat, ops), Sends(host, now))
    ensures ListsExactly(listed, DoAll(flat, ops), Listable(filter, now)) <==> ListsExactly(listed, DoAllLazily(flat, ops), Listable(filter, now))
  {
    RunsAgree(flat, flat, ops, start, now);
    SameListings(DoAll(flat, ops), DoAllLazily(flat, ops), Sends(host, now), now, listed);
    SameListings(DoAll(flat, ops), DoAllLazily(flat, ops), Listable(filter, now), now, listed);
  }

  lemma SameListings(a: FlatJar, b: FlatJar, wanted: Cookie -> bool, now: int, listed: seq<Cookie>)
    requires LiveView(a, now) == LiveView(b, now) && forall c :: wanted(c) ==> Live(c, now)
    ensures ListsExactly(listed, a, wanted) <==> ListsExactly(listed, b, wanted)
  {
    forall c: Cookie | wanted(c)
      ensures (KeyOf(c) in a && a[KeyOf(c)] == c) <==> (KeyOf(c) in b && b[KeyOf(c)] == c)
    {
      var k := KeyOf(c);
      assert k in LiveView(a, now) <==> k in LiveView(b, now);
      assert k in LiveView(a, now) ==> LiveView(a, now)[k] == LiveView(b, now)[k];
    }
  }

  /** Counting does observe it: an expired cookie is counted until some header or list has purged it. */
  lemma CountingSeesPurges(c: Cookie, host: string, now: int)
    requires Covers(c.domain, host) && !Unexpired(c, now)
    ensures var jar: FlatJar := map[KeyOf(c) := c];
      |Do(jar, OpHeader(host), now)| == 0 && |DoLazily(jar, OpHeader(host), now)| == 1
  {
    var jar: FlatJar := map[KeyOf(c) := c];
    SendsMeans(host, now, c);
    assert Expired(Matching(host), now)(c);
    assert Do(jar, OpHeader(host), now) == map[];
  }
}
