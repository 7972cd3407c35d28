/** The canonical query string of the AWS Signature Version 4 signer. */
module SigningQuery {
  import opened PercentEncoding
  import opened Sorting

  // ---- the order the signer sorts by: bytewise, name first ----

  predicate BytesLe(a: seq<byte>, b: seq<byte>) {
    a == [] || (b != [] && (a[0] < b[0] || (a[0] == b[0] && BytesLe(a[1..], b[1..]))))
  }

  predicate PairLe(p: Pair, q: Pair) {
    if p.0 == q.0 then BytesLe(p.1, q.1) else BytesLe(p.0, q.0)
  }

  lemma {:induction false} BytesLeTotal(a: seq<byte>, b: seq<byte>)
    ensures BytesLe(a, b) || BytesLe(b, a)
  {
    if a != [] && b != [] {
      BytesLeTotal(a[1..], b[1..]);
    }
  }

  lemma {:induction false} BytesLeAntisymmetric(a: seq<byte>, b: seq<byte>)
    requires BytesLe(a, b) && BytesLe(b, a)
    ensures a == b
  {
    if a != [] {
      BytesLeAntisymmetric(a[1..], b[1..]);
      assert a == [a[0]] + a[1..] && b == [b[0]] + b[1..];
    }
  }

  lemma {:induction false} BytesLeTransitive(a: seq<byte>, b: seq<byte>, c: seq<byte>)
    requires BytesLe(a, b) && BytesLe(b, c)
    ensures BytesLe(a, c)
  {
    if a != [] && a[0] == b[0] == c[0] {
      BytesLeTransitive(a[1..], b[1..], c[1..]);
    }
  }

  lemma PairLeTotal(p: Pair, q: Pair)
    ensures PairLe(p, q) || PairLe(q, p)
  {
    BytesLeTotal(p.0, q.0);
    BytesLeTotal(p.1, q.1);
  }

  lemma PairLeAntisymmetric(p: Pair, q: Pair)
    requires PairLe(p, q) && PairLe(q, p)
    ensures p == q
  {
    if p.0 != q.0 {
      BytesLeAntisymmetric(p.0, q.0);
    } else {
      BytesLeAntisymmetric(p.1, q.1);
    }
  }

  lemma PairLeTransitive(p: Pair, q: Pair, r: Pair)
    requires PairLe(p, q) && PairLe(q, r)
    ensures PairLe(p, r)
  {
    if p.0 == q.0 && q.0 == r.0 {
      BytesLeTransitive(p.1, q.1, r.1);
    } else if p.0 != q.0 && q.0 != r.0 {
      if p.0 == r.0 {
        BytesLeAntisymmetric(p.0, q.0);
      } else {
        BytesLeTransitive(p.0, q.0, r.0);
      }
    }
  }

  lemma PairOrder()
    ensures IsTotalPreorder(PairLe) && forall p, q :: PairLe(p, q) && PairLe(q, p) ==> p == q
  {
    forall p, q ensures PairLe(p, q) || PairLe(q, p) { PairLeTotal(p, q); }
    forall p, q | PairLe(p, q) && PairLe(q, p) ensures p == q { PairLeAntisymmetric(p, q); }
    forall p, q, r | PairLe(p, q) && PairLe(q, r) ensures PairLe(p, r) { PairLeTransitive(p, q, r); }
  }

  /** The first is a beginning of the second, or smaller where they first differ. */
  ghost predicate AtMost(a: seq<byte>, b: seq<byte>) {
    exists n | 0 <= n <= |a| && n <= |b| :: a[..n] == b[..n] && (n == |a| || (n < |b| && a[n] < b[n]))
  }

  lemma {:induction false} BytesLeMeans(a: seq<byte>, b: seq<byte>)
    ensures BytesLe(a, b) <==> AtMost(a, b)
  {
    if a == [] {
      assert a[..0] == b[..0];
    } else if b != [] && a[0] == b[0] {
      BytesLeMeans(a[1..], b[1..]);
      if n :| 0 <= n <= |a[1..]| && n <= |b[1..]| && a[1..][..n] == b[1..][..n] && (n == |a[1..]| || (n < |b[1..]| && a[1..][n] < b[1..][n])) {
        assert a[..n + 1] == [a[0]] + a[1..][..n] && b[..n + 1] == [b[0]] + b[1..][..n];
      }
      if n :| 0 <= n <= |a| && n <= |b| && a[..n] == b[..n] && (n == |a| || (n < |b| && a[n] < b[n])) {
        assert n > 0;
        assert a[1..][..n - 1] == a[..n][1..] == b[..n][1..] == b[1..][..n - 1];
      }
    } else if b != [] {
      if a[0] < b[0] { assert a[..0] == b[..0]; }
    }
  }

  // ---- the canonical query string ----

  function CanonicalQuery(pairs: seq<Pair>): string {
    FormText(Sort(pairs, PairLe))
  }

  /** The listing's names ascend, and the values of one name ascend. */
  ghost predicate Ascending(pairs: seq<Pair>) {
    forall i, j | 0 <= i < j < |pairs| ::
      if pairs[i].0 == pairs[j].0 then AtMost(pairs[i].1, pairs[j].1) else AtMost(pairs[i].0, pairs[j].0)
  }

  /** The signed query text lists the request's pairs, each as often as the request has it, in ascending order. */
  lemma CanonicalQueryIsSorted(pairs: seq<Pair>) returns (listed: seq<Pair>)
    ensures CanonicalQuery(pairs) == FormText(listed) && multiset(listed) == multiset(pairs) && Ascending(listed)
  {
    listed := Sort(pairs, PairLe);
    PairOrder();
    SortSorts(pairs, PairLe);
    forall i, j | 0 <= i < j < |listed|
      ensures if listed[i].0 == listed[j].0 then AtMost(listed[i].1, listed[j].1) else AtMost(listed[i].0, listed[j].0)
    {
      assert PairLe(listed[i], listed[j]);
      BytesLeMeans(listed[i].0, listed[j].0);
      BytesLeMeans(listed[i].1, listed[j].1);
    }
  }

  /** The signed query text identifies the request's query up to the order of its pairs, and nothing more. */
  lemma CanonicalQueryIsComplete(ps: seq<Pair>, qs: seq<Pair>)
    ensures CanonicalQuery(ps) == CanonicalQuery(qs) <==> multiset(ps) == multiset(qs)
  {
    PairOrder();
    SortSorts(ps, PairLe);
    SortSorts(qs, PairLe);
    if CanonicalQuery(ps) == CanonicalQuery(qs) {
      FormTextIsInjective(Sort(ps, PairLe), Sort(qs, PairLe));
    }
    if multiset(ps) == multiset(qs) {
      SortedListingIsUnique(Sort(ps, PairLe), Sort(qs, PairLe), PairLe);
    }
  }
}
