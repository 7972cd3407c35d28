/** Merging a request's headers with the ones its authentication produces. */
module HeaderMerge {
  import opened Wrappers
  import opened Requests
  import T = Text

  datatype KeyValue = KeyValue(enabled: bool, key: string, value: string)

  predicate SameName(a: string, b: string) {
    T.EqIgnoreAsciiCase(a, b)
  }

  predicate IsUsed(kv: KeyValue) {
    kv.enabled && T.Trim(kv.key) != ""
  }

  /** Writes a header over the first one of that name, or after the others. */
  function Write(merged: seq<Header>, key: string, value: string): seq<Header> {
    if merged == [] then [Header(key, value)]
    else if SameName(merged[0].key, key) then [Header(merged[0].key, value)] + merged[1..]
    else [merged[0]] + Write(merged[1..], key, value)
  }

  /** The merge, header by header from the left. */
  function Merged(auth: seq<Header>, headers: seq<KeyValue>): seq<Header> {
    if headers == [] then auth
    else
      var before := Merged(auth, headers[..|headers| - 1]);
      var last := headers[|headers| - 1];
      if IsUsed(last) then Write(before, T.Trim(last.key), last.value) else before
  }

  lemma {:induction false} WriteAt(merged: seq<Header>, key: string, value: string, j: nat)
    requires j <= |merged|
    requires forall i | 0 <= i < j :: !SameName(merged[i].key, key)
    requires j < |merged| ==> SameName(merged[j].key, key)
    ensures Write(merged, key, value)
         == if j < |merged| then merged[j := Header(merged[j].key, value)] else merged + [Header(key, value)]
  {
    if merged != [] && j > 0 {
      WriteAt(merged[1..], key, value, j - 1);
    }
  }

  method MergeHeaders(headers: seq<KeyValue>, auth: seq<Header>) returns (merged: seq<Header>)
    ensures merged == Merged(auth, headers)
  {
    merged := auth;
    for n := 0 to |headers|
      invariant merged == Merged(auth, headers[..n])
    {
      var kv := headers[n];
      assert headers[..n + 1][..n] == headers[..n];
      if kv.enabled && T.Trim(kv.key) != "" {
        var key := T.Trim(kv.key);
        var j := 0;
        while j < |merged| && !T.EqIgnoreAsciiCase(merged[j].key, key)
          invariant 0 <= j <= |merged|
          invariant forall i | 0 <= i < j :: !SameName(merged[i].key, key)
        {
          j := j + 1;
        }
        WriteAt(merged, key, kv.value, j);
        if j < |merged| {
          merged := merged[j := Header(merged[j].key, kv.value)];
        } else {
          merged := merged + [Header(key, kv.value)];
        }
      }
    }
    assert headers[..|headers|] == headers;
  }

  // ---- what the merge means: a map without regard to case ----

  /** The value a name has, ignoring case. */
  function ValueOf(merged: seq<Header>, name: string): Option<string> {
    if merged == [] then None
    else if SameName(merged[0].key, name) then Some(merged[0].value)
    else ValueOf(merged[1..], name)
  }

  /** The last enabled header of a name. */
  function LastWritten(headers: seq<KeyValue>, name: string): Option<string> {
    if headers == [] then None
    else
      var last := headers[|headers| - 1];
      if IsUsed(last) && SameName(T.Trim(last.key), name) then Some(last.value)
      else LastWritten(headers[..|headers| - 1], name)
  }

  lemma {:induction false} WriteIsUpdate(merged: seq<Header>, key: string, value: string, name: string)
    ensures ValueOf(Write(merged, key, value), name)
         == if SameName(key, name) then Some(value) else ValueOf(merged, name)
  {
    if merged != [] && !SameName(merged[0].key, key) {
      WriteIsUpdate(merged[1..], key, value, name);
    }
  }

  /** Each name ends with the value last written to it, the request's own headers over the authentication's. */
  lemma {:induction false} LastWriterWins(auth: seq<Header>, headers: seq<KeyValue>, name: string)
    ensures ValueOf(Merged(auth, headers), name)
         == match LastWritten(headers, name) case Some(v) => Some(v) case None => ValueOf(auth, name)
  {
    if headers != [] {
      var rest, last := headers[..|headers| - 1], headers[|headers| - 1];
      LastWriterWins(auth, rest, name);
      if IsUsed(last) {
        WriteIsUpdate(Merged(auth, rest), T.Trim(last.key), last.value, name);
      }
    }
  }

  /** An enabled header whose name, trimmed, is not empty and is this one in any case. */
  predicate Writes(kv: KeyValue, name: string) {
    kv.enabled && T.Trim(kv.key) != "" && T.EqIgnoreAsciiCase(T.Trim(kv.key), name)
  }

  lemma {:induction false} NothingWritten(headers: seq<KeyValue>, name: string)
    ensures (forall k | 0 <= k < |headers| :: !Writes(headers[k], name)) <==> LastWritten(headers, name) == None
  {
    if headers != [] {
      NothingWritten(headers[..|headers| - 1], name);
    }
  }

  lemma {:induction false} LastWrittenMeans(headers: seq<KeyValue>, name: string, i: nat)
    requires LastWriting(headers, name, i)
    ensures LastWritten(headers, name) == Some(headers[i].value)
  {
    if i < |headers| - 1 {
      LastWrittenMeans(headers[..|headers| - 1], name, i);
    }
  }

  /** The first header of this name, in any case. */
  predicate FirstNamed(merged: seq<Header>, name: string, j: nat) {
    && j < |merged| && T.EqIgnoreAsciiCase(merged[j].key, name)
    && forall k | 0 <= k < j :: !T.EqIgnoreAsciiCase(merged[k].key, name)
  }

  predicate LastWriting(headers: seq<KeyValue>, name: string, i: nat) {
    && i < |headers| && Writes(headers[i], name)
    && forall k | i < k < |headers| :: !Writes(headers[k], name)
  }

  lemma {:induction false} ValueOfMeans(merged: seq<Header>, name: string, j: nat)
    ensures (forall k | 0 <= k < |merged| :: !T.EqIgnoreAsciiCase(merged[k].key, name)) <==> ValueOf(merged, name) == None
    ensures FirstNamed(merged, name, j) ==> ValueOf(merged, name) == Some(merged[j].value)
  {
    if merged != [] {
      ValueOfMeans(merged[1..], name, if j > 0 then j - 1 else 0);
      assert merged == [merged[0]] + merged[1..];
    }
  }

  /** In the merged list, the first header of a name has the value of the last enabled one of that name among
      the request's; without one it has the authentication's. */
  lemma LastHeaderWins(auth: seq<Header>, headers: seq<KeyValue>, name: string, i: nat, j: nat)
    requires FirstNamed(Merged(auth, headers), name, j)
    ensures LastWriting(headers, name, i) ==> Merged(auth, headers)[j].value == headers[i].value
    ensures FirstNamed(auth, name, i) && (forall k | 0 <= k < |headers| :: !Writes(headers[k], name)) ==>
      Merged(auth, headers)[j].value == auth[i].value
  {
    ValueOfMeans(Merged(auth, headers), name, j);
    LastWriterWins(auth, headers, name);
    NothingWritten(headers, name);
    if LastWriting(headers, name, i) {
      LastWrittenMeans(headers, name, i);
    }
    ValueOfMeans(auth, name, i);
  }

  /** Every name written, and every one of the authentication's, is there; nothing else is. */
  lemma NothingElseIsMerged(auth: seq<Header>, headers: seq<KeyValue>, name: string)
    ensures (exists j | 0 <= j < |Merged(auth, headers)| :: T.EqIgnoreAsciiCase(Merged(auth, headers)[j].key, name))
       <==> (exists i | 0 <= i < |headers| :: Writes(headers[i], name)) || (exists i | 0 <= i < |auth| :: T.EqIgnoreAsciiCase(auth[i].key, name))
  {
    ValueOfMeans(Merged(auth, headers), name, 0);
    LastWriterWins(auth, headers, name);
    NothingWritten(headers, name);
    ValueOfMeans(auth, name, 0);
  }

  function Names(merged: seq<Header>): (names: seq<string>)
    ensures |names| == |merged| && forall i | 0 <= i < |names| :: names[i] == merged[i].key
  {
    seq(|merged|, i requires 0 <= i < |merged| => merged[i].key)
  }

  ghost predicate Distinct(names: seq<string>) {
    NoTwoAlike(names, SameName)
  }

  ghost predicate NoTwoAlike<X>(xs: seq<X>, alike: (X, X) -> bool) {
    forall i, j | 0 <= i < j < |xs| :: !alike(xs[i], xs[j])
  }

  lemma NoTwoAlikeSnoc<X>(xs: seq<X>, alike: (X, X) -> bool, x: X)
    requires NoTwoAlike(xs, alike) && forall i | 0 <= i < |xs| :: !alike(xs[i], x)
    ensures NoTwoAlike(xs + [x], alike)
  {
  }

  function FirstOf(merged: seq<Header>, key: string): (j: nat)
    ensures j <= |merged| && forall i | 0 <= i < j :: !SameName(merged[i].key, key)
    ensures j < |merged| ==> SameName(merged[j].key, key)
  {
    if merged == [] || SameName(merged[0].key, key) then 0 else 1 + FirstOf(merged[1..], key)
  }

  /** A write leaves the names as they are, or puts one that was not there at the end. */
  lemma WriteKeepsNames(merged: seq<Header>, key: string, value: string)
    requires Distinct(Names(merged))
    ensures Distinct(Names(Write(merged, key, value)))
    ensures Names(merged) <= Names(Write(merged, key, value))
  {
    var j := FirstOf(merged, key);
    WriteAt(merged, key, value, j);
    if j < |merged| {
      assert Names(Write(merged, key, value)) == Names(merged);
    } else {
      assert Names(Write(merged, key, value)) == Names(merged) + [key];
      NoTwoAlikeSnoc(Names(merged), SameName, key);
    }
  }

  /** No name comes out twice, and the names already written keep their place and spelling. */
  lemma {:induction false} NamesStayDistinct(auth: seq<Header>, headers: seq<KeyValue>)
    requires Distinct(Names(auth))
    ensures Distinct(Names(Merged(auth, headers)))
    ensures Names(auth) <= Names(Merged(auth, headers))
  {
    if headers != [] {
      var rest, last := headers[..|headers| - 1], headers[|headers| - 1];
      NamesStayDistinct(auth, rest);
      if IsUsed(last) {
        WriteKeepsNames(Merged(auth, rest), T.Trim(last.key), last.value);
      }
    }
  }
}
