/** The worker pool shared by the collection runner and the load runner: a fixed number of
    workers claim indices from an atomic counter, work on a shared value in steps that other
    workers may interleave with, and report over a bounded channel to one aggregator. A
    cancellation can arrive at any moment. */
module WorkerPool {
  import opened Wrappers

  /** One uninterrupted stretch of an item's work: go on, or be done. */
  datatype Micro<F, V, R> = Next(frame: F, vars: V) | Finish(result: R, vars: V)

  datatype Job<!I, !F, !V, !R> = Job(items: seq<I>, begin: (nat, I) -> F, step: (F, V) -> Micro<F, V, R>)

  datatype Worker<F, R> =
    | Polling
    | Claiming
    | Working(idx: nat, frame: F)
    | Reporting(idx: nat, result: R)
    | Stopped

  /** `claims[i]` is the worker that claimed index `i`. */
  datatype Pool<F, V, R> = Pool(
    next: nat,
    workers: seq<Worker<F, R>>,
    vars: V,
    chan: seq<(nat, R)>,
    ordered: seq<Option<R>>,
    cancelled: bool,
    claims: seq<nat>)

  datatype Action = Work(w: nat) | Receive | Cancel

  function Capacity<F, V, R>(s: Pool<F, V, R>): nat {
    2 * |s.workers|
  }

  function Init<I, F, V, R>(job: Job<I, F, V, R>, workers: nat, vars: V): Pool<F, V, R> {
    Pool(0, seq(workers, _ => Polling), vars, [], seq(|job.items|, _ => None), false, [])
  }

  predicate Enabled<I, F, V, R>(job: Job<I, F, V, R>, s: Pool<F, V, R>, a: Action) {
    match a
    case Work(w) =>
      w < |s.workers| && !s.workers[w].Stopped? && (s.workers[w].Reporting? ==> |s.chan| < Capacity(s))
    case Receive => s.chan != [] && s.chan[0].0 < |s.ordered|
    case Cancel => true
  }

  function WorkStep<I, F, V, R>(job: Job<I, F, V, R>, s: Pool<F, V, R>, w: nat): Pool<F, V, R>
    requires Enabled(job, s, Work(w))
  {
    match s.workers[w]
    case Polling =>
      s.(workers := s.workers[w := if s.cancelled then Stopped else Claiming])
    case Claiming =>
      if s.next >= |job.items| then
        s.(next := s.next + 1, workers := s.workers[w := Stopped])
      else
        s.(next := s.next + 1, workers := s.workers[w := Working(s.next, job.begin(s.next, job.items[s.next]))],
           claims := s.claims + [w])
    case Working(idx, frame) =>
      (match job.step(frame, s.vars)
       case Next(frame', vars') => s.(workers := s.workers[w := Working(idx, frame')], vars := vars')
       case Finish(result, vars') => s.(workers := s.workers[w := Reporting(idx, result)], vars := vars'))
    case Reporting(idx, result) =>
      s.(workers := s.workers[w := Polling], chan := s.chan + [(idx, result)])
  }

  function Apply<I, F, V, R>(job: Job<I, F, V, R>, s: Pool<F, V, R>, a: Action): Pool<F, V, R>
    requires Enabled(job, s, a)
  {
    match a
    case Work(w) => WorkStep(job, s, w)
    case Receive =>
      s.(chan := s.chan[1..], ordered := s.ordered[s.chan[0].0 := Some(s.chan[0].1)])
    case Cancel => s.(cancelled := true)
  }

  predicate Run<I, F, V, R>(job: Job<I, F, V, R>, s: Pool<F, V, R>, actions: seq<Action>)
    decreases |actions|
  {
    actions == [] || (Enabled(job, s, actions[0]) && Run(job, Apply(job, s, actions[0]), actions[1..]))
  }

  function Exec<I, F, V, R>(job: Job<I, F, V, R>, s: Pool<F, V, R>, actions: seq<Action>): Pool<F, V, R>
    requires Run(job, s, actions)
    decreases |actions|
  {
    if actions == [] then s else Exec(job, Apply(job, s, actions[0]), actions[1..])
  }

  /** The aggregator's loop is over: every sender is gone and the channel is drained. */
  predicate Finished<F, V, R>(s: Pool<F, V, R>) {
    s.chan == [] && forall w | 0 <= w < |s.workers| :: s.workers[w].Stopped?
  }

  /** `ordered.into_iter().flatten()` */
  function Flatten<R>(ordered: seq<Option<R>>): seq<R> {
    if ordered == [] then []
    else (if ordered[0].Some? then [ordered[0].value] else []) + Flatten(ordered[1..])
  }

  function Results<F, V, R>(s: Pool<F, V, R>): seq<R> {
    Flatten(s.ordered)
  }

  function Min(a: nat, b: nat): nat {
    if a < b then a else b
  }

  // ---------- Claims, messages and results under every schedule ----------

  predicate StepSound<F, V, R>(m: Micro<F, V, R>, i: nat, fits: (nat, F) -> bool, fine: (nat, R) -> bool) {
    if m.Next? then fits(i, m.frame) else fine(i, m.result)
  }

  /** `fits` is kept by the steps of an item's work, and makes its result `fine`. */
  ghost predicate Sound<I, F(!new), V(!new), R(!new)>(
      job: Job<I, F, V, R>, fits: (nat, F) -> bool, fine: (nat, R) -> bool) {
    && (forall i: nat | i < |job.items| :: fits(i, job.begin(i, job.items[i])))
    && (forall i: nat, f: F, v: V :: fits(i, f) ==> StepSound(job.step(f, v), i, fits, fine))
  }

  predicate Busy<F, R>(w: Worker<F, R>, i: nat) {
    (w.Working? || w.Reporting?) && w.idx == i
  }

  predicate InChannel<R>(chan: seq<(nat, R)>, i: nat) {
    exists p | 0 <= p < |chan| :: chan[p].0 == i
  }

  ghost predicate WorkersOk<F, V, R>(s: Pool<F, V, R>, fits: (nat, F) -> bool, fine: (nat, R) -> bool)
    requires |s.claims| <= |s.ordered|
  {
    && (forall w | 0 <= w < |s.workers| && (s.workers[w].Working? || s.workers[w].Reporting?) ::
          && s.workers[w].idx < |s.claims| && s.claims[s.workers[w].idx] == w
          && s.ordered[s.workers[w].idx].None? && !InChannel(s.chan, s.workers[w].idx))
    && (forall w | 0 <= w < |s.workers| && s.workers[w].Working? :: fits(s.workers[w].idx, s.workers[w].frame))
    && (forall w | 0 <= w < |s.workers| && s.workers[w].Reporting? :: fine(s.workers[w].idx, s.workers[w].result))
  }

  ghost predicate ChannelOk<F, V, R>(s: Pool<F, V, R>, fine: (nat, R) -> bool)
    requires |s.claims| <= |s.ordered|
  {
    && (forall p | 0 <= p < |s.chan| ::
          s.chan[p].0 < |s.claims| && s.ordered[s.chan[p].0].None? && fine(s.chan[p].0, s.chan[p].1))
    && (forall p, q | 0 <= p < q < |s.chan| :: s.chan[p].0 != s.chan[q].0)
    && |s.chan| <= Capacity(s)
  }

  ghost predicate OrderedOk<F, V, R>(s: Pool<F, V, R>, fine: (nat, R) -> bool) {
    forall i | 0 <= i < |s.ordered| && s.ordered[i].Some? :: i < |s.claims| && fine(i, s.ordered[i].value)
  }

  /** A claimed index is with its claimer, in the channel, or recorded. */
  ghost predicate NothingLost<F, V, R>(s: Pool<F, V, R>)
    requires |s.claims| <= |s.ordered|
  {
    forall i | 0 <= i < |s.claims| ::
      || s.ordered[i].Some?
      || InChannel(s.chan, i)
      || (s.claims[i] < |s.workers| && Busy(s.workers[s.claims[i]], i))
  }

  ghost predicate Shape<I, F, V, R>(job: Job<I, F, V, R>, s: Pool<F, V, R>) {
    && |s.ordered| == |job.items|
    && |s.claims| == Min(s.next, |job.items|)
    && (forall w | 0 <= w < |s.workers| && s.workers[w].Stopped? :: s.cancelled || s.next >= |job.items|)
  }

  ghost predicate PoolInv<I, F, V, R>(
      job: Job<I, F, V, R>, s: Pool<F, V, R>, fits: (nat, F) -> bool, fine: (nat, R) -> bool) {
    Shape(job, s) && WorkersOk(s, fits, fine) && ChannelOk(s, fine) && OrderedOk(s, fine) && NothingLost(s)
  }

  lemma PollingKeepsInv<I, F(!new), V(!new), R(!new)>(
      job: Job<I, F, V, R>, s: Pool<F, V, R>, w: nat, fits: (nat, F) -> bool, fine: (nat, R) -> bool)
    requires PoolInv(job, s, fits, fine) && Enabled(job, s, Work(w)) && s.workers[w].Polling?
    ensures PoolInv(job, WorkStep(job, s, w), fits, fine)
  {
    var s' := WorkStep(job, s, w);
    assert forall u | 0 <= u < |s.workers| && u != w :: s'.workers[u] == s.workers[u];
  }

  lemma ClaimKeepsInv<I, F(!new), V(!new), R(!new)>(
      job: Job<I, F, V, R>, s: Pool<F, V, R>, w: nat, fits: (nat, F) -> bool, fine: (nat, R) -> bool)
    requires PoolInv(job, s, fits, fine) && Sound(job, fits, fine)
    requires Enabled(job, s, Work(w)) && s.workers[w].Claiming?
    ensures PoolInv(job, WorkStep(job, s, w), fits, fine)
  {
    var s' := WorkStep(job, s, w);
    assert forall u | 0 <= u < |s.workers| && u != w :: s'.workers[u] == s.workers[u];
    if s.next < |job.items| {
      assert s.ordered[s.next].None? && !InChannel(s.chan, s.next);
    }
  }

  lemma WorkKeepsInv<I, F(!new), V(!new), R(!new)>(
      job: Job<I, F, V, R>, s: Pool<F, V, R>, w: nat, fits: (nat, F) -> bool, fine: (nat, R) -> bool)
    requires PoolInv(job, s, fits, fine) && Sound(job, fits, fine)
    requires Enabled(job, s, Work(w)) && s.workers[w].Working?
    ensures PoolInv(job, WorkStep(job, s, w), fits, fine)
  {
    var s' := WorkStep(job, s, w);
    assert forall u | 0 <= u < |s.workers| && u != w :: s'.workers[u] == s.workers[u];
    assert StepSound(job.step(s.workers[w].frame, s.vars), s.workers[w].idx, fits, fine);
  }

  lemma InChannelSnoc<R>(chan: seq<(nat, R)>, message: (nat, R))
    ensures forall i: nat :: InChannel(chan + [message], i) <==> InChannel(chan, i) || i == message.0
  {
    assert (chan + [message])[|chan|] == message;
    forall i: nat | InChannel(chan, i)
      ensures InChannel(chan + [message], i)
    {
      var p :| 0 <= p < |chan| && chan[p].0 == i;
      assert (chan + [message])[p].0 == i;
    }
  }

  lemma ReportKeepsInv<I, F(!new), V(!new), R(!new)>(
      job: Job<I, F, V, R>, s: Pool<F, V, R>, w: nat, fits: (nat, F) -> bool, fine: (nat, R) -> bool)
    requires PoolInv(job, s, fits, fine)
    requires Enabled(job, s, Work(w)) && s.workers[w].Reporting?
    ensures PoolInv(job, WorkStep(job, s, w), fits, fine)
  {
    var s' := WorkStep(job, s, w);
    var idx := s.workers[w].idx;
    assert forall u | 0 <= u < |s.workers| && u != w :: s'.workers[u] == s.workers[u];
    InChannelSnoc(s.chan, (idx, s.workers[w].result));
  }

  lemma ReceiveKeepsInv<I, F(!new), V(!new), R(!new)>(
      job: Job<I, F, V, R>, s: Pool<F, V, R>, fits: (nat, F) -> bool, fine: (nat, R) -> bool)
    requires PoolInv(job, s, fits, fine) && Enabled(job, s, Receive)
    ensures PoolInv(job, Apply(job, s, Receive), fits, fine)
  {
    InChannelTail(s.chan, s.chan[1..]);
  }

  lemma InChannelTail<R>(chan: seq<(nat, R)>, rest: seq<(nat, R)>)
    requires chan != [] && rest == chan[1..]
    ensures forall i: nat :: InChannel(chan, i) <==> InChannel(rest, i) || i == chan[0].0
  {
    forall i: nat
      ensures InChannel(chan, i) <==> InChannel(rest, i) || i == chan[0].0
    {
      if InChannel(chan, i) && i != chan[0].0 {
        var p :| 0 <= p < |chan| && chan[p].0 == i;
        assert rest[p - 1].0 == i;
      }
    }
  }

  lemma PoolInvStep<I, F(!new), V(!new), R(!new)>(
      job: Job<I, F, V, R>, s: Pool<F, V, R>, a: Action, fits: (nat, F) -> bool, fine: (nat, R) -> bool)
    requires PoolInv(job, s, fits, fine) && Sound(job, fits, fine) && Enabled(job, s, a)
    ensures PoolInv(job, Apply(job, s, a), fits, fine)
  {
    match a
    case Work(w) =>
      match s.workers[w] {
        case Polling => PollingKeepsInv(job, s, w, fits, fine);
        case Claiming => ClaimKeepsInv(job, s, w, fits, fine);
        case Working(_, _) => WorkKeepsInv(job, s, w, fits, fine);
        case Reporting(_, _) => ReportKeepsInv(job, s, w, fits, fine);
      }
    case Receive => ReceiveKeepsInv(job, s, fits, fine);
    case Cancel =>
  }

  /** Every schedule and every cancellation point keeps the invariant. */
  lemma {:induction false} RunKeepsInv<I, F(!new), V(!new), R(!new)>(
      job: Job<I, F, V, R>, s: Pool<F, V, R>, actions: seq<Action>, fits: (nat, F) -> bool, fine: (nat, R) -> bool)
    requires PoolInv(job, s, fits, fine) && Sound(job, fits, fine) && Run(job, s, actions)
    ensures PoolInv(job, Exec(job, s, actions), fits, fine)
    ensures |Exec(job, s, actions).workers| == |s.workers|
    decreases |actions|
  {
    if actions != [] {
      PoolInvStep(job, s, actions[0], fits, fine);
      RunKeepsInv(job, Apply(job, s, actions[0]), actions[1..], fits, fine);
    }
  }

  lemma {:induction false} FlattenPrefix<R>(ordered: seq<Option<R>>, m: nat)
    requires m <= |ordered|
    requires forall i | 0 <= i < |ordered| :: ordered[i].Some? <==> i < m
    ensures |Flatten(ordered)| == m
    ensures forall i | 0 <= i < m :: Flatten(ordered)[i] == ordered[i].value
  {
    if ordered != [] {
      FlattenPrefix(ordered[1..], if m == 0 then 0 else m - 1);
      forall i | 0 <= i < m
        ensures Flatten(ordered)[i] == ordered[i].value
      {
        assert i > 0 ==> ordered[i] == ordered[1..][i - 1];
      }
    }
  }

  /** Once the aggregator is done, the recorded results are those of exactly the claimed
      indices, which are a prefix of the input: all of it unless the run was cancelled. */
  lemma FinishedIsPrefix<I, F(!new), V(!new), R(!new)>(
      job: Job<I, F, V, R>, s: Pool<F, V, R>, fits: (nat, F) -> bool, fine: (nat, R) -> bool)
    requires PoolInv(job, s, fits, fine) && Finished(s) && |s.workers| > 0
    ensures |Results(s)| == |s.claims| <= |job.items|
    ensures forall i | 0 <= i < |s.claims| :: s.ordered[i] == Some(Results(s)[i]) && fine(i, Results(s)[i])
    ensures !s.cancelled ==> |Results(s)| == |job.items|
  {
    FlattenPrefix(s.ordered, |s.claims|);
    assert s.workers[0].Stopped?;
  }

  /** The results of any finished run, whatever the schedule and the cancellation point, are
      fine results of a gap-free prefix of the items, in input order. */
  lemma GapFreeResults<I, F(!new), V(!new), R(!new)>(
      job: Job<I, F, V, R>, workers: nat, vars: V, actions: seq<Action>, fits: (nat, F) -> bool, fine: (nat, R) -> bool)
    requires Sound(job, fits, fine) && workers > 0
    requires Run(job, Init(job, workers, vars), actions)
    requires Finished(Exec(job, Init(job, workers, vars), actions))
    ensures var s := Exec(job, Init(job, workers, vars), actions);
            && |Results(s)| <= |job.items|
            && (forall i | 0 <= i < |Results(s)| :: fine(i, Results(s)[i]))
            && (!s.cancelled ==> |Results(s)| == |job.items|)
  {
    RunKeepsInv(job, Init(job, workers, vars), actions, fits, fine);
    FinishedIsPrefix(job, Exec(job, Init(job, workers, vars), actions), fits, fine);
  }

  /** The bounded channel cannot wedge the pool: until it is finished, some worker or the
      aggregator can go on. */
  lemma NoDeadlock<I, F(!new), V(!new), R(!new)>(
      job: Job<I, F, V, R>, s: Pool<F, V, R>, fits: (nat, F) -> bool, fine: (nat, R) -> bool)
    requires PoolInv(job, s, fits, fine) && !Finished(s)
    ensures exists a :: a != Cancel && Enabled(job, s, a)
  {
    if s.chan != [] {
      assert Enabled(job, s, Receive);
    } else {
      var w: nat :| w < |s.workers| && !s.workers[w].Stopped?;
      assert Enabled(job, s, Work(w));
    }
  }

  /** A claim is for good: later steps only append to the claims, so no index is claimed by a
      second worker and none is claimed twice. */
  lemma {:induction false} ClaimsAreForGood<I, F, V, R>(job: Job<I, F, V, R>, s: Pool<F, V, R>, actions: seq<Action>)
    requires Run(job, s, actions)
    ensures s.claims <= Exec(job, s, actions).claims
    decreases |actions|
  {
    if actions != [] {
      ClaimsAreForGood(job, Apply(job, s, actions[0]), actions[1..]);
    }
  }

  /** The counter counts the fetches, those past the end of the input included. */
  lemma CounterCountsFetches<I, F, V, R>(job: Job<I, F, V, R>, s: Pool<F, V, R>, a: Action)
    requires Enabled(job, s, a)
    ensures Apply(job, s, a).next == s.next + if a.Work? && s.workers[a.w].Claiming? then 1 else 0
  {
  }

  /** A worker with a result waits exactly while two messages a worker are in the channel. */
  lemma ReportWaitsForRoom<I, F, V, R>(job: Job<I, F, V, R>, s: Pool<F, V, R>, w: nat)
    requires w < |s.workers| && s.workers[w].Reporting?
    ensures Enabled(job, s, Work(w)) <==> |s.chan| < 2 * |s.workers|
  {
  }

  lemma {:induction false} ChannelIsBounded<I, F, V, R>(job: Job<I, F, V, R>, s: Pool<F, V, R>, actions: seq<Action>)
    requires Run(job, s, actions) && |s.chan| <= 2 * |s.workers|
    ensures |Exec(job, s, actions).chan| <= 2 * |s.workers| && |Exec(job, s, actions).workers| == |s.workers|
    decreases |actions|
  {
    if actions != [] {
      ChannelIsBounded(job, Apply(job, s, actions[0]), actions[1..]);
    }
  }

  /** A cancellation can come at any time, and a run counts as cancelled if and only if it had one. */
  lemma {:induction false} CancelledMeans<I, F, V, R>(job: Job<I, F, V, R>, s: Pool<F, V, R>, actions: seq<Action>)
    requires Run(job, s, actions)
    ensures Enabled(job, s, Cancel)
    ensures Exec(job, s, actions).cancelled <==> s.cancelled || exists i | 0 <= i < |actions| :: actions[i].Cancel?
    decreases |actions|
  {
    if actions != [] {
      var rest := actions[1..];
      CancelledMeans(job, Apply(job, s, actions[0]), rest);
      assert forall i | 0 < i < |actions| :: actions[i] == rest[i - 1];
      if i :| 0 <= i < |rest| && rest[i].Cancel? {
        assert actions[i + 1].Cancel?;
      }
    }
  }

  /** Without a cancellation a finished run has a result for every item. */
  lemma UncancelledRunsAreWhole<I, F(!new), V(!new), R(!new)>(
      job: Job<I, F, V, R>, workers: nat, vars: V, actions: seq<Action>, fits: (nat, F) -> bool, fine: (nat, R) -> bool)
    requires Sound(job, fits, fine) && workers > 0
    requires Run(job, Init(job, workers, vars), actions)
    requires Finished(Exec(job, Init(job, workers, vars), actions))
    requires forall i | 0 <= i < |actions| :: !actions[i].Cancel?
    ensures |Results(Exec(job, Init(job, workers, vars), actions))| == |job.items|
  {
    CancelledMeans(job, Init(job, workers, vars), actions);
    GapFreeResults(job, workers, vars, actions, fits, fine);
  }

  /** After a cancellation only a worker that was about to claim still claims, and only once. */
  lemma {:induction false} CancellationStopsClaims<I, F, V, R>(job: Job<I, F, V, R>, s: Pool<F, V, R>, actions: seq<Action>)
    requires Run(job, s, actions) && s.cancelled
    ensures var claims := Exec(job, s, actions).claims;
      && |claims| >= |s.claims|
      && (forall i | |s.claims| <= i < |claims| :: claims[i] < |s.workers| && s.workers[claims[i]].Claiming?)
      && (forall i, j | |s.claims| <= i < j < |claims| :: claims[i] != claims[j])
    decreases |actions|
  {
    if actions != [] {
      var s' := Apply(job, s, actions[0]);
      CancellationStopsClaims(job, s', actions[1..]);
      ClaimsAreForGood(job, s', actions[1..]);
    }
  }

  /** The messages an execution's aggregator receives, in order. */
  function Received<I, F, V, R>(job: Job<I, F, V, R>, s: Pool<F, V, R>, actions: seq<Action>): seq<(nat, R)>
    requires Run(job, s, actions)
    decreases |actions|
  {
    if actions == [] then []
    else (if actions[0].Receive? then [s.chan[0]] else []) + Received(job, Apply(job, s, actions[0]), actions[1..])
  }

  lemma {:induction false} FillOneSlot<R>(ordered: seq<Option<R>>, i: nat, r: R)
    requires i < |ordered| && ordered[i].None?
    ensures |Flatten(ordered[i := Some(r)])| == |Flatten(ordered)| + 1
  {
    if i > 0 {
      assert ordered[i := Some(r)][1..] == ordered[1..][i - 1 := Some(r)];
      FillOneSlot(ordered[1..], i - 1, r);
    }
  }

  /** Every received message fills a slot of its own. */
  lemma {:induction false} OneSlotPerMessage<I, F(!new), V(!new), R(!new)>(
      job: Job<I, F, V, R>, s: Pool<F, V, R>, actions: seq<Action>, fits: (nat, F) -> bool, fine: (nat, R) -> bool)
    requires PoolInv(job, s, fits, fine) && Sound(job, fits, fine) && Run(job, s, actions)
    ensures |Results(Exec(job, s, actions))| == |Results(s)| + |Received(job, s, actions)|
    ensures forall p | 0 <= p < |Received(job, s, actions)| ::
      fine(Received(job, s, actions)[p].0, Received(job, s, actions)[p].1)
    decreases |actions|
  {
    if actions != [] {
      PoolInvStep(job, s, actions[0], fits, fine);
      MessageFillsSlot(job, s, actions[0], fits, fine);
      OneSlotPerMessage(job, Apply(job, s, actions[0]), actions[1..], fits, fine);
    }
  }

  lemma MessageFillsSlot<I, F(!new), V(!new), R(!new)>(
      job: Job<I, F, V, R>, s: Pool<F, V, R>, a: Action, fits: (nat, F) -> bool, fine: (nat, R) -> bool)
    requires PoolInv(job, s, fits, fine) && Enabled(job, s, a)
    ensures |Results(Apply(job, s, a))| == |Results(s)| + if a.Receive? then 1 else 0
    ensures a.Receive? ==> fine(s.chan[0].0, s.chan[0].1)
  {
    if a.Receive? {
      FillOneSlot(s.ordered, s.chan[0].0, s.chan[0].1);
    } else {
      assert Apply(job, s, a).ordered == s.ordered;
    }
  }

  lemma {:induction false} NoResultsYet<R>(n: nat)
    ensures Flatten<R>(seq(n, _ => None)) == []
  {
    if n > 0 {
      assert seq<Option<R>>(n, _ => None)[1..] == seq<Option<R>>(n - 1, _ => None);
      NoResultsYet<R>(n - 1);
    }
  }

  // ---------- The pool ends ----------

  /** Every item's work is bounded: it begins below `bound`, and going on makes it smaller. */
  ghost predicate Shrinks<I, F(!new), V(!new), R(!new)>(job: Job<I, F, V, R>, size: F -> nat, bound: nat) {
    && (forall i: nat | i < |job.items| :: size(job.begin(i, job.items[i])) < bound)
    && (forall f: F, v: V :: StepShrinks(job.step(f, v), size, size(f)))
  }

  predicate StepShrinks<F, V, R>(m: Micro<F, V, R>, size: F -> nat, before: nat) {
    m.Next? ==> size(m.frame) < before
  }

  /** What a worker still has to do with what it holds. */
  function Load<F, R>(w: Worker<F, R>, size: F -> nat): nat {
    match w
    case Stopped => 0
    case Claiming => 1
    case Polling => 2
    case Reporting(_, _) => 4
    case Working(_, f) => 5 + size(f)
  }

  function Loads<F, R>(ws: seq<Worker<F, R>>, size: F -> nat): nat {
    if ws == [] then 0 else Loads(ws[..|ws| - 1], size) + Load(ws[|ws| - 1], size)
  }

  function Unclaimed<I, F, V, R>(job: Job<I, F, V, R>, s: Pool<F, V, R>): nat {
    if s.next < |job.items| then |job.items| - s.next else 0
  }

  /** How many steps of workers and aggregator can still come. */
  function Remaining<I, F, V, R>(job: Job<I, F, V, R>, s: Pool<F, V, R>, size: F -> nat, bound: nat): nat {
    Unclaimed(job, s) * (bound + 4) + Loads(s.workers, size) + |s.chan|
  }

  lemma {:induction false} LoadsUpdate<F, R>(ws: seq<Worker<F, R>>, w: nat, after: Worker<F, R>, size: F -> nat)
    requires w < |ws|
    ensures Loads(ws[w := after], size) + Load(ws[w], size) == Loads(ws, size) + Load(after, size)
  {
    var n := |ws| - 1;
    var updated := ws[w := after];
    if w < n {
      LoadsUpdate(ws[..n], w, after, size);
      assert updated[..n] == ws[..n][w := after] && updated[n] == ws[n];
    } else {
      assert updated[..n] == ws[..n];
    }
  }

  lemma OneLessUnclaimed(unclaimed: nat, cost: nat)
    requires unclaimed > 0
    ensures unclaimed * cost == (unclaimed - 1) * cost + cost
  {
  }

  lemma WorkShrinks<I, F(!new), V(!new), R(!new)>(
      job: Job<I, F, V, R>, s: Pool<F, V, R>, w: nat, size: F -> nat, bound: nat)
    requires Shrinks(job, size, bound) && Enabled(job, s, Work(w))
    ensures Remaining(job, WorkStep(job, s, w), size, bound) < Remaining(job, s, size, bound)
  {
    var s' := WorkStep(job, s, w);
    LoadsUpdate(s.workers, w, s'.workers[w], size);
    assert s'.workers == s.workers[w := s'.workers[w]];
    match s.workers[w] {
      case Claiming =>
        if s.next < |job.items| {
          OneLessUnclaimed(Unclaimed(job, s), bound + 4);
        }
      case Working(_, f) => assert StepShrinks(job.step(f, s.vars), size, size(f));
      case _ =>
    }
  }

  function WorkCount(actions: seq<Action>): nat {
    if actions == [] then 0 else (if actions[0].Cancel? then 0 else 1) + WorkCount(actions[1..])
  }

  /** Under every schedule the pool runs out of steps: cancellations apart, a run is no longer than
      what remained to be done when it began. */
  lemma {:induction false} RunsAreBounded<I, F(!new), V(!new), R(!new)>(
      job: Job<I, F, V, R>, s: Pool<F, V, R>, actions: seq<Action>, size: F -> nat, bound: nat)
    requires Shrinks(job, size, bound) && Run(job, s, actions)
    ensures WorkCount(actions) + Remaining(job, Exec(job, s, actions), size, bound) <= Remaining(job, s, size, bound)
    decreases |actions|
  {
    if actions != [] {
      if actions[0].Work? {
        WorkShrinks(job, s, actions[0].w, size, bound);
      }
      RunsAreBounded(job, Apply(job, s, actions[0]), actions[1..], size, bound);
    }
  }

  lemma {:induction false} IdleLoads<F, R>(ws: seq<Worker<F, R>>, size: F -> nat)
    requires forall w | 0 <= w < |ws| :: ws[w].Polling?
    ensures Loads(ws, size) == 2 * |ws|
  {
    if ws != [] {
      IdleLoads(ws[..|ws| - 1], size);
    }
  }

  /** From the start: at most `bound + 4` steps an item and two a worker. */
  lemma PoolEnds<I, F(!new), V(!new), R(!new)>(
      job: Job<I, F, V, R>, workers: nat, vars: V, actions: seq<Action>, size: F -> nat, bound: nat)
    requires Shrinks(job, size, bound) && Run(job, Init(job, workers, vars), actions)
    ensures WorkCount(actions) <= |job.items| * (bound + 4) + 2 * workers
  {
    RunsAreBounded(job, Init(job, workers, vars), actions, size, bound);
    IdleLoads(Init(job, workers, vars).workers, size);
  }

  /** From every state the invariant allows, the pool can be run to its end without a cancellation. */
  lemma FinishingRun<I, F(!new), V(!new), R(!new)>(
      job: Job<I, F, V, R>, s: Pool<F, V, R>, fits: (nat, F) -> bool, fine: (nat, R) -> bool, size: F -> nat, bound: nat)
    returns (actions: seq<Action>)
    requires PoolInv(job, s, fits, fine) && Sound(job, fits, fine) && Shrinks(job, size, bound)
    ensures Run(job, s, actions) && Finished(Exec(job, s, actions)) && Cancel !in actions
    decreases Remaining(job, s, size, bound)
  {
    actions := [];
    if !Finished(s) {
      NoDeadlock(job, s, fits, fine);
      var a :| a != Cancel && Enabled(job, s, a);
      PoolInvStep(job, s, a, fits, fine);
      if a.Work? {
        WorkShrinks(job, s, a.w, size, bound);
      }
      var rest := FinishingRun(job, Apply(job, s, a), fits, fine, size, bound);
      actions := [a] + rest;
      assert actions[1..] == rest;
    }
  }

  // ---------- One worker is the sequential program ----------

  /** `whole(f, v)` is what the steps from frame `f` and shared value `v` come to when nobody
      interferes. */
  ghost predicate Whole<I, F(!new), V(!new), R(!new)>(job: Job<I, F, V, R>, whole: (F, V) -> (R, V)) {
    forall f: F, v: V :: whole(f, v) == WholeOf(job.step(f, v), whole)
  }

  function WholeOf<F, V, R>(m: Micro<F, V, R>, whole: (F, V) -> (R, V)): (R, V) {
    if m.Next? then whole(m.frame, m.vars) else (m.result, m.vars)
  }

  /** The shared value after the first `n` items, done one after the other. */
  function FoldVars<I, F, V, R>(job: Job<I, F, V, R>, whole: (F, V) -> (R, V), vars: V, n: nat): V
    requires n <= |job.items|
  {
    if n == 0 then vars else whole(job.begin(n - 1, job.items[n - 1]), FoldVars(job, whole, vars, n - 1)).1
  }

  /** The result of item `i` in that program. */
  function FoldResult<I, F, V, R>(job: Job<I, F, V, R>, whole: (F, V) -> (R, V), vars: V, i: nat): R
    requires i < |job.items|
  {
    whole(job.begin(i, job.items[i]), FoldVars(job, whole, vars, i)).0
  }

  ghost predicate SoloInv<I, F, V, R>(job: Job<I, F, V, R>, whole: (F, V) -> (R, V), vars: V, s: Pool<F, V, R>) {
    var m := |s.claims|;
    && |s.workers| == 1
    && m == Min(s.next, |job.items|) && |s.ordered| == |job.items|
    && (forall i | 0 <= i < |s.ordered| && s.ordered[i].Some? ::
          s.ordered[i].value == FoldResult(job, whole, vars, i))
    && (forall p | 0 <= p < |s.chan| :: s.chan[p].0 < |job.items| && s.chan[p].1 == FoldResult(job, whole, vars, s.chan[p].0))
    && (match s.workers[0]
        case Working(i, f) =>
          i + 1 == m && whole(f, s.vars) == whole(job.begin(i, job.items[i]), FoldVars(job, whole, vars, i))
        case Reporting(i, r) =>
          i + 1 == m && r == FoldResult(job, whole, vars, i) && s.vars == FoldVars(job, whole, vars, m)
        case _ => s.vars == FoldVars(job, whole, vars, m))
  }

  lemma SoloStep<I, F(!new), V(!new), R(!new)>(
      job: Job<I, F, V, R>, whole: (F, V) -> (R, V), vars: V, s: Pool<F, V, R>, a: Action)
    requires Whole(job, whole) && SoloInv(job, whole, vars, s) && Enabled(job, s, a)
    ensures SoloInv(job, whole, vars, Apply(job, s, a))
  {
    match a
    case Work(_) => SoloWork(job, whole, vars, s);
    case Receive => SoloReceive(job, whole, vars, s);
    case Cancel =>
  }

  lemma SoloWork<I, F(!new), V(!new), R(!new)>(
      job: Job<I, F, V, R>, whole: (F, V) -> (R, V), vars: V, s: Pool<F, V, R>)
    requires Whole(job, whole) && SoloInv(job, whole, vars, s) && Enabled(job, s, Work(0))
    ensures SoloInv(job, whole, vars, WorkStep(job, s, 0))
  {
    if s.workers[0].Working? {
      var f := s.workers[0].frame;
      assert whole(f, s.vars) == WholeOf(job.step(f, s.vars), whole);
    }
  }

  lemma SoloReceive<I, F(!new), V(!new), R(!new)>(
      job: Job<I, F, V, R>, whole: (F, V) -> (R, V), vars: V, s: Pool<F, V, R>)
    requires SoloInv(job, whole, vars, s) && Enabled(job, s, Receive)
    ensures SoloInv(job, whole, vars, Apply(job, s, Receive))
  {
  }

  lemma {:induction false} SoloRun<I, F(!new), V(!new), R(!new)>(
      job: Job<I, F, V, R>, whole: (F, V) -> (R, V), vars: V, s: Pool<F, V, R>, actions: seq<Action>)
    requires Whole(job, whole) && SoloInv(job, whole, vars, s) && Run(job, s, actions)
    ensures SoloInv(job, whole, vars, Exec(job, s, actions))
    decreases |actions|
  {
    if actions != [] {
      SoloStep(job, whole, vars, s, actions[0]);
      SoloRun(job, whole, vars, Apply(job, s, actions[0]), actions[1..]);
    }
  }

  /** With one worker, whatever the channel and the cancellation do, results and shared value
      are those of the left fold over the completed prefix. */
  lemma OneWorkerIsSequential<I, F(!new), V(!new), R(!new)>(
      job: Job<I, F, V, R>, whole: (F, V) -> (R, V), vars: V, actions: seq<Action>)
    requires Whole(job, whole)
    requires Run(job, Init(job, 1, vars), actions)
    requires Finished(Exec(job, Init(job, 1, vars), actions))
    ensures var s := Exec(job, Init(job, 1, vars), actions);
            && |Results(s)| <= |job.items|
            && (forall i | 0 <= i < |Results(s)| :: Results(s)[i] == FoldResult(job, whole, vars, i))
            && s.vars == FoldVars(job, whole, vars, |Results(s)|)
            && (!s.cancelled ==> |Results(s)| == |job.items|)
  {
    var s := Exec(job, Init(job, 1, vars), actions);
    SoloRun(job, whole, vars, Init(job, 1, vars), actions);
    var fits := (i: nat, f: F) => true;
    var fine := (i: nat, r: R) => true;
    RunKeepsInv(job, Init(job, 1, vars), actions, fits, fine);
    FinishedIsPrefix(job, s, fits, fine);
  }
}
