/** The load runner: the same worker pool with one request per index, and its accounting. */
module LoadRunner {
  import opened Wrappers
  import opened WorkerPool

  datatype Sample = Sample(ok: bool, durationMs: real, err: Option<string>)

  datatype Summary = Summary(ok: nat, failed: nat, errors: seq<string>, samples: seq<real>)

  /** `send(i)` is the sample the `i`-th request gives, cancelled requests included. */
  function LoadJob(total: nat, send: nat -> Sample): Job<(), nat, (), Sample> {
    Job(seq(total, _ => ()), (i, _) => i, (i, v) => Finish(send(i), v))
  }

  /** The configured totals, brought into the supported range. */
  function Requests(configured: nat): (n: nat)
    ensures 1 <= n <= 100_000
    ensures 1 <= configured <= 100_000 ==> n == configured
    ensures configured == 0 ==> n == 1
    ensures configured > 100_000 ==> n == 100_000
  {
    if configured < 1 then 1 else Min(configured, 100_000)
  }

  function Workers(configured: nat): (n: nat)
    ensures 1 <= n <= 500
    ensures 1 <= configured <= 500 ==> n == configured
    ensures configured == 0 ==> n == 1
    ensures configured > 500 ==> n == 500
  {
    if configured < 1 then 1 else Min(configured, 500)
  }

  // ---------- Aggregation ----------

  function CountOk(samples: seq<Sample>): nat {
    if samples == [] then 0 else CountOk(samples[..|samples| - 1]) + (if samples[|samples| - 1].ok then 1 else 0)
  }

  function Errors(samples: seq<Sample>): seq<string> {
    if samples == [] then []
    else Errors(samples[..|samples| - 1])
         + (if samples[|samples| - 1].err.Some? then [samples[|samples| - 1].err.value] else [])
  }

  function Durations(samples: seq<Sample>): seq<real> {
    seq(|samples|, i requires 0 <= i < |samples| => samples[i].durationMs)
  }

  /** Counts add up to the samples received, and the first five errors are kept. */
  method Aggregate(received: seq<Sample>) returns (s: Summary)
    ensures s.ok == CountOk(received) && s.ok + s.failed == |received|
    ensures s.samples == Durations(received)
    ensures s.errors == Errors(received)[..Min(5, |Errors(received)|)]
  {
    var ok, failed, errors, samples := 0, 0, [], [];
    for n := 0 to |received|
      invariant ok == CountOk(received[..n]) && ok + failed == n
      invariant samples == Durations(received[..n])
      invariant errors == Errors(received[..n])[..Min(5, |Errors(received[..n])|)]
    {
      assert received[..n + 1][..n] == received[..n];
      samples := samples + [received[n].durationMs];
      if received[n].ok {
        ok := ok + 1;
      } else {
        failed := failed + 1;
      }
      if received[n].err.Some? && |errors| < 5 {
        errors := errors + [received[n].err.value];
      }
    }
    assert received[..|received|] == received;
    return Summary(ok, failed, errors, samples);
  }

  /** A job whose items end in one step with their own sample. */
  ghost predicate OneStep(job: Job<(), nat, (), Sample>, send: nat -> Sample) {
    && (forall i | 0 <= i < |job.items| :: job.begin(i, job.items[i]) == i)
    && (forall i: nat, v: () :: job.step(i, v) == Finish(send(i), v))
  }

  lemma StartIsSound(job: Job<(), nat, (), Sample>, workers: nat, send: nat -> Sample, fits: (nat, nat) -> bool, fine: (nat, Sample) -> bool)
    requires OneStep(job, send)
    requires (forall i: nat, f: nat :: fits(i, f) <==> f == i) && (forall i: nat, r: Sample :: fine(i, r) <==> r == send(i))
    ensures Sound(job, fits, fine) && PoolInv(job, Init(job, workers, ()), fits, fine)
  {
  }

  lemma OneOwnResultEach(job: Job<(), nat, (), Sample>, workers: nat, send: nat -> Sample, actions: seq<Action>)
    requires OneStep(job, send) && workers > 0
    requires Run(job, Init(job, workers, ()), actions) && Finished(Exec(job, Init(job, workers, ()), actions))
    ensures var s := Exec(job, Init(job, workers, ()), actions);
            var received := Received(job, Init(job, workers, ()), actions);
            && |received| == |s.claims| <= |job.items|
            && (forall p | 0 <= p < |received| :: received[p].1 == send(received[p].0))
            && (!s.cancelled ==> |received| == |job.items|)
  {
    var s0 := Init(job, workers, ());
    var fits := (i: nat, f: nat) => f == i;
    var fine := (i: nat, r: Sample) => r == send(i);
    StartIsSound(job, workers, send, fits, fine);
    NoResultsYet<Sample>(|job.items|);
    assert s0.ordered == seq<Option<Sample>>(|job.items|, _ => None);
    OneSlotPerMessage(job, s0, actions, fits, fine);
    RunKeepsInv(job, s0, actions, fits, fine);
    FinishedIsPrefix(job, Exec(job, s0, actions), fits, fine);
  }

  /** Every claimed request contributes exactly one sample, its own, under any schedule; the
      totals equal the configured number of requests unless the run was cancelled. */
  lemma OneSamplePerRequest(configured: nat, concurrency: nat, send: nat -> Sample, actions: seq<Action>)
    requires Run(LoadJob(Requests(configured), send), Init(LoadJob(Requests(configured), send), Workers(concurrency), ()), actions)
    requires Finished(Exec(LoadJob(Requests(configured), send), Init(LoadJob(Requests(configured), send), Workers(concurrency), ()), actions))
    ensures var job := LoadJob(Requests(configured), send);
            var s := Exec(job, Init(job, Workers(concurrency), ()), actions);
            var received := Received(job, Init(job, Workers(concurrency), ()), actions);
            && |received| == |s.claims| <= Requests(configured)
            && (forall p | 0 <= p < |received| :: received[p].1 == send(received[p].0))
            && (!s.cancelled ==> |received| == Requests(configured))
  {
    OneOwnResultEach(LoadJob(Requests(configured), send), Workers(concurrency), send, actions);
  }

  /** Under any schedule a load run is over after at most five steps a request and two a worker. */
  lemma LoadRunEnds(configured: nat, concurrency: nat, send: nat -> Sample, actions: seq<Action>)
    requires Run(LoadJob(Requests(configured), send), Init(LoadJob(Requests(configured), send), Workers(concurrency), ()), actions)
    ensures WorkCount(actions) <= 5 * Requests(configured) + 2 * Workers(concurrency)
  {
    var job := LoadJob(Requests(configured), send);
    var size := (i: nat) => 0;
    assert Shrinks(job, size, 1);
    PoolEnds(job, Workers(concurrency), (), actions, size, 1);
  }

  // ---------- Percentiles ----------

  function Percentile(sorted: seq<real>, q: nat): (r: real)
    ensures sorted == [] ==> r == 0.0
  {
    if sorted == [] then 0.0
    else sorted[Min(|sorted| * q / 100, |sorted| - 1)]
  }

  predicate Sorted(s: seq<real>) {
    forall i, j | 0 <= i <= j < |s| :: s[i] <= s[j]
  }

  /** How many of the samples are at most `x`. */
  function AtMost(s: seq<real>, x: real): nat {
    if s == [] then 0 else AtMost(s[..|s| - 1], x) + (if s[|s| - 1] <= x then 1 else 0)
  }

  lemma {:induction false} AtMostOfSorted(s: seq<real>, x: real, n: nat)
    requires n <= |s| && forall i | 0 <= i < n :: s[i] <= x
    ensures AtMost(s, x) >= n
  {
    if s != [] {
      AtMostOfSorted(s[..|s| - 1], x, if n == |s| then n - 1 else n);
    }
  }

  /** How many of the samples are less than `x`. */
  function Below(s: seq<real>, x: real): nat {
    if s == [] then 0 else Below(s[..|s| - 1], x) + (if s[|s| - 1] < x then 1 else 0)
  }

  lemma {:induction false} BelowOfSorted(s: seq<real>, x: real, n: nat)
    requires n <= |s| && forall i | n <= i < |s| :: s[i] >= x
    ensures Below(s, x) <= n
  {
    if s != [] {
      BelowOfSorted(s[..|s| - 1], x, if n == |s| then n - 1 else n);
    }
  }

  /** The reported percentile is a sample; at most `q` percent of the samples are less, more than `q` percent of the samples (rounded down),
      or all of them, are at most it; and percentiles grow with `q`. */
  lemma PercentileIsARank(sorted: seq<real>, q: nat, q': nat)
    requires sorted != [] && Sorted(sorted) && q <= q'
    ensures Percentile(sorted, q) in sorted
    ensures AtMost(sorted, Percentile(sorted, q)) >= Min(|sorted| * q / 100 + 1, |sorted|)
    ensures Below(sorted, Percentile(sorted, q)) <= |sorted| * q / 100
    ensures Percentile(sorted, q) <= Percentile(sorted, q')
  {
    var i := Min(|sorted| * q / 100, |sorted| - 1);
    AtMostOfSorted(sorted, sorted[i], i + 1);
    BelowOfSorted(sorted, sorted[i], i);
    Scaled(|sorted|, q, q');
  }

  lemma Scaled(n: nat, q: nat, q': nat)
    requires q <= q'
    ensures n * q / 100 <= n * q' / 100
  {
    Multiples(n, q, q');
    Quotients(n * q, n * q');
  }

  lemma {:induction false} Multiples(n: nat, q: nat, q': nat)
    requires q <= q'
    ensures n * q <= n * q'
  {
    if n > 0 {
      Multiples(n - 1, q, q');
      assert n * q == (n - 1) * q + q && n * q' == (n - 1) * q' + q';
    }
  }

  lemma Quotients(a: nat, b: nat)
    requires a <= b
    ensures a / 100 <= b / 100
  {
  }
}
