/** The collection runner: `run_one`'s four steps as a job of the worker pool. */
module TestRunner {
  import opened Wrappers
  import opened WorkerPool
  import Text

  type Vars = map<string, string>

  datatype SetVariable = SetVariable(name: string, value: string)

  datatype Extractor = Extractor(name: string, from: string, path: string)

  /** `check` stands for the assertion's type, path and operator. */
  datatype Assertion = Assertion(check: string, expected: Option<string>)

  datatype Config =
    | Malformed(reason: string)
    | Spec(pre: seq<SetVariable>, extract: seq<Extractor>, assertions: seq<Assertion>)

  datatype Item = Item(id: nat, name: string, config: Config)

  datatype Response = Response(status: nat, headers: seq<(string, string)>, body: string)

  datatype RequestError = BadConfig(reason: string) | NoTests | SendFailed(reason: string)

  datatype EndpointResult = EndpointResult(
    endpointId: nat,
    endpointName: string,
    ok: bool,
    status: Option<nat>,
    requestError: Option<RequestError>,
    outcomes: seq<bool>)

  /** What the runner calls and this model does not look into. `resolve` gets the item and the
      place of the text, because built-in variables make two resolutions of one text differ. */
  datatype World = World(
    resolve: (nat, nat, string, Vars) -> string,
    respond: nat -> Result<Response, string>,
    evaluate: (Assertion, Response) -> bool,
    jsonPath: (string, Response) -> Option<string>)

  // ---------- The sequential meaning of one item ----------

  /** The variables `pre` injects, each value resolved against the same snapshot. */
  function Injected(world: World, i: nat, pre: seq<SetVariable>, snapshot: Vars): Vars {
    if pre == [] then map[]
    else
      var n := |pre| - 1;
      Injected(world, i, pre[..n], snapshot)[pre[n].name := world.resolve(i, n, pre[n].value, snapshot)]
  }

  /** `{{` occurs in the text. */
  predicate HasToken(s: string) {
    exists i | 0 <= i < |s| - 1 :: s[i] == '{' && s[i + 1] == '{'
  }

  function Resolved(world: World, i: nat, slot: nat, a: Assertion, snapshot: Vars): Assertion {
    if a.expected.Some? && HasToken(a.expected.value)
    then a.(expected := Some(world.resolve(i, slot, a.expected.value, snapshot)))
    else a
  }

  function Outcomes(world: World, i: nat, spec: Config, resp: Response, snapshot: Vars): seq<bool>
    requires spec.Spec?
  {
    seq(|spec.assertions|, j requires 0 <= j < |spec.assertions| =>
      world.evaluate(Resolved(world, i, |spec.pre| + j, spec.assertions[j], snapshot), resp))
  }

  function HeaderValue(headers: seq<(string, string)>, name: string): Option<string> {
    if headers == [] then None
    else if Text.EqIgnoreAsciiCase(headers[0].0, name) then Some(headers[0].1)
    else HeaderValue(headers[1..], name)
  }

  function ExtractOne(world: World, e: Extractor, resp: Response): Option<string> {
    if e.from == "header" then HeaderValue(resp.headers, e.path) else world.jsonPath(e.path, resp)
  }

  /** `extract_variables` */
  function Extracted(world: World, extract: seq<Extractor>, resp: Response): Vars {
    if extract == [] then map[]
    else
      var n := |extract| - 1;
      var before := Extracted(world, extract[..n], resp);
      var value := ExtractOne(world, extract[n], resp);
      if value.Some? then before[extract[n].name := value.value] else before
  }

  function Failed(item: Item, error: RequestError): EndpointResult {
    EndpointResult(item.id, item.name, false, None, Some(error), [])
  }

  function Judged(item: Item, resp: Response, outcomes: seq<bool>): EndpointResult {
    EndpointResult(item.id, item.name, forall j | 0 <= j < |outcomes| :: outcomes[j],
                   Some(resp.status), None, outcomes)
  }

  predicate IsEmpty(c: Config) {
    c.Spec? && c.pre == [] && c.extract == [] && c.assertions == []
  }

  /** One item run with the variable table to itself: inject, send, judge, extract. */
  function RunOne(world: World, i: nat, item: Item, vars: Vars): (EndpointResult, Vars) {
    match item.config
    case Malformed(reason) => (Failed(item, BadConfig(reason)), vars)
    case Spec(pre, extract, assertions) =>
      if IsEmpty(item.config) then (Failed(item, NoTests).(ok := true), vars)
      else
        var injected := vars + Injected(world, i, pre, vars);
        match world.respond(i)
        case Err(reason) => (Failed(item, SendFailed(reason)), injected)
        case Ok(resp) =>
          (Judged(item, resp, Outcomes(world, i, item.config, resp, injected)),
           injected + Extracted(world, extract, resp))
  }

  // ---------- The variables an item leaves ----------

  predicate LastInjected(pre: seq<SetVariable>, name: string, j: nat) {
    j < |pre| && pre[j].name == name && forall k | j < k < |pre| :: pre[k].name != name
  }

  predicate LastExtracted(world: World, extract: seq<Extractor>, resp: Response, name: string, j: nat) {
    && j < |extract| && extract[j].name == name && ExtractOne(world, extract[j], resp).Some?
    && forall k | j < k < |extract| :: extract[k].name != name || ExtractOne(world, extract[k], resp).None?
  }

  lemma {:induction false} InjectedNames(world: World, i: nat, pre: seq<SetVariable>, snapshot: Vars, name: string)
    ensures name in Injected(world, i, pre, snapshot) <==> exists j | 0 <= j < |pre| :: pre[j].name == name
  {
    if pre != [] {
      InjectedNames(world, i, pre[..|pre| - 1], snapshot, name);
    }
  }

  /** Of several variables injected under one name the last one's value counts. */
  lemma {:induction false} InjectedIsLast(world: World, i: nat, pre: seq<SetVariable>, snapshot: Vars, name: string, j: nat)
    requires LastInjected(pre, name, j)
    ensures Get(Injected(world, i, pre, snapshot), name) == Some(world.resolve(i, j, pre[j].value, snapshot))
  {
    var n := |pre| - 1;
    if j < n {
      InjectedIsLast(world, i, pre[..n], snapshot, name, j);
    }
  }

  lemma {:induction false} ExtractedNames(world: World, extract: seq<Extractor>, resp: Response, name: string)
    ensures name in Extracted(world, extract, resp) <==>
      exists j | 0 <= j < |extract| :: extract[j].name == name && ExtractOne(world, extract[j], resp).Some?
  {
    if extract != [] {
      ExtractedNames(world, extract[..|extract| - 1], resp, name);
    }
  }

  /** Of several extractions under one name the last that found something counts. */
  lemma {:induction false} ExtractedIsLast(world: World, extract: seq<Extractor>, resp: Response, name: string, j: nat)
    requires LastExtracted(world, extract, resp, name, j)
    ensures Get(Extracted(world, extract, resp), name) == ExtractOne(world, extract[j], resp)
  {
    var n := |extract| - 1;
    if j < n {
      ExtractedIsLast(world, extract[..n], resp, name, j);
    }
  }

  /** The first header of this name, in any case. */
  predicate FirstOfName(headers: seq<(string, string)>, name: string, k: nat) {
    && k < |headers| && Text.EqIgnoreAsciiCase(headers[k].0, name)
    && forall j | 0 <= j < k :: !Text.EqIgnoreAsciiCase(headers[j].0, name)
  }

  /** A header extraction gives the first header of that name, in any case; any other reads the body. */
  lemma ExtractionIsFromItsSource(world: World, e: Extractor, resp: Response, k: nat)
    ensures e.from != "header" ==> ExtractOne(world, e, resp) == world.jsonPath(e.path, resp)
    ensures e.from == "header" ==>
      (ExtractOne(world, e, resp).None? <==>
         forall j | 0 <= j < |resp.headers| :: !Text.EqIgnoreAsciiCase(resp.headers[j].0, e.path))
    ensures e.from == "header" && FirstOfName(resp.headers, e.path, k) ==> ExtractOne(world, e, resp) == Some(resp.headers[k].1)
  {
    FirstHeader(resp.headers, e.path, k);
  }

  lemma {:induction false} FirstHeader(headers: seq<(string, string)>, name: string, k: nat)
    ensures HeaderValue(headers, name).None? <==> forall j | 0 <= j < |headers| :: !Text.EqIgnoreAsciiCase(headers[j].0, name)
    ensures FirstOfName(headers, name, k) ==> HeaderValue(headers, name) == Some(headers[k].1)
  {
    if headers != [] && !Text.EqIgnoreAsciiCase(headers[0].0, name) {
      var rest := headers[1..];
      FirstHeader(rest, name, if k > 0 then k - 1 else 0);
      assert forall j | 0 <= j < |rest| :: rest[j] == headers[j + 1];
      assert forall j | 1 <= j < |headers| :: headers[j] == rest[j - 1];
    }
  }

  /** What a name is bound to after the item: an extracted value before an injected one before the old one;
      an item that sends nothing, or whose request fails, extracts nothing. */
  lemma TableAfterItem(world: World, i: nat, item: Item, vars: Vars, name: string)
    requires item.config.Spec?
    ensures var after := RunOne(world, i, item, vars).1;
      var injected := Injected(world, i, item.config.pre, vars);
      var extracted := match world.respond(i) case Err(_) => map[] case Ok(resp) => Extracted(world, item.config.extract, resp);
      Get(after, name)
        == if name in extracted then Get(extracted, name)
           else if name in injected then Get(injected, name)
           else Get(vars, name)
  {
    if IsEmpty(item.config) {
      assert Injected(world, i, item.config.pre, vars) == map[];
    }
  }

  /** An expected text is resolved, in its own place, exactly when it holds `{{`; nothing else of the assertion changes. */
  lemma ExpectedIsResolved(world: World, i: nat, slot: nat, a: Assertion, snapshot: Vars)
    ensures Resolved(world, i, slot, a, snapshot).check == a.check
    ensures a.expected == None ==> Resolved(world, i, slot, a, snapshot) == a
    ensures a.expected.Some? ==>
      Resolved(world, i, slot, a, snapshot).expected ==
        if exists k | 0 <= k < |a.expected.value| - 1 :: a.expected.value[k] == '{' && a.expected.value[k + 1] == '{'
        then Some(world.resolve(i, slot, a.expected.value, snapshot)) else a.expected
  {
  }

  // ---------- The same item as interruptible steps ----------

  /** The points at which `run_one` lets go of the variable table or awaits. */
  datatype Frame =
    | Entry(i: nat, item: Item)
    | Injecting(i: nat, item: Item, injected: Vars)
    | Sending(i: nat, item: Item)
    | Asserting(i: nat, item: Item, resp: Response)
    | Extracting(i: nat, item: Item, resp: Response, outcomes: seq<bool>)

  function Step(world: World, f: Frame, vars: Vars): Micro<Frame, Vars, EndpointResult> {
    match f
    case Entry(i, item) =>
      (match item.config
       case Malformed(reason) => Finish(Failed(item, BadConfig(reason)), vars)
       case Spec(pre, _, _) =>
         if IsEmpty(item.config) then Finish(Failed(item, NoTests).(ok := true), vars)
         else
           var injected := Injected(world, i, pre, vars);
           Next(if injected == map[] then Sending(i, item) else Injecting(i, item, injected), vars))
    case Injecting(i, item, injected) => Next(Sending(i, item), vars + injected)
    case Sending(i, item) =>
      (match world.respond(i)
       case Err(reason) => Finish(Failed(item, SendFailed(reason)), vars)
       case Ok(resp) => Next(Asserting(i, item, resp), vars))
    case Asserting(i, item, resp) =>
      if item.config.Spec? then Next(Extracting(i, item, resp, Outcomes(world, i, item.config, resp, vars)), vars)
      else Finish(Judged(item, resp, []), vars)
    case Extracting(i, item, resp, outcomes) =>
      var extracted := if item.config.Spec? then Extracted(world, item.config.extract, resp) else map[];
      Finish(Judged(item, resp, outcomes), if extracted == map[] then vars else vars + extracted)
  }

  function CollectionJob(world: World, items: seq<Item>): Job<Item, Frame, Vars, EndpointResult> {
    Job(items, (i, item) => Entry(i, item), (f, vars) => Step(world, f, vars))
  }

  /** The worker count of a non-empty collection. */
  function Concurrency(requested: Option<nat>, total: nat): (n: nat)
    requires total > 0
    ensures 1 <= n <= 64 && n <= total
    ensures requested.None? && total >= 5 ==> n == 5
    ensures requested.None? && total < 5 ==> n == total
    ensures requested.Some? && requested.value == 0 ==> n == 1
    ensures requested.Some? && requested.value > 64 && total >= 64 ==> n == 64
    ensures requested.Some? && 1 <= requested.value <= 64 && requested.value <= total ==> n == requested.value
  {
    var wanted := if requested.Some? then requested.value else 5;
    Min(if wanted < 1 then 1 else Min(wanted, 64), total)
  }

  // ---------- Results are in input order, whatever happens ----------

  predicate Names(r: EndpointResult, item: Item) {
    r.endpointId == item.id && r.endpointName == item.name
  }

  /** The outcomes are those of the item's assertions on this response, against some content of the table. */
  ghost predicate OutcomesOf(world: World, i: nat, spec: Config, resp: Response, outcomes: seq<bool>) {
    spec.Spec? && exists snapshot :: outcomes == Outcomes(world, i, spec, resp, snapshot)
  }

  /** The result is what the item's own configuration and response come to: a failure with its reason,
      a skipped item that counts as passed, or one outcome per assertion, passed when all of them passed. */
  ghost predicate Earned(world: World, i: nat, item: Item, r: EndpointResult) {
    match item.config
    case Malformed(reason) => !r.ok && r.status == None && r.requestError == Some(BadConfig(reason)) && r.outcomes == []
    case Spec(pre, extract, assertions) =>
      if pre == [] && extract == [] && assertions == []
      then r.ok && r.status == None && r.requestError == Some(NoTests) && r.outcomes == []
      else
        match world.respond(i)
        case Err(reason) => !r.ok && r.status == None && r.requestError == Some(SendFailed(reason)) && r.outcomes == []
        case Ok(resp) =>
          && r.status == Some(resp.status) && r.requestError == None
          && OutcomesOf(world, i, item.config, resp, r.outcomes) && |r.outcomes| == |assertions|
          && (r.ok <==> forall j | 0 <= j < |r.outcomes| :: r.outcomes[j])
  }

  /** A stage that only an item with checks reaches, with that item's response where there is one. */
  ghost predicate OnTheWay(world: World, i: nat, item: Item, f: Frame) {
    && f.i == i && f.item == item
    && (!f.Entry? ==> item.config.Spec? && !IsEmpty(item.config))
    && (f.Asserting? || f.Extracting? ==> world.respond(i) == Ok(f.resp))
    && (f.Extracting? ==> OutcomesOf(world, i, item.config, f.resp, f.outcomes))
  }

  lemma StepEarns(world: World, i: nat, item: Item, f: Frame, vars: Vars)
    requires OnTheWay(world, i, item, f)
    ensures var m := Step(world, f, vars);
      if m.Next? then OnTheWay(world, i, item, m.frame) else Names(m.result, item) && Earned(world, i, item, m.result)
  {
    if f.Asserting? {
      var outcomes := Outcomes(world, i, item.config, f.resp, vars);
      assert OutcomesOf(world, i, item.config, f.resp, outcomes);
    }
  }

  /** So does an item that has the variable table to itself. */
  lemma ItemEarns(world: World, i: nat, item: Item, vars: Vars)
    ensures Names(RunOne(world, i, item, vars).0, item) && Earned(world, i, item, RunOne(world, i, item, vars).0)
  {
    if item.config.Spec? && !IsEmpty(item.config) && world.respond(i).Ok? {
      var injected := vars + Injected(world, i, item.config.pre, vars);
      assert OutcomesOf(world, i, item.config, world.respond(i).value, Outcomes(world, i, item.config, world.respond(i).value, injected));
    }
  }

  ghost function Fitting(world: World, items: seq<Item>): (nat, Frame) -> bool {
    (i: nat, f: Frame) => i < |items| && OnTheWay(world, i, items[i], f)
  }

  ghost function Fine(world: World, items: seq<Item>): (nat, EndpointResult) -> bool {
    (i: nat, r: EndpointResult) => i < |items| && Names(r, items[i]) && Earned(world, i, items[i], r)
  }

  lemma JobEarns(world: World, items: seq<Item>)
    ensures Sound(CollectionJob(world, items), Fitting(world, items), Fine(world, items))
  {
    forall i: nat, f: Frame, v: Vars | Fitting(world, items)(i, f)
      ensures StepSound(Step(world, f, v), i, Fitting(world, items), Fine(world, items))
    {
      StepEarns(world, i, items[i], f, v);
    }
  }

  /** Under any schedule, response function and cancellation point: the results belong to exactly a
      prefix of the items, in their order, each with its item's name and with the error, or the status
      and outcomes, that its item's own response earns; all items are there when nobody cancelled. */
  lemma ResultsAreInInputOrder(world: World, items: seq<Item>, requested: Option<nat>, vars: Vars, actions: seq<Action>)
    requires items != []
    requires Run(CollectionJob(world, items), Init(CollectionJob(world, items), Concurrency(requested, |items|), vars), actions)
    requires Finished(Exec(CollectionJob(world, items), Init(CollectionJob(world, items), Concurrency(requested, |items|), vars), actions))
    ensures var s := Exec(CollectionJob(world, items), Init(CollectionJob(world, items), Concurrency(requested, |items|), vars), actions);
            && |Results(s)| <= |items|
            && (forall i | 0 <= i < |Results(s)| ::
                  Names(Results(s)[i], items[i]) && Earned(world, i, items[i], Results(s)[i]))
            && (!s.cancelled ==> |Results(s)| == |items|)
  {
    var job := CollectionJob(world, items);
    ghost var fits: (nat, Frame) -> bool := Fitting(world, items);
    ghost var fine: (nat, EndpointResult) -> bool := Fine(world, items);
    JobEarns(world, items);
    GapFreeResults(job, Concurrency(requested, |items|), vars, actions, fits, fine);
    var s := Exec(job, Init(job, Concurrency(requested, |items|), vars), actions);
    forall i | 0 <= i < |Results(s)|
      ensures Names(Results(s)[i], items[i]) && Earned(world, i, items[i], Results(s)[i])
    {
      assert fine(i, Results(s)[i]);
    }
  }

  /** The stages an item still has before it. */
  function StagesLeft(): Frame -> nat {
    (f: Frame) => match f
      case Entry(_, _) => 4
      case Injecting(_, _, _) => 3
      case Sending(_, _) => 2
      case Asserting(_, _, _) => 1
      case Extracting(_, _, _, _) => 0
  }

  /** Under any schedule a collection run is over after at most nine steps an item and two a worker,
      cancellations not counted. */
  lemma CollectionRunEnds(world: World, items: seq<Item>, requested: Option<nat>, vars: Vars, actions: seq<Action>)
    requires items != []
    requires Run(CollectionJob(world, items), Init(CollectionJob(world, items), Concurrency(requested, |items|), vars), actions)
    ensures WorkCount(actions) <= 9 * |items| + 2 * Concurrency(requested, |items|)
  {
    CollectionShrinks(world, items);
    PoolEnds(CollectionJob(world, items), Concurrency(requested, |items|), vars, actions, StagesLeft(), 5);
  }

  lemma CollectionShrinks(world: World, items: seq<Item>)
    ensures Shrinks(CollectionJob(world, items), StagesLeft(), 5)
  {
  }

  // ---------- Concurrency 1 ----------

  /** What the remaining steps come to when nobody interferes. */
  function Rest(world: World, f: Frame, vars: Vars): (EndpointResult, Vars) {
    match f
    case Entry(i, item) => RunOne(world, i, item, vars)
    case Injecting(i, item, injected) => RestAfterSend(world, i, item, vars + injected)
    case Sending(i, item) => RestAfterSend(world, i, item, vars)
    case Asserting(i, item, resp) => RestAfterResponse(world, i, item, resp, vars)
    case Extracting(i, item, resp, outcomes) =>
      (Judged(item, resp, outcomes),
       if item.config.Spec? then vars + Extracted(world, item.config.extract, resp) else vars)
  }

  function RestAfterSend(world: World, i: nat, item: Item, vars: Vars): (EndpointResult, Vars) {
    match world.respond(i)
    case Err(reason) => (Failed(item, SendFailed(reason)), vars)
    case Ok(resp) => RestAfterResponse(world, i, item, resp, vars)
  }

  function RestAfterResponse(world: World, i: nat, item: Item, resp: Response, vars: Vars): (EndpointResult, Vars) {
    if item.config.Spec? then
      (Judged(item, resp, Outcomes(world, i, item.config, resp, vars)),
       vars + Extracted(world, item.config.extract, resp))
    else
      (Judged(item, resp, []), vars)
  }

  lemma StepsAddUp(world: World, f: Frame, vars: Vars)
    ensures Rest(world, f, vars) == WholeOf(Step(world, f, vars), (g, v) => Rest(world, g, v))
  {
    assert vars + map[] == vars;
  }

  /** The left fold of `RunOne` over the first `n` items. */
  function Sequential(world: World, items: seq<Item>, vars: Vars, n: nat): (r: (seq<EndpointResult>, Vars))
    requires n <= |items|
    ensures |r.0| == n
  {
    if n == 0 then ([], vars)
    else
      var (results, before) := Sequential(world, items, vars, n - 1);
      var (result, after) := RunOne(world, n - 1, items[n - 1], before);
      (results + [result], after)
  }

  /** The whole of an item's remaining work. */
  function ItemAlone(world: World): (Frame, Vars) -> (EndpointResult, Vars) {
    (f, v) => Rest(world, f, v)
  }

  /** `whole`, from the beginning of an item, is `RunOne`. */
  ghost predicate RunsItems(job: Job<Item, Frame, Vars, EndpointResult>, whole: (Frame, Vars) -> (EndpointResult, Vars),
                            world: World) {
    forall i: nat, v: Vars | i < |job.items| :: whole(job.begin(i, job.items[i]), v) == RunOne(world, i, job.items[i], v)
  }

  lemma FoldEnd(
      job: Job<Item, Frame, Vars, EndpointResult>, whole: (Frame, Vars) -> (EndpointResult, Vars),
      world: World, vars: Vars, n: nat, before: Vars, last: (EndpointResult, Vars))
    requires 0 < n <= |job.items| && RunsItems(job, whole, world) && FoldVars(job, whole, vars, n - 1) == before
    requires last == RunOne(world, n - 1, job.items[n - 1], before)
    ensures FoldVars(job, whole, vars, n) == last.1 && FoldResult(job, whole, vars, n - 1) == last.0
  {
    assert whole(job.begin(n - 1, job.items[n - 1]), before) == last;
  }

  lemma {:induction false} FoldIsSequential(
      job: Job<Item, Frame, Vars, EndpointResult>, whole: (Frame, Vars) -> (EndpointResult, Vars),
      world: World, vars: Vars, n: nat)
    requires n <= |job.items| && RunsItems(job, whole, world)
    ensures FoldVars(job, whole, vars, n) == Sequential(world, job.items, vars, n).1
    ensures forall i | 0 <= i < n :: FoldResult(job, whole, vars, i) == Sequential(world, job.items, vars, n).0[i]
  {
    if n > 0 {
      FoldIsSequential(job, whole, world, vars, n - 1);
      var before := Sequential(world, job.items, vars, n - 1);
      var last := RunOne(world, n - 1, job.items[n - 1], before.1);
      SequentialSnoc(world, job.items, vars, n, before, last);
      FoldEnd(job, whole, world, vars, n, before.1, last);
    }
  }

  lemma SequentialSnoc(world: World, items: seq<Item>, vars: Vars, n: nat,
                       before: (seq<EndpointResult>, Vars), last: (EndpointResult, Vars))
    requires 0 < n <= |items| && before == Sequential(world, items, vars, n - 1)
    requires last == RunOne(world, n - 1, items[n - 1], before.1)
    ensures Sequential(world, items, vars, n) == (before.0 + [last.0], last.1)
  {
  }

  /** With concurrency 1, results and shared variables are those of the sequential program. */
  lemma ConcurrencyOneIsSequential(world: World, items: seq<Item>, vars: Vars, actions: seq<Action>)
    requires items != []
    requires Run(CollectionJob(world, items), Init(CollectionJob(world, items), Concurrency(Some(1), |items|), vars), actions)
    requires Finished(Exec(CollectionJob(world, items), Init(CollectionJob(world, items), Concurrency(Some(1), |items|), vars), actions))
    ensures var s := Exec(CollectionJob(world, items), Init(CollectionJob(world, items), Concurrency(Some(1), |items|), vars), actions);
            && |Results(s)| <= |items|
            && (Results(s), s.vars) == Sequential(world, items, vars, |Results(s)|)
            && (!s.cancelled ==> (Results(s), s.vars) == Sequential(world, items, vars, |items|))
  {
    var job := CollectionJob(world, items);
    var whole := ItemAlone(world);
    forall f: Frame, v: Vars
      ensures whole(f, v) == WholeOf(job.step(f, v), whole)
    {
      StepsAddUp(world, f, v);
    }
    OneWorkerIsSequential(job, whole, vars, actions);
    var s := Exec(job, Init(job, 1, vars), actions);
    assert RunsItems(job, whole, world);
    FoldIsSequential(job, whole, world, vars, |Results(s)|);
    assert Results(s) == Sequential(world, items, vars, |Results(s)|).0;
  }

  // ---------- The runner's loops ----------

  /** The serial entry: the caller's variable table belongs to this run alone. */
  class Runner {
    var runtime: Vars

    constructor (runtime: Vars)
      ensures this.runtime == runtime
    {
      this.runtime := runtime;
    }

    /** `run_endpoint`, that is `run_one` on the caller's own table */
    method RunEndpoint(world: World, i: nat, item: Item) returns (result: EndpointResult)
      modifies this
      ensures (result, runtime) == RunOne(world, i, item, old(runtime))
      ensures Names(result, item) && Earned(world, i, item, result)
    {
      ItemEarns(world, i, item, runtime);
      if item.config.Malformed? {
        return Failed(item, BadConfig(item.config.reason));
      }
      if IsEmpty(item.config) {
        return Failed(item, NoTests).(ok := true);
      }
      var injected := Inject(world, i, item.config.pre, runtime);
      runtime := runtime + injected;
      var response := world.respond(i);
      if response.Err? {
        return Failed(item, SendFailed(response.error));
      }
      var outcomes := Judge(world, i, item.config, response.value, runtime);
      var extracted := ExtractVariables(world, item.config.extract, response.value);
      runtime := runtime + extracted;
      return Judged(item, response.value, outcomes);
    }
  }

  method Inject(world: World, i: nat, pre: seq<SetVariable>, snapshot: Vars) returns (injected: Vars)
    ensures injected == Injected(world, i, pre, snapshot)
  {
    injected := map[];
    for n := 0 to |pre|
      invariant injected == Injected(world, i, pre[..n], snapshot)
    {
      injected := injected[pre[n].name := world.resolve(i, n, pre[n].value, snapshot)];
      assert pre[..n + 1][..n] == pre[..n];
    }
    assert pre[..|pre|] == pre;
  }

  method Judge(world: World, i: nat, spec: Config, resp: Response, snapshot: Vars) returns (outcomes: seq<bool>)
    requires spec.Spec?
    ensures outcomes == Outcomes(world, i, spec, resp, snapshot)
  {
    outcomes := [];
    for j := 0 to |spec.assertions|
      invariant outcomes == Outcomes(world, i, spec, resp, snapshot)[..j]
    {
      outcomes := outcomes + [world.evaluate(Resolved(world, i, |spec.pre| + j, spec.assertions[j], snapshot), resp)];
    }
    assert outcomes == Outcomes(world, i, spec, resp, snapshot);
  }

  method ExtractVariables(world: World, extract: seq<Extractor>, resp: Response) returns (out: Vars)
    ensures out == Extracted(world, extract, resp)
  {
    out := map[];
    for n := 0 to |extract|
      invariant out == Extracted(world, extract[..n], resp)
    {
      var value := ExtractOne(world, extract[n], resp);
      if value.Some? {
        out := out[extract[n].name := value.value];
      }
      assert extract[..n + 1][..n] == extract[..n];
    }
    assert extract[..|extract|] == extract;
  }

  /** What the aggregator has recorded after receiving `received`. */
  function Recorded(total: nat, received: seq<(nat, EndpointResult)>): (r: seq<Option<EndpointResult>>)
    requires forall p | 0 <= p < |received| :: received[p].0 < total
    ensures |r| == total
  {
    if received == [] then seq(total, _ => None)
    else
      var n := |received| - 1;
      Recorded(total, received[..n])[received[n].0 := Some(received[n].1)]
  }

  lemma {:induction false} FlattenSnoc(ordered: seq<Option<EndpointResult>>, last: Option<EndpointResult>)
    ensures Flatten(ordered + [last]) == Flatten(ordered) + (if last.Some? then [last.value] else [])
  {
    if ordered != [] {
      assert (ordered + [last])[1..] == ordered[1..] + [last];
      FlattenSnoc(ordered[1..], last);
    } else {
      assert (ordered + [last])[1..] == [];
    }
  }

  /** The aggregator: slots filled in arrival order, read out in input order. */
  method Aggregate(total: nat, received: seq<(nat, EndpointResult)>) returns (results: seq<EndpointResult>)
    requires forall p | 0 <= p < |received| :: received[p].0 < total
    ensures results == Flatten(Recorded(total, received))
  {
    var ordered := new Option<EndpointResult>[total](_ => None);
    assert ordered[..] == Recorded(total, received[..0]);
    for n := 0 to |received|
      invariant ordered[..] == Recorded(total, received[..n])
    {
      ordered[received[n].0] := Some(received[n].1);
      assert received[..n + 1][..n] == received[..n];
    }
    assert received[..|received|] == received;
    results := [];
    for i := 0 to total
      invariant ordered[..] == Recorded(total, received)
      invariant results == Flatten(ordered[..i])
    {
      FlattenSnoc(ordered[..i], ordered[i]);
      assert ordered[..i + 1] == ordered[..i] + [ordered[i]];
      if ordered[i].Some? {
        results := results + [ordered[i].value];
      }
    }
    assert ordered[..total] == ordered[..];
  }

  lemma {:induction false} SlotsFollowMessages(
      job: Job<Item, Frame, Vars, EndpointResult>, s: Pool<Frame, Vars, EndpointResult>, actions: seq<Action>,
      past: seq<(nat, EndpointResult)>)
    requires Run(job, s, actions)
    requires (forall p | 0 <= p < |past| :: past[p].0 < |s.ordered|) && s.ordered == Recorded(|s.ordered|, past)
    ensures var received := past + Received(job, s, actions);
            && (forall p | 0 <= p < |received| :: received[p].0 < |s.ordered|)
            && Exec(job, s, actions).ordered == Recorded(|s.ordered|, received)
    decreases |actions|
  {
    if actions == [] {
      assert past + [] == past;
    } else {
      var next := Apply(job, s, actions[0]);
      var more := if actions[0].Receive? then [s.chan[0]] else [];
      if actions[0].Receive? {
        RecordedSnoc(|s.ordered|, past, s.chan[0]);
      } else {
        assert past + more == past && next.ordered == s.ordered;
      }
      SlotsFollowMessages(job, next, actions[1..], past + more);
      Text.Associative(past, more, Received(job, next, actions[1..]));
    }
  }

  lemma RecordedSnoc(total: nat, past: seq<(nat, EndpointResult)>, message: (nat, EndpointResult))
    requires forall p | 0 <= p < |past| :: past[p].0 < total
    requires message.0 < total
    ensures forall p | 0 <= p < |past + [message]| :: (past + [message])[p].0 < total
    ensures Recorded(total, past + [message]) == Recorded(total, past)[message.0 := Some(message.1)]
  {
    assert (past + [message])[..|past|] == past;
  }

  /** Fed the messages of any execution, the aggregator's loops return that execution's results. */
  lemma AggregateServesThePool(world: World, items: seq<Item>, workers: nat, vars: Vars, actions: seq<Action>)
    requires Run(CollectionJob(world, items), Init(CollectionJob(world, items), workers, vars), actions)
    ensures var job := CollectionJob(world, items);
            var received := Received(job, Init(job, workers, vars), actions);
            && (forall p | 0 <= p < |received| :: received[p].0 < |items|)
            && Flatten(Recorded(|items|, received)) == Results(Exec(job, Init(job, workers, vars), actions))
  {
    var job := CollectionJob(world, items);
    var s := Init(job, workers, vars);
    SlotsFollowMessages(job, s, actions, []);
    assert [] + Received(job, s, actions) == Received(job, s, actions);
  }
}
