/** The token refresh protocol: a token cache, a table of per-key refresh locks with
    reference-counted entries, and any number of tasks calling `access_token_for`.

    Every section of the source that runs under a mutex, or between two awaits, is one
    `Action`; a run is any sequence of enabled actions. `log` records what each run did to
    the cache and to the network, so that statements about whole runs can be made. */
module OAuthRefresh {
  import opened Wrappers
  import Text

  datatype Key = Key(clientId: string, tokenUrl: string)

  type TaskId = nat
  type LockId = nat

  /** Tokens closer than this to their expiry are refreshed ahead of time (nanoseconds). */
  const REFRESH_AHEAD: int := 60 * 1_000_000_000

  datatype Token = Token(accessToken: string, refreshToken: Option<string>, expiresAt: int) {
    predicate IsExpired(now: int) { expiresAt <= now }

    predicate ExpiresWithin(now: int, threshold: int) { expiresAt - now <= threshold }
  }

  /** The cache-hit test; each half reads the clock for itself. */
  predicate Usable(t: Token, n1: int, n2: int) {
    !t.IsExpired(n1) && !t.ExpiresWithin(n2, REFRESH_AHEAD)
  }

  datatype RefreshError = Config | Unauthorized | RefreshFailed | Abandoned

  type Answer = Result<string, RefreshError>

  /** The statements of `refresh_with_dedupe` a task can be stopped at. */
  datatype Stage =
    | Waiting(expired: Token)
    | Recheck(expired: Token)
    | Network
    | Unlocking(answer: Answer)
    | CountCheck(answer: Answer)
    | TableCheck(answer: Answer)
    | Dropping(answer: Answer)

  /** Where a task stands. While `Refreshing` it owns one handle (an `Arc` clone) of `lock`. */
  datatype Phase =
    | Start
    | SeedCheck
    | SeedStore
    | Decide
    | WantHandle(expired: Token)
    | Refreshing(lock: LockId, stage: Stage)
    | Done(answer: Answer)

  datatype Task = Task(key: Key, seed: Option<Token>, phase: Phase)

  datatype Event =
    | Seeded(key: Key, token: Token)
    | Authorized(key: Key, token: Token)
    | Cleared(key: Key)
    | Served(key: Key, task: TaskId, token: Token, n1: int, n2: int)
    | Sent(key: Key, task: TaskId, n1: int, n2: int)
    | Ended(key: Key, task: TaskId, stored: Option<Token>)

  /** `home[l]` is the key lock `l` was created for; `owner[l]` is who holds it. */
  datatype State = State(
    tasks: map<TaskId, Task>,
    table: map<Key, LockId>,
    home: seq<Key>,
    owner: map<LockId, TaskId>,
    cache: map<Key, Token>,
    now: int,
    log: seq<Event>)

  datatype Action =
    | Spawn(t: TaskId, key: Key, seed: Option<Token>)
    | ReadCache(t: TaskId, n1: int, n2: int)
    | CheckEmpty(t: TaskId)
    | StoreSeed(t: TaskId)
    | DecideStep(t: TaskId, n1: int, n2: int, n3: int)
    | TakeHandle(t: TaskId)
    | Acquire(t: TaskId)
    | RecheckCache(t: TaskId, n1: int, n2: int)
    | Reply(t: TaskId, reply: Result<Token, RefreshError>)
    | Unlock(t: TaskId)
    | CheckCount(t: TaskId)
    | CheckTable(t: TaskId)
    | DropHandle(t: TaskId)
    | Abandon(t: TaskId)
    | Authorize(key: Key, token: Token)
    | Clear(key: Key)

  predicate Waits(p: Phase) {
    p.Refreshing? && p.stage.Waiting?
  }

  /** Has the lock's guard. */
  predicate Critical(p: Phase) {
    p.Refreshing? && (p.stage.Recheck? || p.stage.Network? || p.stage.Unlocking?)
  }

  /** The tasks holding a handle to lock `l`. */
  function Holders(tasks: map<TaskId, Task>, l: LockId): set<TaskId> {
    set t | t in tasks && tasks[t].phase.Refreshing? && tasks[t].phase.lock == l
  }

  function KeysOf(table: map<Key, LockId>, l: LockId): set<Key> {
    set k | k in table && table[k] == l
  }

  /** `Arc::strong_count`: every handle and every table entry is one reference. */
  function References(tasks: map<TaskId, Task>, table: map<Key, LockId>, l: LockId): nat {
    |Holders(tasks, l)| + |KeysOf(table, l)|
  }

  function StrongCount(s: State, l: LockId): nat {
    References(s.tasks, s.table, l)
  }

  predicate AtStage(s: State, t: TaskId) {
    t in s.tasks && s.tasks[t].phase.Refreshing?
  }

  predicate Enabled(s: State, a: Action) {
    match a
    case Spawn(t, _, _) => t !in s.tasks
    case ReadCache(t, n1, n2) => t in s.tasks && s.tasks[t].phase.Start? && s.now <= n1 <= n2
    case CheckEmpty(t) => t in s.tasks && s.tasks[t].phase.SeedCheck?
    case StoreSeed(t) => t in s.tasks && s.tasks[t].phase.SeedStore? && s.tasks[t].seed.Some?
    case DecideStep(t, n1, n2, n3) => t in s.tasks && s.tasks[t].phase.Decide? && s.now <= n1 <= n2 <= n3
    case TakeHandle(t) => t in s.tasks && s.tasks[t].phase.WantHandle?
    case Acquire(t) => AtStage(s, t) && s.tasks[t].phase.stage.Waiting? && s.tasks[t].phase.lock !in s.owner
    case RecheckCache(t, n1, n2) => AtStage(s, t) && s.tasks[t].phase.stage.Recheck? && s.now <= n1 <= n2
    case Reply(t, _) => AtStage(s, t) && s.tasks[t].phase.stage.Network?
    case Unlock(t) => AtStage(s, t) && s.tasks[t].phase.stage.Unlocking?
    case CheckCount(t) => AtStage(s, t) && s.tasks[t].phase.stage.CountCheck?
    case CheckTable(t) => AtStage(s, t) && s.tasks[t].phase.stage.TableCheck?
    case DropHandle(t) => AtStage(s, t) && s.tasks[t].phase.stage.Dropping?
    case Abandon(t) => AtStage(s, t) && (s.tasks[t].phase.stage.Waiting? || s.tasks[t].phase.stage.Network?)
    case Authorize(_, _) => true
    case Clear(_) => true
  }

  function Move(s: State, t: TaskId, p: Phase): State
    requires t in s.tasks
  {
    s.(tasks := s.tasks[t := s.tasks[t].(phase := p)])
  }

  function Note(s: State, e: Event): State {
    s.(log := s.log + [e])
  }

  function Release(s: State, l: LockId): State {
    s.(owner := s.owner - {l})
  }

  predicate Blank(key: Key) {
    Text.Trim(key.clientId) == "" || Text.Trim(key.tokenUrl) == ""
  }

  /** `oauth2_fields` turns blank configurations away before anything else happens. */
  function SpawnStep(s: State, t: TaskId, key: Key, seed: Option<Token>): State {
    s.(tasks := s.tasks[t := Task(key, seed, if Blank(key) then Done(Err(Config)) else Start)])
  }

  function ReadCacheStep(s: State, t: TaskId, n1: int, n2: int): State
    requires t in s.tasks
  {
    var key := s.tasks[t].key;
    var seen := Get(s.cache, key);
    if seen.Some? && Usable(seen.value, n1, n2) then
      Note(Move(s.(now := n2), t, Done(Ok(seen.value.accessToken))), Served(key, t, seen.value, n1, n2))
    else
      Move(s.(now := n2), t, SeedCheck)
  }

  function CheckEmptyStep(s: State, t: TaskId): State
    requires t in s.tasks
  {
    Move(s, t, if s.tasks[t].key !in s.cache && s.tasks[t].seed.Some? then SeedStore else Decide)
  }

  function StoreSeedStep(s: State, t: TaskId): State
    requires t in s.tasks && s.tasks[t].seed.Some?
  {
    var key, token := s.tasks[t].key, s.tasks[t].seed.value;
    Note(Move(s.(cache := s.cache[key := token]), t, Decide), Seeded(key, token))
  }

  function DecisionStep(s: State, t: TaskId, n1: int, n2: int, n3: int): State
    requires t in s.tasks
  {
    var key := s.tasks[t].key;
    var s1 := s.(now := n3);
    match Get(s.cache, key)
    case None => Move(s1, t, Done(Err(Unauthorized)))
    case Some(token) =>
      if !token.IsExpired(n1) && token.ExpiresWithin(n2, REFRESH_AHEAD) then Move(s1, t, WantHandle(token))
      else if token.IsExpired(n3) then Move(s1, t, WantHandle(token))
      else Note(Move(s1, t, Done(Ok(token.accessToken))), Served(key, t, token, n1, n2))
  }

  /** `refresh_lock`: clone the table's lock for the key, inserting a new one if there is none. */
  function TakeHandleStep(s: State, t: TaskId): State
    requires t in s.tasks && s.tasks[t].phase.WantHandle?
  {
    var key := s.tasks[t].key;
    var stage := Waiting(s.tasks[t].phase.expired);
    if key in s.table then
      Move(s, t, Refreshing(s.table[key], stage))
    else
      Move(s.(table := s.table[key := |s.home|], home := s.home + [key]), t, Refreshing(|s.home|, stage))
  }

  function AcquireStep(s: State, t: TaskId): State
    requires AtStage(s, t) && s.tasks[t].phase.stage.Waiting?
  {
    var p := s.tasks[t].phase;
    Move(s.(owner := s.owner[p.lock := t]), t, Refreshing(p.lock, Recheck(p.stage.expired)))
  }

  function RecheckStep(s: State, t: TaskId, n1: int, n2: int): State
    requires AtStage(s, t) && s.tasks[t].phase.stage.Recheck?
  {
    var key, p := s.tasks[t].key, s.tasks[t].phase;
    var seen := Get(s.cache, key);
    var s1 := s.(now := n2);
    if seen.Some? && Usable(seen.value, n1, n2) then
      Note(Move(s1, t, Refreshing(p.lock, Unlocking(Ok(seen.value.accessToken)))),
           Served(key, t, seen.value, n1, n2))
    else if p.stage.expired.refreshToken.None? then
      Move(s1, t, Refreshing(p.lock, Unlocking(Err(Unauthorized))))
    else
      Note(Move(s1, t, Refreshing(p.lock, Network)), Sent(key, t, n1, n2))
  }

  /** The token endpoint answered; nothing is awaited between the answer and the cache write. */
  function ReplyStep(s: State, t: TaskId, reply: Result<Token, RefreshError>): State
    requires AtStage(s, t)
  {
    var key, l := s.tasks[t].key, s.tasks[t].phase.lock;
    match reply
    case Ok(token) =>
      Note(Move(s.(cache := s.cache[key := token]), t, Refreshing(l, Unlocking(Ok(token.accessToken)))),
           Ended(key, t, Some(token)))
    case Err(e) =>
      Note(Move(s, t, Refreshing(l, Unlocking(Err(e)))), Ended(key, t, None))
  }

  function UnlockStep(s: State, t: TaskId): State
    requires AtStage(s, t) && s.tasks[t].phase.stage.Unlocking?
  {
    var p := s.tasks[t].phase;
    Move(Release(s, p.lock), t, Refreshing(p.lock, CountCheck(p.stage.answer)))
  }

  /** The first, unlocked test of `evict_refresh_lock`. */
  function CheckCountStep(s: State, t: TaskId): State
    requires AtStage(s, t) && s.tasks[t].phase.stage.CountCheck?
  {
    var p := s.tasks[t].phase;
    Move(s, t, Refreshing(p.lock,
      if StrongCount(s, p.lock) > 2 then Dropping(p.stage.answer) else TableCheck(p.stage.answer)))
  }

  predicate Evicts(s: State, t: TaskId)
    requires AtStage(s, t)
  {
    var key, l := s.tasks[t].key, s.tasks[t].phase.lock;
    key in s.table && s.table[key] == l && StrongCount(s, l) <= 2
  }

  /** The second half of `evict_refresh_lock`, under the table's mutex. */
  function CheckTableStep(s: State, t: TaskId): State
    requires AtStage(s, t) && s.tasks[t].phase.stage.TableCheck?
  {
    var p := s.tasks[t].phase;
    Move(if Evicts(s, t) then s.(table := s.table - {s.tasks[t].key}) else s,
         t, Refreshing(p.lock, Dropping(p.stage.answer)))
  }

  /** The caller drops the future at an await: no eviction, but guard and handle go. */
  function AbandonStep(s: State, t: TaskId): State
    requires AtStage(s, t)
  {
    var l := s.tasks[t].phase.lock;
    var gone := Refreshing(l, Dropping(Err(Abandoned)));
    if s.tasks[t].phase.stage.Waiting? then Move(s, t, gone)
    else Note(Move(Release(s, l), t, gone), Ended(s.tasks[t].key, t, None))
  }

  function Apply(s: State, a: Action): State
    requires Enabled(s, a)
  {
    match a
    case Spawn(t, key, seed) => SpawnStep(s, t, key, seed)
    case ReadCache(t, n1, n2) => ReadCacheStep(s, t, n1, n2)
    case CheckEmpty(t) => CheckEmptyStep(s, t)
    case StoreSeed(t) => StoreSeedStep(s, t)
    case DecideStep(t, n1, n2, n3) => DecisionStep(s, t, n1, n2, n3)
    case TakeHandle(t) => TakeHandleStep(s, t)
    case Acquire(t) => AcquireStep(s, t)
    case RecheckCache(t, n1, n2) => RecheckStep(s, t, n1, n2)
    case Reply(t, reply) => ReplyStep(s, t, reply)
    case Unlock(t) => UnlockStep(s, t)
    case CheckCount(t) => CheckCountStep(s, t)
    case CheckTable(t) => CheckTableStep(s, t)
    case DropHandle(t) => Move(s, t, Done(s.tasks[t].phase.stage.answer))
    case Abandon(t) => AbandonStep(s, t)
    case Authorize(key, token) => Note(s.(cache := s.cache[key := token]), Authorized(key, token))
    case Clear(key) => Note(s.(cache := s.cache - {key}), Cleared(key))
  }

  /** A process start: no task, no lock, the cache as `c0` left it. */
  function Init(c0: map<Key, Token>, now: int): State {
    State(map[], map[], [], map[], c0, now, [])
  }

  /** Every action of the sequence is enabled when its turn comes. */
  predicate Run(s: State, actions: seq<Action>)
    decreases |actions|
  {
    actions == [] || (Enabled(s, actions[0]) && Run(Apply(s, actions[0]), actions[1..]))
  }

  function Exec(s: State, actions: seq<Action>): State
    requires Run(s, actions)
    decreases |actions|
  {
    if actions == [] then s else Exec(Apply(s, actions[0]), actions[1..])
  }

  // ---------- Mutual exclusion under eviction ----------

  /** A waiting or holding task's handle is the table's current entry for its key. */
  ghost predicate HandlesAreCurrent(s: State) {
    forall t | t in s.tasks && (Waits(s.tasks[t].phase) || Critical(s.tasks[t].phase)) ::
      s.tasks[t].key in s.table && s.table[s.tasks[t].key] == s.tasks[t].phase.lock
  }

  ghost predicate LocksHaveHomes(s: State) {
    && (forall k | k in s.table :: s.table[k] < |s.home| && s.home[s.table[k]] == k)
    && (forall t | t in s.tasks && s.tasks[t].phase.Refreshing? ::
          s.tasks[t].phase.lock < |s.home| && s.home[s.tasks[t].phase.lock] == s.tasks[t].key)
  }

  ghost predicate GuardsAreOwned(s: State) {
    && (forall t | t in s.tasks && Critical(s.tasks[t].phase) ::
          s.tasks[t].phase.lock in s.owner && s.owner[s.tasks[t].phase.lock] == t)
    && (forall l | l in s.owner ::
          s.owner[l] in s.tasks && Critical(s.tasks[s.owner[l]].phase) && s.tasks[s.owner[l]].phase.lock == l)
  }

  ghost predicate LockInv(s: State) {
    HandlesAreCurrent(s) && LocksHaveHomes(s) && GuardsAreOwned(s)
  }

  /** At most one task per key is inside the refresh section. */
  ghost predicate MutualExclusion(s: State) {
    forall t, u | t in s.tasks && u in s.tasks
      && Critical(s.tasks[t].phase) && Critical(s.tasks[u].phase)
      && s.tasks[t].key == s.tasks[u].key :: t == u
  }

  /** The reference count test of the eviction is exact: two references to a tabled lock are
      the table's own and the caller's. */
  lemma LoneHandle(s: State, t: TaskId, key: Key, l: LockId)
    requires t in Holders(s.tasks, l)
    requires key in s.table && s.table[key] == l
    requires StrongCount(s, l) <= 2
    ensures Holders(s.tasks, l) == {t}
  {
    assert key in KeysOf(s.table, l);
    assert {key} <= KeysOf(s.table, l);
    Cardinality({key}, KeysOf(s.table, l));
    if u :| u in Holders(s.tasks, l) && u != t {
      Cardinality({t, u}, Holders(s.tasks, l));
    }
  }

  lemma Cardinality<T>(a: set<T>, b: set<T>)
    requires a <= b
    ensures |a| <= |b|
  {
    assert b == a + (b - a);
  }

  /** At most this task moved. */
  predicate Moved(s: State, s': State, t: TaskId) {
    t in s'.tasks && s'.tasks == s.tasks[t := s'.tasks[t]]
  }

  /** A step that leaves table, locks and owners alone, and moves one task without giving it
      a handle, a place in the queue or the guard. */
  ghost predicate Quiet(s: State, s': State, t: TaskId) {
    && s'.table == s.table && s'.home == s.home && s'.owner == s.owner
    && Moved(s, s', t)
    && (s'.tasks[t].phase.Refreshing? ==>
          && t in s.tasks && s.tasks[t].phase.Refreshing?
          && s'.tasks[t].phase.lock == s.tasks[t].phase.lock && s'.tasks[t].key == s.tasks[t].key)
    && (Waits(s'.tasks[t].phase) ==> Waits(s.tasks[t].phase))
    && (Critical(s'.tasks[t].phase) <==> t in s.tasks && Critical(s.tasks[t].phase))
  }

  lemma QuietKeepsLockInv(s: State, s': State, t: TaskId)
    requires LockInv(s) && Quiet(s, s', t)
    ensures LockInv(s')
  {
  }

  /** A task gets a handle to the table's lock for its key, an old one or a new one. */
  ghost predicate Queues(s: State, s': State, t: TaskId, l: LockId) {
    && t in s.tasks && !s.tasks[t].phase.Refreshing? && s'.owner == s.owner
    && Moved(s, s', t) && s'.tasks[t].key == s.tasks[t].key
    && s'.tasks[t].phase.Refreshing? && s'.tasks[t].phase.lock == l && s'.tasks[t].phase.stage.Waiting?
    && s'.table == s.table[s.tasks[t].key := l]
    && (s.tasks[t].key in s.table ==> s.table[s.tasks[t].key] == l)
    && s.home <= s'.home && l < |s'.home| && s'.home[l] == s.tasks[t].key
  }

  lemma QueuesKeepsHandles(s: State, s': State, t: TaskId, l: LockId)
    requires LockInv(s) && Queues(s, s', t, l)
    ensures HandlesAreCurrent(s')
  {
  }

  lemma QueuesKeepsHomes(s: State, s': State, t: TaskId, l: LockId)
    requires LockInv(s) && Queues(s, s', t, l)
    ensures LocksHaveHomes(s')
  {
  }

  lemma QueuesKeepsGuards(s: State, s': State, t: TaskId, l: LockId)
    requires LockInv(s) && Queues(s, s', t, l)
    ensures GuardsAreOwned(s')
  {
  }

  lemma HandleKeepsLockInv(s: State, t: TaskId)
    requires LockInv(s) && Enabled(s, TakeHandle(t))
    ensures LockInv(TakeHandleStep(s, t))
  {
    var s' := TakeHandleStep(s, t);
    var l := s'.tasks[t].phase.lock;
    assert Queues(s, s', t, l);
    QueuesKeepsHandles(s, s', t, l);
    QueuesKeepsHomes(s, s', t, l);
    QueuesKeepsGuards(s, s', t, l);
  }

  lemma AcquireKeepsLockInv(s: State, t: TaskId)
    requires LockInv(s) && Enabled(s, Acquire(t))
    ensures LockInv(AcquireStep(s, t))
  {
  }

  /** The guard is dropped, by `Unlock` or by abandonment. */
  lemma ReleaseKeepsLockInv(s: State, s': State, t: TaskId)
    requires LockInv(s) && t in s.tasks && Critical(s.tasks[t].phase)
    requires s'.table == s.table && s'.home == s.home && s'.owner == s.owner - {s.tasks[t].phase.lock}
    requires t in s'.tasks && s'.tasks == s.tasks[t := s'.tasks[t]] && s'.tasks[t].key == s.tasks[t].key
    requires s'.tasks[t].phase.Refreshing? && s'.tasks[t].phase.lock == s.tasks[t].phase.lock
    requires !Critical(s'.tasks[t].phase) && !Waits(s'.tasks[t].phase)
    ensures LockInv(s')
  {
  }

  lemma EvictionKeepsLockInv(s: State, t: TaskId)
    requires LockInv(s) && AtStage(s, t) && s.tasks[t].phase.stage.TableCheck? && Evicts(s, t)
    ensures LockInv(CheckTableStep(s, t))
  {
    var s' := CheckTableStep(s, t);
    LoneHandle(s, t, s.tasks[t].key, s.tasks[t].phase.lock);
    forall u | u in s'.tasks && (Waits(s'.tasks[u].phase) || Critical(s'.tasks[u].phase))
      ensures s'.tasks[u].key in s'.table
    {
      assert u != t && s.tasks[u] == s'.tasks[u];
      assert u !in Holders(s.tasks, s.tasks[t].phase.lock);
    }
  }

  lemma EarlyStepsAreQuiet(s: State, a: Action)
    requires Enabled(s, a)
    requires a.Spawn? || a.ReadCache? || a.CheckEmpty? || a.StoreSeed? || a.DecideStep?
    ensures Quiet(s, Apply(s, a), a.t)
  {
  }

  lemma RecheckIsQuiet(s: State, t: TaskId, n1: int, n2: int)
    requires AtStage(s, t) && s.tasks[t].phase.stage.Recheck?
    ensures Quiet(s, RecheckStep(s, t, n1, n2), t)
  {
  }

  lemma ReplyIsQuiet(s: State, t: TaskId, reply: Result<Token, RefreshError>)
    requires AtStage(s, t) && s.tasks[t].phase.stage.Network?
    ensures Quiet(s, ReplyStep(s, t, reply), t)
  {
  }

  lemma LateStepsAreQuiet(s: State, a: Action)
    requires Enabled(s, a)
    requires a.RecheckCache? || a.Reply? || a.CheckCount? || a.DropHandle? || (a.Abandon? && Waits(s.tasks[a.t].phase))
    ensures Quiet(s, Apply(s, a), a.t)
  {
    if a.RecheckCache? {
      RecheckIsQuiet(s, a.t, a.n1, a.n2);
    } else if a.Reply? {
      ReplyIsQuiet(s, a.t, a.reply);
    }
  }

  predicate TouchesLocks(s: State, a: Action)
    requires Enabled(s, a)
  {
    a.TakeHandle? || a.Acquire? || a.Unlock? || a.CheckTable? || (a.Abandon? && !Waits(s.tasks[a.t].phase))
  }

  lemma LockInvStep(s: State, a: Action)
    requires LockInv(s) && Enabled(s, a)
    ensures LockInv(Apply(s, a))
  {
    if TouchesLocks(s, a) {
      LockStepKeepsLockInv(s, a);
    } else if a.Authorize? || a.Clear? {
      OutsideKeepsLockInv(s, a);
    } else {
      OtherStepsAreQuiet(s, a);
      QuietKeepsLockInv(s, Apply(s, a), a.t);
    }
  }

  lemma LockStepKeepsLockInv(s: State, a: Action)
    requires LockInv(s) && Enabled(s, a) && TouchesLocks(s, a)
    ensures LockInv(Apply(s, a))
  {
    if a.TakeHandle? {
      HandleKeepsLockInv(s, a.t);
    } else if a.Acquire? {
      AcquireKeepsLockInv(s, a.t);
    } else if a.CheckTable? {
      if Evicts(s, a.t) { EvictionKeepsLockInv(s, a.t); } else { KeepingIsQuiet(s, a.t); }
    } else {
      ReleaseKeepsLockInv(s, Apply(s, a), a.t);
    }
  }

  lemma KeepingIsQuiet(s: State, t: TaskId)
    requires LockInv(s) && Enabled(s, CheckTable(t)) && !Evicts(s, t)
    ensures LockInv(CheckTableStep(s, t))
  {
    QuietKeepsLockInv(s, CheckTableStep(s, t), t);
  }

  lemma OutsideKeepsLockInv(s: State, a: Action)
    requires LockInv(s) && (a.Authorize? || a.Clear?)
    ensures LockInv(Apply(s, a))
  {
  }

  lemma OtherStepsAreQuiet(s: State, a: Action)
    requires Enabled(s, a) && !TouchesLocks(s, a) && !a.Authorize? && !a.Clear?
    ensures Quiet(s, Apply(s, a), a.t)
  {
    if a.Spawn? || a.ReadCache? || a.CheckEmpty? || a.StoreSeed? || a.DecideStep? {
      EarlyStepsAreQuiet(s, a);
    } else {
      LateStepsAreQuiet(s, a);
    }
  }

  lemma ExclusionFromInv(s: State)
    requires LockInv(s)
    ensures MutualExclusion(s)
  {
  }

  /** Over every run, from any cache: each waiting or holding handle is the table's entry, so
      eviction never lets two live locks exist for one key. */
  lemma {:induction false} RunKeepsLockInv(s: State, actions: seq<Action>)
    requires LockInv(s) && Run(s, actions)
    ensures LockInv(Exec(s, actions)) && MutualExclusion(Exec(s, actions))
    decreases |actions|
  {
    if actions == [] {
      ExclusionFromInv(s);
    } else {
      LockInvStep(s, actions[0]);
      RunKeepsLockInv(Apply(s, actions[0]), actions[1..]);
    }
  }

  /** From a process start, over every interleaving: the tasks waiting for or inside the refresh
      section of one key all share one lock, the table's entry, and at most one is inside. */
  lemma OneLiveLockPerKey(c0: map<Key, Token>, now: int, actions: seq<Action>, t: TaskId, u: TaskId)
    requires Run(Init(c0, now), actions)
    requires var tasks := Exec(Init(c0, now), actions).tasks;
      && t in tasks && (Waits(tasks[t].phase) || Critical(tasks[t].phase))
      && u in tasks && (Waits(tasks[u].phase) || Critical(tasks[u].phase))
      && tasks[t].key == tasks[u].key
    ensures var s := Exec(Init(c0, now), actions);
      && s.tasks[t].phase.lock == s.tasks[u].phase.lock
      && s.tasks[t].key in s.table && s.table[s.tasks[t].key] == s.tasks[t].phase.lock
      && (Critical(s.tasks[t].phase) && Critical(s.tasks[u].phase) ==> t == u)
  {
    RunKeepsLockInv(Init(c0, now), actions);
  }

  // ---------- What a run did to the cache and the network ----------

  /** The cached token of `k` after event `e`, if it was `before` beforehand. */
  function After(e: Event, k: Key, before: Option<Token>): Option<Token> {
    if e.key != k then before
    else match e
      case Seeded(_, token) => Some(token)
      case Authorized(_, token) => Some(token)
      case Cleared(_) => None
      case Ended(_, _, stored) => if stored.Some? then stored else before
      case _ => before
  }

  function FlightAfter(e: Event, k: Key, before: Option<TaskId>): Option<TaskId> {
    if e.key != k then before
    else match e
      case Sent(_, t, _, _) => Some(t)
      case Ended(_, _, _) => None
      case _ => before
  }

  /** The cached token of `k` once the events of `log` have happened to `c0`. */
  function Replay(c0: map<Key, Token>, log: seq<Event>, k: Key): Option<Token> {
    if log == [] then Get(c0, k)
    else After(log[|log| - 1], k, Replay(c0, log[..|log| - 1], k))
  }

  /** Whose token request for `k` is under way. */
  function InFlight(log: seq<Event>, k: Key): Option<TaskId> {
    if log == [] then None
    else FlightAfter(log[|log| - 1], k, InFlight(log[..|log| - 1], k))
  }

  /** What every event promises about the events before it. */
  predicate EventOk(c0: map<Key, Token>, past: seq<Event>, e: Event) {
    match e
    case Served(k, t, token, n1, n2) => n1 <= n2 && Replay(c0, past, k) == Some(token) && Usable(token, n1, n2)
    case Sent(k, t, n1, n2) =>
      && n1 <= n2
      && InFlight(past, k) == None
      && (Replay(c0, past, k).Some? ==> !Usable(Replay(c0, past, k).value, n1, n2))
    case Ended(k, t, _) => InFlight(past, k) == Some(t)
    case _ => true
  }

  predicate LogOk(c0: map<Key, Token>, log: seq<Event>) {
    forall i | 0 <= i < |log| :: EventOk(c0, log[..i], log[i])
  }

  /** A task's successful answer is a token it was served, or the one it fetched itself. */
  predicate Earned(log: seq<Event>, t: TaskId, key: Key, access: string) {
    exists i | 0 <= i < |log| ::
      && (log[i].Served? || (log[i].Ended? && log[i].stored.Some?))
      && log[i].key == key && log[i].task == t
      && access == (if log[i].Served? then log[i].token else log[i].stored.value).accessToken
  }

  function AnswerOf(p: Phase): Option<Answer> {
    match p
    case Done(answer) => Some(answer)
    case Refreshing(_, stage) =>
      if stage.Unlocking? || stage.CountCheck? || stage.TableCheck? || stage.Dropping? then Some(stage.answer) else None
    case _ => None
  }

  ghost predicate CacheMatches(c0: map<Key, Token>, s: State) {
    forall k :: Get(s.cache, k) == Replay(c0, s.log, k)
  }

  predicate Requesting(s: State, t: TaskId, k: Key) {
    AtStage(s, t) && s.tasks[t].phase.stage.Network? && s.tasks[t].key == k
  }

  ghost predicate FlightMatches(s: State) {
    && (forall k | InFlight(s.log, k).Some? :: Requesting(s, InFlight(s.log, k).value, k))
    && (forall t | t in s.tasks && Requesting(s, t, s.tasks[t].key) :: InFlight(s.log, s.tasks[t].key) == Some(t))
  }

  ghost predicate AnswersEarned(s: State) {
    forall t | t in s.tasks && AnswerOf(s.tasks[t].phase).Some? && AnswerOf(s.tasks[t].phase).value.Ok? ::
      Earned(s.log, t, s.tasks[t].key, AnswerOf(s.tasks[t].phase).value.value)
  }

  ghost predicate LogInv(c0: map<Key, Token>, s: State) {
    LogOk(c0, s.log) && CacheMatches(c0, s) && FlightMatches(s) && AnswersEarned(s)
  }

  lemma ReplaySnoc(c0: map<Key, Token>, log: seq<Event>, e: Event, k: Key)
    ensures Replay(c0, log + [e], k) == After(e, k, Replay(c0, log, k))
    ensures InFlight(log + [e], k) == FlightAfter(e, k, InFlight(log, k))
  {
    assert (log + [e])[..|log|] == log;
  }

  lemma LogOkSnoc(c0: map<Key, Token>, log: seq<Event>, e: Event)
    requires LogOk(c0, log) && EventOk(c0, log, e)
    ensures LogOk(c0, log + [e])
  {
    forall i | 0 <= i < |log + [e]|
      ensures EventOk(c0, (log + [e])[..i], (log + [e])[i])
    {
      if i < |log| {
        assert (log + [e])[..i] == log[..i];
      } else {
        assert (log + [e])[..i] == log;
      }
    }
  }

  lemma EarnedSnoc(log: seq<Event>, e: Event, t: TaskId, key: Key, access: string)
    requires Earned(log, t, key, access)
    ensures Earned(log + [e], t, key, access)
  {
    var i :| 0 <= i < |log| && (log[i].Served? || (log[i].Ended? && log[i].stored.Some?))
      && log[i].key == key && log[i].task == t
      && access == (if log[i].Served? then log[i].token else log[i].stored.value).accessToken;
    assert (log + [e])[i] == log[i];
  }

  predicate InNetwork(s: State, t: TaskId) {
    AtStage(s, t) && s.tasks[t].phase.stage.Network?
  }

  function AnswerAt(s: State, t: TaskId): Option<Answer> {
    if t in s.tasks then AnswerOf(s.tasks[t].phase) else None
  }

  /** One task moves and says nothing. */
  ghost predicate Silent(s: State, s': State, t: TaskId) {
    && s'.log == s.log && s'.cache == s.cache
    && Moved(s, s', t)
    && (t in s.tasks ==> s'.tasks[t].key == s.tasks[t].key)
    && !InNetwork(s, t) && !InNetwork(s', t)
    && (AnswerAt(s', t).Some? && AnswerAt(s', t).value.Ok? ==> AnswerAt(s', t) == AnswerAt(s, t))
  }

  lemma SilentKeepsLogInv(c0: map<Key, Token>, s: State, s': State, t: TaskId)
    requires LogInv(c0, s) && Silent(s, s', t)
    ensures LogInv(c0, s')
  {
  }

  /** One task moves and its event says how. */
  ghost predicate Speaks(c0: map<Key, Token>, s: State, s': State, t: TaskId, e: Event) {
    && s'.log == s.log + [e] && EventOk(c0, s.log, e)
    && (forall k :: Get(s'.cache, k) == After(e, k, Get(s.cache, k)))
    && t in s.tasks && Moved(s, s', t)
    && s'.tasks[t].key == s.tasks[t].key == e.key
    && (InNetwork(s, t) <==> e.Ended?) && (InNetwork(s', t) <==> e.Sent?)
    && ((e.Sent? || e.Ended? || e.Served?) ==> e.task == t)
    && (AnswerAt(s', t).Some? && AnswerAt(s', t).value.Ok? ==>
          && (e.Served? || (e.Ended? && e.stored.Some?))
          && AnswerAt(s', t).value.value == (if e.Served? then e.token else e.stored.value).accessToken)
  }

  lemma SpeaksKeepsLog(c0: map<Key, Token>, s: State, s': State, t: TaskId, e: Event)
    requires LogInv(c0, s) && Speaks(c0, s, s', t, e)
    ensures LogOk(c0, s'.log) && CacheMatches(c0, s')
  {
    LogOkSnoc(c0, s.log, e);
    forall k
      ensures Get(s'.cache, k) == Replay(c0, s'.log, k)
    {
      ReplaySnoc(c0, s.log, e, k);
    }
  }

  lemma SpeaksKeepsFlight(c0: map<Key, Token>, s: State, s': State, t: TaskId, e: Event)
    requires LogInv(c0, s) && Speaks(c0, s, s', t, e)
    ensures FlightMatches(s')
  {
    forall k
      ensures InFlight(s'.log, k) == FlightAfter(e, k, InFlight(s.log, k))
    {
      ReplaySnoc(c0, s.log, e, k);
    }
  }

  lemma SpeaksKeepsAnswers(c0: map<Key, Token>, s: State, s': State, t: TaskId, e: Event)
    requires LogInv(c0, s) && Speaks(c0, s, s', t, e)
    ensures AnswersEarned(s')
  {
    forall u | u in s'.tasks && AnswerAt(s', u).Some? && AnswerAt(s', u).value.Ok?
      ensures Earned(s'.log, u, s'.tasks[u].key, AnswerAt(s', u).value.value)
    {
      if u == t {
        assert s'.log[|s.log|] == e;
      } else {
        EarnedSnoc(s.log, e, u, s.tasks[u].key, AnswerAt(s, u).value.value);
      }
    }
  }

  lemma SpeaksKeepsLogInv(c0: map<Key, Token>, s: State, s': State, t: TaskId, e: Event)
    requires LogInv(c0, s) && Speaks(c0, s, s', t, e)
    ensures LogInv(c0, s')
  {
    SpeaksKeepsLog(c0, s, s', t, e);
    SpeaksKeepsFlight(c0, s, s', t, e);
    SpeaksKeepsAnswers(c0, s, s', t, e);
  }

  /** Someone outside the protocol writes or clears the cache. */
  lemma OutsideKeepsLogInv(c0: map<Key, Token>, s: State, a: Action)
    requires LogInv(c0, s) && (a.Authorize? || a.Clear?)
    ensures LogInv(c0, Apply(s, a))
  {
    var s' := Apply(s, a);
    var e := if a.Authorize? then Authorized(a.key, a.token) else Cleared(a.key);
    LogOkSnoc(c0, s.log, e);
    forall k
      ensures Get(s'.cache, k) == Replay(c0, s'.log, k) && InFlight(s'.log, k) == InFlight(s.log, k)
    {
      ReplaySnoc(c0, s.log, e, k);
    }
    forall t | t in s'.tasks && AnswerAt(s', t).Some? && AnswerAt(s', t).value.Ok?
      ensures Earned(s'.log, t, s'.tasks[t].key, AnswerAt(s', t).value.value)
    {
      EarnedSnoc(s.log, e, t, s.tasks[t].key, AnswerAt(s, t).value.value);
    }
  }

  lemma EarlyStepKeepsLogInv(c0: map<Key, Token>, s: State, a: Action)
    requires LogInv(c0, s) && Enabled(s, a)
    requires a.Spawn? || a.CheckEmpty? || a.TakeHandle? || a.Acquire? || a.Unlock?
    ensures LogInv(c0, Apply(s, a))
  {
    SilentKeepsLogInv(c0, s, Apply(s, a), a.t);
  }

  lemma LateStepKeepsLogInv(c0: map<Key, Token>, s: State, a: Action)
    requires LogInv(c0, s) && Enabled(s, a)
    requires a.CheckCount? || a.CheckTable? || a.DropHandle?
    ensures LogInv(c0, Apply(s, a))
  {
    SilentKeepsLogInv(c0, s, Apply(s, a), a.t);
  }

  lemma ReadCacheKeepsLogInv(c0: map<Key, Token>, s: State, t: TaskId, n1: int, n2: int)
    requires LogInv(c0, s) && Enabled(s, ReadCache(t, n1, n2))
    ensures LogInv(c0, ReadCacheStep(s, t, n1, n2))
  {
    var key, s' := s.tasks[t].key, ReadCacheStep(s, t, n1, n2);
    var seen := Get(s.cache, key);
    if s'.log == s.log {
      SilentKeepsLogInv(c0, s, s', t);
    } else {
      ServedSpeaks(c0, s, t, seen.value, n1, n2, Done(Ok(seen.value.accessToken)), n2);
      SpeaksKeepsLogInv(c0, s, s', t, Served(key, t, seen.value, n1, n2));
    }
  }

  lemma DecideKeepsLogInv(c0: map<Key, Token>, s: State, t: TaskId, n1: int, n2: int, n3: int)
    requires LogInv(c0, s) && Enabled(s, DecideStep(t, n1, n2, n3))
    ensures LogInv(c0, DecisionStep(s, t, n1, n2, n3))
  {
    var key, s' := s.tasks[t].key, DecisionStep(s, t, n1, n2, n3);
    var seen := Get(s.cache, key);
    if s'.log == s.log {
      SilentKeepsLogInv(c0, s, s', t);
    } else {
      ServedSpeaks(c0, s, t, seen.value, n1, n2, Done(Ok(seen.value.accessToken)), n3);
      SpeaksKeepsLogInv(c0, s, s', t, Served(key, t, seen.value, n1, n2));
    }
  }

  lemma StoreSeedKeepsLogInv(c0: map<Key, Token>, s: State, t: TaskId)
    requires LogInv(c0, s) && Enabled(s, StoreSeed(t))
    ensures LogInv(c0, StoreSeedStep(s, t))
  {
    var s' := StoreSeedStep(s, t);
    SpeaksKeepsLogInv(c0, s, s', t, s'.log[|s.log|]);
  }

  /** A task of the same key in the network would hold the guard the rechecking task has. */
  lemma RecheckingTaskIsAlone(s: State, t: TaskId)
    requires LockInv(s) && FlightMatches(s) && AtStage(s, t) && s.tasks[t].phase.stage.Recheck?
    ensures InFlight(s.log, s.tasks[t].key) == None
  {
    ExclusionFromInv(s);
  }

  lemma RecheckKeepsLogInv(c0: map<Key, Token>, s: State, t: TaskId, n1: int, n2: int)
    requires LogInv(c0, s) && LockInv(s) && Enabled(s, RecheckCache(t, n1, n2))
    ensures LogInv(c0, RecheckStep(s, t, n1, n2))
  {
    var s' := RecheckStep(s, t, n1, n2);
    if s'.log == s.log {
      SilentKeepsLogInv(c0, s, s', t);
    } else {
      RecheckingTaskIsAlone(s, t);
      RecheckSpeaks(c0, s, t, n1, n2);
      SpeaksKeepsLogInv(c0, s, s', t, s'.log[|s.log|]);
    }
  }

  lemma RecheckSpeaks(c0: map<Key, Token>, s: State, t: TaskId, n1: int, n2: int)
    requires Enabled(s, RecheckCache(t, n1, n2)) && RecheckStep(s, t, n1, n2).log != s.log
    requires InFlight(s.log, s.tasks[t].key) == None
    requires Get(s.cache, s.tasks[t].key) == Replay(c0, s.log, s.tasks[t].key)
    ensures Speaks(c0, s, RecheckStep(s, t, n1, n2), t, RecheckStep(s, t, n1, n2).log[|s.log|])
  {
    var key, p := s.tasks[t].key, s.tasks[t].phase;
    var seen := Get(s.cache, key);
    if seen.Some? && Usable(seen.value, n1, n2) {
      ServedSpeaks(c0, s, t, seen.value, n1, n2, Refreshing(p.lock, Unlocking(Ok(seen.value.accessToken))), n2);
    } else {
      SentSpeaks(c0, s, t, n1, n2, p.lock);
    }
  }

  /** A task takes its answer from the cache. */
  lemma ServedSpeaks(c0: map<Key, Token>, s: State, t: TaskId, token: Token, n1: int, n2: int, p: Phase, now: int)
    requires t in s.tasks && !InNetwork(s, t) && !(p.Refreshing? && p.stage.Network?)
    requires Get(s.cache, s.tasks[t].key) == Some(token) == Replay(c0, s.log, s.tasks[t].key)
    requires n1 <= n2 && Usable(token, n1, n2) && AnswerOf(p) == Some(Ok(token.accessToken))
    ensures var e := Served(s.tasks[t].key, t, token, n1, n2);
      Speaks(c0, s, Note(Move(s.(now := now), t, p), e), t, e)
  {
  }

  lemma SentSpeaks(c0: map<Key, Token>, s: State, t: TaskId, n1: int, n2: int, l: LockId)
    requires t in s.tasks && !InNetwork(s, t) && n1 <= n2 && InFlight(s.log, s.tasks[t].key) == None
    requires var seen := Replay(c0, s.log, s.tasks[t].key); seen.Some? ==> !Usable(seen.value, n1, n2)
    ensures var e := Sent(s.tasks[t].key, t, n1, n2);
      Speaks(c0, s, Note(Move(s.(now := n2), t, Refreshing(l, Network)), e), t, e)
  {
  }

  lemma ReplyKeepsLogInv(c0: map<Key, Token>, s: State, t: TaskId, reply: Result<Token, RefreshError>)
    requires LogInv(c0, s) && Enabled(s, Reply(t, reply))
    ensures LogInv(c0, ReplyStep(s, t, reply))
  {
    var s' := ReplyStep(s, t, reply);
    assert Requesting(s, t, s.tasks[t].key);
    SpeaksKeepsLogInv(c0, s, s', t, s'.log[|s.log|]);
  }

  lemma AbandonKeepsLogInv(c0: map<Key, Token>, s: State, t: TaskId)
    requires LogInv(c0, s) && Enabled(s, Abandon(t))
    ensures LogInv(c0, AbandonStep(s, t))
  {
    var s' := AbandonStep(s, t);
    if s.tasks[t].phase.stage.Waiting? {
      SilentKeepsLogInv(c0, s, s', t);
    } else {
      assert Requesting(s, t, s.tasks[t].key);
      SpeaksKeepsLogInv(c0, s, s', t, s'.log[|s.log|]);
    }
  }

  lemma LogInvStep(c0: map<Key, Token>, s: State, a: Action)
    requires LogInv(c0, s) && LockInv(s) && Enabled(s, a)
    ensures LogInv(c0, Apply(s, a))
  {
    if a.Authorize? || a.Clear? {
      OutsideKeepsLogInv(c0, s, a);
    } else if a.ReadCache? {
      ReadCacheKeepsLogInv(c0, s, a.t, a.n1, a.n2);
    } else if a.DecideStep? {
      DecideKeepsLogInv(c0, s, a.t, a.n1, a.n2, a.n3);
    } else if a.StoreSeed? {
      StoreSeedKeepsLogInv(c0, s, a.t);
    } else if a.RecheckCache? {
      RecheckKeepsLogInv(c0, s, a.t, a.n1, a.n2);
    } else if a.Reply? {
      ReplyKeepsLogInv(c0, s, a.t, a.reply);
    } else if a.Abandon? {
      AbandonKeepsLogInv(c0, s, a.t);
    } else if a.CheckCount? || a.CheckTable? || a.DropHandle? {
      LateStepKeepsLogInv(c0, s, a);
    } else {
      EarlyStepKeepsLogInv(c0, s, a);
    }
  }

  /** Over every run: the log tells the truth about the cache, requests for one key never
      overlap, nothing unusable is served, and every success is served or fetched. */
  lemma {:induction false} RunKeepsLogInv(c0: map<Key, Token>, s: State, actions: seq<Action>)
    requires LogInv(c0, s) && LockInv(s) && Run(s, actions)
    ensures LogInv(c0, Exec(s, actions))
    decreases |actions|
  {
    if actions != [] {
      LockInvStep(s, actions[0]);
      LogInvStep(c0, s, actions[0]);
      RunKeepsLogInv(c0, Apply(s, actions[0]), actions[1..]);
    }
  }

  // ---------- Refresh deduplication ----------

  predicate SentFor(e: Event, k: Key) {
    e.Sent? && e.key == k
  }

  /** A cache write for `k` that is not the outcome of a refresh. */
  predicate Outside(e: Event, k: Key) {
    e.key == k && (e.Seeded? || e.Authorized? || e.Cleared?)
  }

  /** A request under way ends, by its own task, before the next one is sent. */
  lemma {:induction false} EndComes(c0: map<Key, Token>, log: seq<Event>, a: nat, b: nat, k: Key, t: TaskId) returns (e: nat)
    requires LogOk(c0, log) && a <= b <= |log|
    requires InFlight(log[..a], k) == Some(t) && InFlight(log[..b], k) == None
    requires forall x | a <= x < b :: !SentFor(log[x], k)
    ensures a <= e < b && log[e].Ended? && log[e].key == k && log[e].task == t
    ensures InFlight(log[..e + 1], k) == None
    decreases b - a
  {
    assert a < b;
    assert log[..a + 1] == log[..a] + [log[a]];
    ReplaySnoc(c0, log[..a], log[a], k);
    if log[a].key == k && log[a].Ended? {
      e := a;
    } else {
      e := EndComes(c0, log, a + 1, b, k, t);
    }
  }

  /** With nothing under way, nothing sent and nothing written from outside, the cached token
      stays what it was. */
  lemma {:induction false} QuietCache(c0: map<Key, Token>, log: seq<Event>, a: nat, b: nat, k: Key)
    requires LogOk(c0, log) && a <= b <= |log|
    requires InFlight(log[..a], k) == None
    requires forall x | a <= x < b :: !SentFor(log[x], k) && !Outside(log[x], k)
    ensures Replay(c0, log[..b], k) == Replay(c0, log[..a], k)
    decreases b - a
  {
    if a < b {
      assert log[..a + 1] == log[..a] + [log[a]];
      ReplaySnoc(c0, log[..a], log[a], k);
      assert EventOk(c0, log[..a], log[a]);
      QuietCache(c0, log, a + 1, b, k);
    }
  }

  /** Between two successive refreshes of one key lies the end of the first, by its own task;
      and either it stored nothing, or what it stored had at most the refresh margin left when
      the second task looked again, or somebody outside the protocol rewrote the entry. */
  lemma SuccessiveRefreshes(c0: map<Key, Token>, log: seq<Event>, i: nat, j: nat, k: Key)
    requires LogOk(c0, log) && i < j < |log| && SentFor(log[i], k) && SentFor(log[j], k)
    requires forall x | i < x < j :: !SentFor(log[x], k)
    ensures exists e | i < e < j ::
      && log[e].Ended? && log[e].key == k && log[e].task == log[i].task
      && (|| log[e].stored.None?
          || log[e].stored.value.expiresAt - log[j].n2 <= 60_000_000_000
          || exists w | e < w < j :: Outside(log[w], k))
  {
    assert log[..i + 1] == log[..i] + [log[i]];
    ReplaySnoc(c0, log[..i], log[i], k);
    assert EventOk(c0, log[..j], log[j]);
    var e := EndComes(c0, log, i + 1, j, k, log[i].task);
    if log[e].stored.Some? && !exists w | e < w < j :: Outside(log[w], k) {
      StoredIsStale(c0, log, e, j, k);
    }
  }

  lemma StoredIsStale(c0: map<Key, Token>, log: seq<Event>, e: nat, j: nat, k: Key)
    requires LogOk(c0, log) && e < j < |log| && SentFor(log[j], k)
    requires log[e].Ended? && log[e].key == k && log[e].stored.Some? && InFlight(log[..e + 1], k) == None
    requires forall x | e < x < j :: !SentFor(log[x], k) && !Outside(log[x], k)
    ensures log[e].stored.value.expiresAt - log[j].n2 <= 60_000_000_000
  {
    assert log[..e + 1] == log[..e] + [log[e]];
    ReplaySnoc(c0, log[..e], log[e], k);
    QuietCache(c0, log, e + 1, j, k);
    assert EventOk(c0, log[..j], log[j]);
  }

  /** The same for the log of any run from process start. */
  lemma RefreshesAreDeduplicated(c0: map<Key, Token>, now: int, actions: seq<Action>, i: nat, j: nat, k: Key)
    requires Run(Init(c0, now), actions)
    requires var log := Exec(Init(c0, now), actions).log;
             && i < j < |log| && SentFor(log[i], k) && SentFor(log[j], k)
             && forall x | i < x < j :: !SentFor(log[x], k)
    ensures var log := Exec(Init(c0, now), actions).log;
            exists e | i < e < j ::
              && log[e].Ended? && log[e].key == k && log[e].task == log[i].task
              && (|| log[e].stored.None?
                  || log[e].stored.value.expiresAt - log[j].n2 <= 60_000_000_000
                  || exists w | e < w < j :: Outside(log[w], k))
  {
    RunKeepsLogInv(c0, Init(c0, now), actions);
    SuccessiveRefreshes(c0, Exec(Init(c0, now), actions).log, i, j, k);
  }

  /** The entry of `k` is populated and no task is about to overwrite it with its seed. */
  predicate Populated(s: State, k: Key) {
    && k in s.cache
    && (forall t | t in s.tasks && s.tasks[t].key == k :: !s.tasks[t].phase.SeedStore?)
    && (forall i | 0 <= i < |s.log| :: !Outside(s.log[i], k))
  }

  /** Nobody clears the token of `k` or completes an authorization for it. */
  predicate Undisturbed(actions: seq<Action>, k: Key) {
    forall i | 0 <= i < |actions| :: (actions[i].Clear? || actions[i].Authorize?) ==> actions[i].key != k
  }

  /** Keeps the entry of `k`, moves at most task `t`, and adds at most one harmless event. */
  ghost predicate Harmless(s: State, s': State, t: TaskId, k: Key) {
    && (k in s.cache ==> k in s'.cache)
    && Moved(s, s', t)
    && (s'.tasks[t].key == k ==> !s'.tasks[t].phase.SeedStore?)
    && (s'.log == s.log || exists e :: s'.log == s.log + [e] && !Outside(e, k))
  }

  lemma HarmlessKeepsPopulated(s: State, s': State, t: TaskId, k: Key)
    requires Populated(s, k) && Harmless(s, s', t, k)
    ensures Populated(s', k)
  {
  }

  lemma EarlyStepsAreHarmless(s: State, a: Action, k: Key)
    requires Populated(s, k) && Enabled(s, a)
    requires a.Spawn? || a.ReadCache? || a.CheckEmpty? || a.StoreSeed? || a.DecideStep?
    ensures Harmless(s, Apply(s, a), a.t, k)
  {
  }

  lemma LockingStepsAreHarmless(s: State, a: Action, k: Key)
    requires Populated(s, k) && Enabled(s, a) && (a.TakeHandle? || a.Acquire?)
    ensures Harmless(s, Apply(s, a), a.t, k)
  {
  }

  lemma InnerStepsAreHarmless(s: State, a: Action, k: Key)
    requires Populated(s, k) && Enabled(s, a) && (a.RecheckCache? || a.Reply?)
    ensures Harmless(s, Apply(s, a), a.t, k)
  {
    if a.RecheckCache? {
      RecheckIsHarmless(s, a.t, a.n1, a.n2, k);
    } else {
      ReplyIsHarmless(s, a.t, a.reply, k);
    }
  }

  lemma RecheckIsHarmless(s: State, t: TaskId, n1: int, n2: int, k: Key)
    requires AtStage(s, t) && s.tasks[t].phase.stage.Recheck?
    ensures Harmless(s, RecheckStep(s, t, n1, n2), t, k)
  {
  }

  lemma ReplyIsHarmless(s: State, t: TaskId, reply: Result<Token, RefreshError>, k: Key)
    requires AtStage(s, t)
    ensures Harmless(s, ReplyStep(s, t, reply), t, k)
  {
  }

  lemma LateStepsAreHarmless(s: State, a: Action, k: Key)
    requires Populated(s, k) && Enabled(s, a)
    requires a.Unlock? || a.CheckCount? || a.CheckTable? || a.DropHandle? || a.Abandon?
    ensures Harmless(s, Apply(s, a), a.t, k)
  {
  }

  lemma PopulatedStep(s: State, a: Action, k: Key)
    requires Populated(s, k) && Enabled(s, a)
    requires (a.Clear? || a.Authorize?) ==> a.key != k
    ensures Populated(Apply(s, a), k)
  {
    if !a.Clear? && !a.Authorize? {
      if a.Spawn? || a.ReadCache? || a.CheckEmpty? || a.StoreSeed? || a.DecideStep? {
        EarlyStepsAreHarmless(s, a, k);
      } else if a.TakeHandle? || a.Acquire? {
        LockingStepsAreHarmless(s, a, k);
      } else if a.RecheckCache? || a.Reply? {
        InnerStepsAreHarmless(s, a, k);
      } else {
        LateStepsAreHarmless(s, a, k);
      }
      HarmlessKeepsPopulated(s, Apply(s, a), a.t, k);
    }
  }

  lemma {:induction false} PopulatedRun(s: State, actions: seq<Action>, k: Key)
    requires Populated(s, k) && Run(s, actions) && Undisturbed(actions, k)
    ensures Populated(Exec(s, actions), k)
    decreases |actions|
  {
    if actions != [] {
      PopulatedStep(s, actions[0], k);
      PopulatedRun(Apply(s, actions[0]), actions[1..], k);
    }
  }

  /** From a populated entry, with no clear and no authorization: the second of two successive
      refreshes of a key happens only if the first stored nothing, or stored a token with at
      most the refresh margin left at the second task's look. */
  lemma RefreshedOnlyWhenStale(c0: map<Key, Token>, now: int, actions: seq<Action>, i: nat, j: nat, k: Key)
    requires k in c0 && Run(Init(c0, now), actions) && Undisturbed(actions, k)
    requires var log := Exec(Init(c0, now), actions).log;
             && i < j < |log| && SentFor(log[i], k) && SentFor(log[j], k)
             && forall x | i < x < j :: !SentFor(log[x], k)
    ensures var log := Exec(Init(c0, now), actions).log;
            exists e | i < e < j ::
              && log[e].Ended? && log[e].key == k && log[e].task == log[i].task
              && (log[e].stored.None? || log[e].stored.value.expiresAt - log[j].n2 <= 60_000_000_000)
  {
    PopulatedRun(Init(c0, now), actions, k);
    RefreshesAreDeduplicated(c0, now, actions, i, j, k);
  }

  /** Every successful answer is a token that was in the cache, not expired and with more than 60 seconds
      left, when its caller looked, or the one its own refresh stored. */
  lemma AnswersAreEarned(c0: map<Key, Token>, now: int, actions: seq<Action>, t: TaskId)
    requires Run(Init(c0, now), actions)
    requires var s := Exec(Init(c0, now), actions);
             t in s.tasks && s.tasks[t].phase.Done? && s.tasks[t].phase.answer.Ok?
    ensures var s := Exec(Init(c0, now), actions);
            exists i | 0 <= i < |s.log| ::
              && s.log[i].key == s.tasks[t].key
              && (|| (s.log[i].Served? && s.log[i].task == t
                      && s.log[i].token.accessToken == s.tasks[t].phase.answer.value
                      && Replay(c0, s.log[..i], s.tasks[t].key) == Some(s.log[i].token)
                      && s.log[i].token.expiresAt > s.log[i].n1
                      && s.log[i].token.expiresAt - s.log[i].n2 > 60_000_000_000)
                  || (s.log[i].Ended? && s.log[i].task == t && s.log[i].stored.Some?
                      && s.log[i].stored.value.accessToken == s.tasks[t].phase.answer.value))
  {
    RunKeepsLogInv(c0, Init(c0, now), actions);
    var s := Exec(Init(c0, now), actions);
    assert Earned(s.log, t, s.tasks[t].key, s.tasks[t].phase.answer.value);
    var i :| 0 <= i < |s.log| && (s.log[i].Served? || (s.log[i].Ended? && s.log[i].stored.Some?))
      && s.log[i].key == s.tasks[t].key && s.log[i].task == t
      && s.tasks[t].phase.answer.value == (if s.log[i].Served? then s.log[i].token else s.log[i].stored.value).accessToken;
    assert EventOk(c0, s.log[..i], s.log[i]);
  }

  // ---------- What each look at a token decides ----------

  /** Expired at the first look, or with at most 60 seconds left at the second. */
  predicate StaleAt(expiresAt: int, n1: int, n2: int) {
    expiresAt <= n1 || expiresAt - n2 <= 60_000_000_000
  }

  /** Over every run: no token is handed out that is expired or has 60 seconds or less left, and the
      network is asked only when the key has no token or such a one. */
  lemma LooksAreRight(c0: map<Key, Token>, now: int, actions: seq<Action>, i: nat)
    requires Run(Init(c0, now), actions) && i < |Exec(Init(c0, now), actions).log|
    ensures var log := Exec(Init(c0, now), actions).log; var e := log[i];
      && (e.Served? ==> e.n1 <= e.n2 && e.token.expiresAt > e.n1 && e.token.expiresAt - e.n2 > 60_000_000_000)
      && (e.Sent? ==> match Replay(c0, log[..i], e.key)
                      case None => true
                      case Some(token) => token.expiresAt <= e.n1 || token.expiresAt - e.n2 <= 60_000_000_000)
  {
    RunKeepsLogInv(c0, Init(c0, now), actions);
    var log := Exec(Init(c0, now), actions).log;
    assert EventOk(c0, log[..i], log[i]);
  }

  /** The first look answers exactly with a cached token that is good, and otherwise goes on. */
  lemma FirstLookDecides(s: State, t: TaskId, n1: int, n2: int)
    requires Enabled(s, ReadCache(t, n1, n2))
    ensures var key := s.tasks[t].key; var s' := Apply(s, ReadCache(t, n1, n2));
      if key in s.cache && !StaleAt(s.cache[key].expiresAt, n1, n2)
      then s'.tasks[t].phase == Done(Ok(s.cache[key].accessToken))
      else s'.tasks[t].phase == SeedCheck
  {
  }

  /** The seed is stored exactly when there is one and the key has no token. */
  lemma SeedingDecides(s: State, t: TaskId)
    requires Enabled(s, CheckEmpty(t))
    ensures Apply(s, CheckEmpty(t)).tasks[t].phase == SeedStore <==> s.tasks[t].key !in s.cache && s.tasks[t].seed.Some?
    ensures Apply(s, CheckEmpty(t)).tasks[t].phase == SeedStore || Apply(s, CheckEmpty(t)).tasks[t].phase == Decide
  {
  }

  /** The second look refreshes exactly a token that is expired or has 60 seconds or less left. */
  lemma SecondLookDecides(s: State, t: TaskId, n1: int, n2: int, n3: int)
    requires Enabled(s, DecideStep(t, n1, n2, n3))
    ensures var key := s.tasks[t].key; var phase := Apply(s, DecideStep(t, n1, n2, n3)).tasks[t].phase;
      if key !in s.cache then phase == Done(Err(Unauthorized))
      else if s.cache[key].expiresAt <= n3 || s.cache[key].expiresAt - n2 <= 60_000_000_000 then phase == WantHandle(s.cache[key])
      else phase == Done(Ok(s.cache[key].accessToken))
  {
  }

  /** The look under the guard asks the network if and only if there is a refresh token and the key
      has no token, an expired one, or one with 60 seconds or less left; a good one is the answer. */
  lemma GuardedLookDecides(s: State, t: TaskId, n1: int, n2: int)
    requires Enabled(s, RecheckCache(t, n1, n2))
    ensures var key := s.tasks[t].key; var s' := Apply(s, RecheckCache(t, n1, n2));
      && (InNetwork(s', t) <==>
            && s.tasks[t].phase.stage.expired.refreshToken.Some?
            && (key !in s.cache || s.cache[key].expiresAt <= n1 || s.cache[key].expiresAt - n2 <= 60_000_000_000))
      && (key in s.cache && s.cache[key].expiresAt > n1 && s.cache[key].expiresAt - n2 > 60_000_000_000 ==>
            AnswerAt(s', t) == Some(Ok(s.cache[key].accessToken)))
  {
  }

  /** A caller that is alone with the table's lock when it has its answer takes the lock out of the table. */
  lemma LastCallerEvicts(s: State, t: TaskId)
    requires LockInv(s) && Enabled(s, CheckCount(t))
    requires Get(s.table, s.tasks[t].key) == Some(s.tasks[t].phase.lock) && Holders(s.tasks, s.tasks[t].phase.lock) == {t}
    ensures var s' := Apply(s, CheckCount(t));
      Enabled(s', CheckTable(t)) && s.tasks[t].key !in Apply(s', CheckTable(t)).table
  {
    var key, l := s.tasks[t].key, s.tasks[t].phase.lock;
    OneKeyPerLock(s, l, key);
    var s' := Apply(s, CheckCount(t));
    HoldersStay(s.tasks, s'.tasks, t, l);
  }

  lemma OneKeyPerLock(s: State, l: LockId, key: Key)
    requires LockInv(s) && Get(s.table, key) == Some(l)
    ensures KeysOf(s.table, l) == {key}
  {
  }

  /** While another caller holds a handle, the entry stays. */
  lemma SharedLockStays(s: State, t: TaskId, u: TaskId)
    requires LockInv(s) && Enabled(s, CheckTable(t)) && t != u && {t, u} <= Holders(s.tasks, s.tasks[t].phase.lock)
    ensures Apply(s, CheckTable(t)).table == s.table
  {
    var key, l := s.tasks[t].key, s.tasks[t].phase.lock;
    if Get(s.table, key) == Some(l) && StrongCount(s, l) <= 2 {
      LoneHandle(s, t, key, l);
    }
  }

  /** The clock stands where it was last read, and nothing else moves it. */
  lemma ClockIsLastReading(s: State, t: TaskId, n1: int, n2: int, n3: int)
    ensures Enabled(s, ReadCache(t, n1, n2)) ==> Apply(s, ReadCache(t, n1, n2)).now == n2
    ensures Enabled(s, DecideStep(t, n1, n2, n3)) ==> Apply(s, DecideStep(t, n1, n2, n3)).now == n3
    ensures Enabled(s, RecheckCache(t, n1, n2)) ==> Apply(s, RecheckCache(t, n1, n2)).now == n2
  {
  }

  lemma OthersLeaveTheClock(s: State, a: Action)
    requires Enabled(s, a) && !a.ReadCache? && !a.DecideStep? && !a.RecheckCache?
    ensures Apply(s, a).now == s.now
  {
  }

  /** What a call waits for can happen, at any time from now on; only the guard may be with another
      call, and that one is past its own wait. */
  lemma CallsNeverStick(s: State, t: TaskId, n: int, key: Key, seed: Option<Token>)
    requires n >= s.now
    ensures t !in s.tasks ==> Enabled(s, Spawn(t, key, seed))
    ensures t in s.tasks ==>
      match s.tasks[t].phase
      case Start => Enabled(s, ReadCache(t, n, n))
      case SeedCheck => Enabled(s, CheckEmpty(t))
      case SeedStore => s.tasks[t].seed.Some? ==> Enabled(s, StoreSeed(t))
      case Decide => Enabled(s, DecideStep(t, n, n, n))
      case WantHandle(_) => Enabled(s, TakeHandle(t))
      case _ => true
  {
  }

  lemma RefreshesNeverStick(s: State, t: TaskId, n: int, reply: Result<Token, RefreshError>)
    requires LockInv(s) && n >= s.now && AtStage(s, t)
    ensures var l := s.tasks[t].phase.lock;
      match s.tasks[t].phase.stage
      case Waiting(_) =>
        && Enabled(s, Abandon(t))
        && (Enabled(s, Acquire(t)) || (l in s.owner && s.owner[l] in s.tasks && Critical(s.tasks[s.owner[l]].phase)))
      case Recheck(_) => Enabled(s, RecheckCache(t, n, n))
      case Network => Enabled(s, Abandon(t)) && Enabled(s, Reply(t, reply))
      case Unlocking(_) => Enabled(s, Unlock(t))
      case CountCheck(_) => Enabled(s, CheckCount(t))
      case TableCheck(_) => Enabled(s, CheckTable(t))
      case Dropping(_) => Enabled(s, DropHandle(t))
  {
  }

  /** A caller that is alone leaves nothing behind: left to itself it gives the guard back, takes the
      lock out of the table and returns its answer. */
  lemma LoneCallerCleansUp(s: State, t: TaskId)
    requires LockInv(s) && Enabled(s, Unlock(t)) && Holders(s.tasks, s.tasks[t].phase.lock) == {t}
    ensures Run(s, [Unlock(t), CheckCount(t), CheckTable(t), DropHandle(t)])
    ensures var end := Exec(s, [Unlock(t), CheckCount(t), CheckTable(t), DropHandle(t)]);
      && s.tasks[t].key !in end.table && s.tasks[t].phase.lock !in end.owner
      && t in end.tasks && end.tasks[t].phase == Done(s.tasks[t].phase.stage.answer)
      && end.cache == s.cache && end.log == s.log
  {
    LoneStepsCleanUp(s, t);
    var s1 := Apply(s, Unlock(t));
    var s2 := Apply(s1, CheckCount(t));
    FourSteps(s, s1, s2, Apply(s2, CheckTable(t)), Unlock(t), CheckCount(t), CheckTable(t), DropHandle(t));
  }

  lemma LoneStepsCleanUp(s: State, t: TaskId)
    requires LockInv(s) && Enabled(s, Unlock(t)) && Holders(s.tasks, s.tasks[t].phase.lock) == {t}
    ensures var s1 := Apply(s, Unlock(t));
      && Enabled(s1, CheckCount(t))
      && var s2 := Apply(s1, CheckCount(t));
         && Enabled(s2, CheckTable(t))
         && var s3 := Apply(s2, CheckTable(t));
            && Enabled(s3, DropHandle(t))
            && var end := Apply(s3, DropHandle(t));
               && s.tasks[t].key !in end.table && s.tasks[t].phase.lock !in end.owner
               && t in end.tasks && end.tasks[t].phase == Done(s.tasks[t].phase.stage.answer)
               && end.cache == s.cache && end.log == s.log
  {
    LoneUnlock(s, t);
    LoneEviction(Apply(s, Unlock(t)), t);
  }

  lemma LoneUnlock(s: State, t: TaskId)
    requires LockInv(s) && Enabled(s, Unlock(t)) && Holders(s.tasks, s.tasks[t].phase.lock) == {t}
    ensures var p := s.tasks[t].phase; var s1 := Apply(s, Unlock(t));
      && LockInv(s1) && Enabled(s1, CheckCount(t)) && p.lock !in s1.owner
      && s1.tasks[t] == s.tasks[t].(phase := Refreshing(p.lock, CountCheck(p.stage.answer)))
      && Get(s1.table, s.tasks[t].key) == Some(p.lock) && Holders(s1.tasks, p.lock) == {t}
      && s1.cache == s.cache && s1.log == s.log
  {
    LockStepKeepsLockInv(s, Unlock(t));
    HoldersStay(s.tasks, Apply(s, Unlock(t)).tasks, t, s.tasks[t].phase.lock);
  }

  lemma LoneEviction(s1: State, t: TaskId)
    requires LockInv(s1) && Enabled(s1, CheckCount(t)) && s1.tasks[t].phase.lock !in s1.owner
    requires Get(s1.table, s1.tasks[t].key) == Some(s1.tasks[t].phase.lock) && Holders(s1.tasks, s1.tasks[t].phase.lock) == {t}
    ensures var s2 := Apply(s1, CheckCount(t));
      && Enabled(s2, CheckTable(t))
      && var s3 := Apply(s2, CheckTable(t));
         && Enabled(s3, DropHandle(t))
         && var end := Apply(s3, DropHandle(t));
            && s1.tasks[t].key !in end.table && s1.tasks[t].phase.lock !in end.owner
            && t in end.tasks && end.tasks[t].phase == Done(s1.tasks[t].phase.stage.answer)
            && end.cache == s1.cache && end.log == s1.log
  {
    LastCallerEvicts(s1, t);
  }

  lemma FourSteps(s: State, s1: State, s2: State, s3: State, a: Action, b: Action, c: Action, d: Action)
    requires Enabled(s, a) && s1 == Apply(s, a) && Enabled(s1, b) && s2 == Apply(s1, b)
    requires Enabled(s2, c) && s3 == Apply(s2, c) && Enabled(s3, d)
    ensures Run(s, [a, b, c, d]) && Exec(s, [a, b, c, d]) == Apply(s3, d)
  {
    StepThenRun(s3, d, []);
    StepThenRun(s2, c, [d]);
    StepThenRun(s1, b, [c, d]);
    StepThenRun(s, a, [b, c, d]);
    assert [d] + [] == [d] && [c] + [d] == [c, d] && [b] + [c, d] == [b, c, d] && [a] + [b, c, d] == [a, b, c, d];
  }

  lemma StepThenRun(s: State, a: Action, rest: seq<Action>)
    requires Enabled(s, a) && Run(Apply(s, a), rest)
    ensures Run(s, [a] + rest) && Exec(s, [a] + rest) == Exec(Apply(s, a), rest)
  {
    assert ([a] + rest)[1..] == rest;
  }

  // ---------- Which errors a caller gets ----------

  /** This step refuses task `t` with error `e`: its configuration is blank, there is no token for the
      key, the guarded look finds no usable token and there is no refresh token, its own request
      failed, or its caller gave up. */
  predicate Refuses(s: State, a: Action, t: TaskId, e: RefreshError)
    requires Enabled(s, a)
  {
    match a
    case Spawn(u, key, _) => u == t && (Text.Trim(key.clientId) == "" || Text.Trim(key.tokenUrl) == "") && e == Config
    case DecideStep(u, _, _, _) => u == t && s.tasks[t].key !in s.cache && e == Unauthorized
    case RecheckCache(u, n1, n2) =>
      && u == t && s.tasks[t].phase.stage.expired.refreshToken.None? && e == Unauthorized
      && (s.tasks[t].key in s.cache ==> StaleAt(s.cache[s.tasks[t].key].expiresAt, n1, n2))
    case Reply(u, reply) => u == t && reply == Err(e)
    case Abandon(u) => u == t && e == Abandoned
    case _ => false
  }

  lemma RefusalIsTheAnswer(s: State, a: Action, t: TaskId, e: RefreshError)
    requires Enabled(s, a)
    ensures AnswerAt(Apply(s, a), t) == Some(Err(e)) <==> AnswerAt(s, t) == Some(Err(e)) || Refuses(s, a, t, e)
  {
    if a.Authorize? || a.Clear? || a.t != t {
      OthersKeepTheirAnswer(s, a, t);
    } else if a.Spawn? || a.ReadCache? || a.CheckEmpty? || a.StoreSeed? || a.DecideStep? {
      EarlyRefusal(s, a, e);
    } else {
      LateRefusal(s, a, e);
    }
  }

  lemma OthersKeepTheirAnswer(s: State, a: Action, t: TaskId)
    requires Enabled(s, a) && (a.Authorize? || a.Clear? || a.t != t)
    ensures AnswerAt(Apply(s, a), t) == AnswerAt(s, t)
  {
    if !a.Authorize? && !a.Clear? {
      StepMovesOneTask(s, a);
    }
  }

  lemma StepMovesOneTask(s: State, a: Action)
    requires Enabled(s, a) && !a.Authorize? && !a.Clear?
    ensures Moved(s, Apply(s, a), a.t)
  {
    if a.Spawn? || a.ReadCache? || a.CheckEmpty? || a.StoreSeed? || a.DecideStep? {
      EarlyStepsAreQuiet(s, a);
    } else if a.TakeHandle? || a.Acquire? || a.RecheckCache? || a.Reply? {
      InnerStepMovesOneTask(s, a);
    } else {
      LateStepMovesOneTask(s, a);
    }
  }

  lemma InnerStepMovesOneTask(s: State, a: Action)
    requires Enabled(s, a) && (a.TakeHandle? || a.Acquire? || a.RecheckCache? || a.Reply?)
    ensures Moved(s, Apply(s, a), a.t)
  {
  }

  lemma LateStepMovesOneTask(s: State, a: Action)
    requires Enabled(s, a) && (a.Unlock? || a.CheckCount? || a.CheckTable? || a.DropHandle? || a.Abandon?)
    ensures Moved(s, Apply(s, a), a.t)
  {
  }

  lemma EarlyRefusal(s: State, a: Action, e: RefreshError)
    requires Enabled(s, a) && (a.Spawn? || a.ReadCache? || a.CheckEmpty? || a.StoreSeed? || a.DecideStep?)
    ensures AnswerAt(s, a.t) == None
    ensures AnswerAt(Apply(s, a), a.t) == Some(Err(e)) <==> Refuses(s, a, a.t, e)
  {
  }

  lemma LateRefusal(s: State, a: Action, e: RefreshError)
    requires Enabled(s, a) && !(a.Spawn? || a.ReadCache? || a.CheckEmpty? || a.StoreSeed? || a.DecideStep?)
    requires !a.Authorize? && !a.Clear?
    ensures AnswerAt(Apply(s, a), a.t) == Some(Err(e)) <==> AnswerAt(s, a.t) == Some(Err(e)) || Refuses(s, a, a.t, e)
  {
    if a.TakeHandle? || a.Acquire? || a.RecheckCache? || a.Reply? {
      InnerRefusal(s, a, e);
    } else {
      LastRefusal(s, a, e);
    }
  }

  lemma InnerRefusal(s: State, a: Action, e: RefreshError)
    requires Enabled(s, a) && (a.TakeHandle? || a.Acquire? || a.RecheckCache? || a.Reply?)
    ensures AnswerAt(s, a.t) == None
    ensures AnswerAt(Apply(s, a), a.t) == Some(Err(e)) <==> Refuses(s, a, a.t, e)
  {
  }

  /** The answer found under the guard is carried through unlocking and eviction. */
  lemma LastRefusal(s: State, a: Action, e: RefreshError)
    requires Enabled(s, a) && (a.Unlock? || a.CheckCount? || a.CheckTable? || a.DropHandle? || a.Abandon?)
    ensures AnswerAt(Apply(s, a), a.t) == Some(Err(e)) <==> AnswerAt(s, a.t) == Some(Err(e)) || Refuses(s, a, a.t, e)
  {
  }

  /** Some step of the run refuses task `t` with error `e`. */
  predicate RefusedIn(s: State, actions: seq<Action>, t: TaskId, e: RefreshError)
    requires Run(s, actions)
    decreases |actions|
  {
    actions != [] && (Refuses(s, actions[0], t, e) || RefusedIn(Apply(s, actions[0]), actions[1..], t, e))
  }

  lemma {:induction false} RefusalsAreTheErrors(s: State, actions: seq<Action>, t: TaskId, e: RefreshError)
    requires Run(s, actions)
    ensures AnswerAt(Exec(s, actions), t) == Some(Err(e)) <==> AnswerAt(s, t) == Some(Err(e)) || RefusedIn(s, actions, t, e)
    decreases |actions|
  {
    if actions != [] {
      RefusalIsTheAnswer(s, actions[0], t, e);
      RefusalsAreTheErrors(Apply(s, actions[0]), actions[1..], t, e);
    }
  }

  /** From a process start: a finished caller got an error if and only if some step of the run refused
      it with that error. */
  lemma ErrorsAreExplained(c0: map<Key, Token>, now: int, actions: seq<Action>, t: TaskId, e: RefreshError)
    requires Run(Init(c0, now), actions)
    requires t in Exec(Init(c0, now), actions).tasks && Exec(Init(c0, now), actions).tasks[t].phase.Done?
    ensures Exec(Init(c0, now), actions).tasks[t].phase.answer == Err(e) <==> RefusedIn(Init(c0, now), actions, t, e)
  {
    RefusalsAreTheErrors(Init(c0, now), actions, t, e);
  }

  // ---------- Exactly when deduplication is certain ----------

  /** Of two successive refreshes of `k` the first failed, or what it stored was no longer good at
      the second's look. */
  ghost predicate Deduplicated(log: seq<Event>, k: Key) {
    forall i, j | 0 <= i < j < |log| && SentFor(log[i], k) && SentFor(log[j], k) && (forall x | i < x < j :: !SentFor(log[x], k)) ::
      exists e | i < e < j ::
        && log[e].Ended? && log[e].key == k && log[e].task == log[i].task
        && (log[e].stored.None? || log[e].stored.value.expiresAt - log[j].n2 <= 60_000_000_000)
  }

  // ----- a blank key is turned away before it can refresh

  ghost predicate TurnedAway(s: State, k: Key) {
    && (forall t | t in s.tasks && s.tasks[t].key == k :: s.tasks[t].phase.Done?)
    && (forall i | 0 <= i < |s.log| :: !SentFor(s.log[i], k))
  }

  /** Moves one task of another key, and says nothing about `k`. */
  ghost predicate Elsewhere(s: State, s': State, t: TaskId, k: Key) {
    && Moved(s, s', t)
    && (s'.tasks[t].key == k ==> s'.tasks[t].phase.Done?)
    && (s'.log == s.log || exists e :: s'.log == s.log + [e] && !SentFor(e, k))
  }

  lemma ElsewhereKeepsTurnedAway(s: State, s': State, t: TaskId, k: Key)
    requires TurnedAway(s, k) && Elsewhere(s, s', t, k)
    ensures TurnedAway(s', k)
  {
  }

  lemma EarlyStepsAreElsewhere(s: State, a: Action, k: Key)
    requires Blank(k) && TurnedAway(s, k) && Enabled(s, a)
    requires a.Spawn? || a.ReadCache? || a.CheckEmpty? || a.StoreSeed? || a.DecideStep?
    ensures Elsewhere(s, Apply(s, a), a.t, k)
  {
  }

  lemma LockingStepsAreElsewhere(s: State, a: Action, k: Key)
    requires TurnedAway(s, k) && Enabled(s, a) && (a.TakeHandle? || a.Acquire?)
    ensures Elsewhere(s, Apply(s, a), a.t, k)
  {
  }

  lemma InnerStepsAreElsewhere(s: State, a: Action, k: Key)
    requires TurnedAway(s, k) && Enabled(s, a) && (a.RecheckCache? || a.Reply?)
    ensures Elsewhere(s, Apply(s, a), a.t, k)
  {
  }

  lemma LateStepsAreElsewhere(s: State, a: Action, k: Key)
    requires TurnedAway(s, k) && Enabled(s, a)
    requires a.Unlock? || a.CheckCount? || a.CheckTable? || a.DropHandle? || a.Abandon?
    ensures Elsewhere(s, Apply(s, a), a.t, k)
  {
  }

  lemma TurnedAwayStep(s: State, a: Action, k: Key)
    requires Blank(k) && TurnedAway(s, k) && Enabled(s, a)
    ensures TurnedAway(Apply(s, a), k)
  {
    if !a.Clear? && !a.Authorize? {
      if a.Spawn? || a.ReadCache? || a.CheckEmpty? || a.StoreSeed? || a.DecideStep? {
        EarlyStepsAreElsewhere(s, a, k);
      } else if a.TakeHandle? || a.Acquire? {
        LockingStepsAreElsewhere(s, a, k);
      } else if a.RecheckCache? || a.Reply? {
        InnerStepsAreElsewhere(s, a, k);
      } else {
        LateStepsAreElsewhere(s, a, k);
      }
      ElsewhereKeepsTurnedAway(s, Apply(s, a), a.t, k);
    }
  }

  /** No run ever asks the network for a blank key. */
  lemma {:induction false} BlankKeysNeverRefresh(s: State, actions: seq<Action>, k: Key)
    requires Blank(k) && TurnedAway(s, k) && Run(s, actions)
    ensures TurnedAway(Exec(s, actions), k)
    decreases |actions|
  {
    if actions != [] {
      TurnedAwayStep(s, actions[0], k);
      BlankKeysNeverRefresh(Apply(s, actions[0]), actions[1..], k);
    }
  }

  // ----- the race of two seeds

  lemma {:induction false} RunSnoc(s: State, actions: seq<Action>, a: Action)
    requires Run(s, actions) && Enabled(Exec(s, actions), a)
    ensures Run(s, actions + [a]) && Exec(s, actions + [a]) == Apply(Exec(s, actions), a)
    decreases |actions|
  {
    if actions == [] {
      assert (actions + [a])[1..] == [];
    } else {
      assert (actions + [a])[1..] == actions[1..] + [a];
      RunSnoc(Apply(s, actions[0]), actions[1..], a);
    }
  }

  function Stale(now: int): Token { Token("old", Some("refresh"), now) }

  function Fresh(now: int): Token { Token("new", Some("refresh"), now + 2 * REFRESH_AHEAD) }

  /** An entry nobody has written, of a key that is not turned away. */
  predicate Open(c0: map<Key, Token>, k: Key) {
    k !in c0 && !Blank(k)
  }

  /** Some undisturbed run from the process start comes to this state. */
  ghost predicate Reached(c0: map<Key, Token>, now: int, k: Key, s: State) {
    exists actions :: Run(Init(c0, now), actions) && Undisturbed(actions, k) && Exec(Init(c0, now), actions) == s
  }

  lemma Goes(c0: map<Key, Token>, now: int, k: Key, s: State, a: Action)
    requires Reached(c0, now, k, s) && Enabled(s, a) && !a.Clear? && !a.Authorize?
    ensures Reached(c0, now, k, Apply(s, a))
  {
    var actions :| Run(Init(c0, now), actions) && Undisturbed(actions, k) && Exec(Init(c0, now), actions) == s;
    RunSnoc(Init(c0, now), actions, a);
    assert Undisturbed(actions + [a], k);
  }

  /** Task `t` of the key stands at this phase, with a stale token as its seed. */
  predicate Stands(s: State, t: TaskId, k: Key, now: int, p: Phase) {
    t in s.tasks && s.tasks[t] == Task(k, Some(Stale(now)), p) && s.now == now
  }

  /** Nobody has a lock yet. */
  predicate NoLocks(s: State) {
    s.table == map[] && s.home == [] && s.owner == map[]
  }

  lemma BothArrive(c0: map<Key, Token>, now: int, k: Key) returns (s: State)
    requires Open(c0, k)
    ensures Reached(c0, now, k, s) && Stands(s, 0, k, now, Start) && Stands(s, 1, k, now, Start)
    ensures NoLocks(s) && s.cache == c0 && s.log == []
  {
    var none: seq<Action> := [];
    assert Run(Init(c0, now), none) && Undisturbed(none, k) && Exec(Init(c0, now), none) == Init(c0, now);
    var seed := Some(Stale(now));
    Goes(c0, now, k, Init(c0, now), Spawn(0, k, seed));
    s := SpawnStep(Init(c0, now), 0, k, seed);
    Goes(c0, now, k, s, Spawn(1, k, seed));
    s := SpawnStep(s, 1, k, seed);
  }

  /** A task that finds the entry empty. */
  lemma SeesNothing(c0: map<Key, Token>, now: int, k: Key, s: State, t: TaskId) returns (s': State)
    requires Reached(c0, now, k, s) && Stands(s, t, k, now, Start) && k !in s.cache
    ensures Reached(c0, now, k, s') && s' == Move(s, t, SeedCheck)
  {
    Goes(c0, now, k, s, ReadCache(t, now, now));
    s' := ReadCacheStep(s, t, now, now);
  }

  lemma MeansToSeed(c0: map<Key, Token>, now: int, k: Key, s: State, t: TaskId) returns (s': State)
    requires Reached(c0, now, k, s) && Stands(s, t, k, now, SeedCheck) && k !in s.cache
    ensures Reached(c0, now, k, s') && s' == Move(s, t, SeedStore)
  {
    Goes(c0, now, k, s, CheckEmpty(t));
    s' := CheckEmptyStep(s, t);
  }

  /** Both find the entry empty and get ready to store their seed. */
  lemma BothSeeding(c0: map<Key, Token>, now: int, k: Key) returns (s: State)
    requires Open(c0, k)
    ensures Reached(c0, now, k, s) && Stands(s, 0, k, now, SeedStore) && Stands(s, 1, k, now, SeedStore)
    ensures NoLocks(s) && s.log == []
  {
    s := BothArrive(c0, now, k);
    s := SeesNothing(c0, now, k, s, 0);
    s := SeesNothing(c0, now, k, s, 1);
    s := MeansToSeed(c0, now, k, s, 0);
    s := MeansToSeed(c0, now, k, s, 1);
  }

  /** A late seed overwrites whatever the entry holds. */
  lemma Seeds(c0: map<Key, Token>, now: int, k: Key, s: State, t: TaskId) returns (s': State)
    requires Reached(c0, now, k, s) && Stands(s, t, k, now, SeedStore)
    ensures Reached(c0, now, k, s') && Stands(s', t, k, now, WantHandle(Stale(now)))
    ensures Moved(s, s', t) && s'.cache == s.cache[k := Stale(now)]
    ensures s'.table == s.table && s'.home == s.home && s'.owner == s.owner && s'.log == s.log + [Seeded(k, Stale(now))]
  {
    Goes(c0, now, k, s, StoreSeed(t));
    s' := StoreSeedStep(s, t);
    Goes(c0, now, k, s', DecideStep(t, now, now, now));
    s' := DecisionStep(s', t, now, now, now);
  }

  lemma AsksForLock(c0: map<Key, Token>, now: int, k: Key, s: State, t: TaskId) returns (s': State, l: LockId)
    requires Reached(c0, now, k, s) && Stands(s, t, k, now, WantHandle(Stale(now)))
    ensures Reached(c0, now, k, s') && Moved(s, s', t) && Stands(s', t, k, now, Refreshing(l, Waiting(Stale(now))))
    ensures s'.owner == s.owner && s'.cache == s.cache && s'.log == s.log
  {
    Goes(c0, now, k, s, TakeHandle(t));
    s' := TakeHandleStep(s, t);
    l := s'.tasks[t].phase.lock;
  }

  lemma GetsLock(c0: map<Key, Token>, now: int, k: Key, s: State, t: TaskId, l: LockId) returns (s': State)
    requires Reached(c0, now, k, s) && Stands(s, t, k, now, Refreshing(l, Waiting(Stale(now)))) && s.owner == map[]
    ensures Reached(c0, now, k, s') && Moved(s, s', t) && Stands(s', t, k, now, Refreshing(l, Recheck(Stale(now))))
    ensures s'.owner == map[l := t] && s'.cache == s.cache && s'.log == s.log
  {
    Goes(c0, now, k, s, Acquire(t));
    s' := AcquireStep(s, t);
  }

  lemma AsksNetwork(c0: map<Key, Token>, now: int, k: Key, s: State, t: TaskId, l: LockId) returns (s': State)
    requires Reached(c0, now, k, s) && Stands(s, t, k, now, Refreshing(l, Recheck(Stale(now))))
    requires k in s.cache && s.cache[k] == Stale(now)
    ensures Reached(c0, now, k, s') && Moved(s, s', t) && Stands(s', t, k, now, Refreshing(l, Network))
    ensures s'.owner == s.owner && s'.log == s.log + [Sent(k, t, now, now)]
  {
    Goes(c0, now, k, s, RecheckCache(t, now, now));
    s' := RecheckStep(s, t, now, now);
  }

  /** A seeded task asks for the lock, gets it and asks the network. */
  lemma Refreshes(c0: map<Key, Token>, now: int, k: Key, s: State, t: TaskId) returns (s': State, l: LockId)
    requires Reached(c0, now, k, s) && Stands(s, t, k, now, WantHandle(Stale(now)))
    requires k in s.cache && s.cache[k] == Stale(now) && s.owner == map[]
    ensures Reached(c0, now, k, s') && Moved(s, s', t) && Stands(s', t, k, now, Refreshing(l, Network))
    ensures s'.owner == map[l := t] && s'.log == s.log + [Sent(k, t, now, now)]
  {
    var waiting, lock := AsksForLock(c0, now, k, s, t);
    var inside := GetsLock(c0, now, k, waiting, t, lock);
    l := lock;
    s' := AsksNetwork(c0, now, k, inside, t, lock);
  }

  lemma IsAnswered(c0: map<Key, Token>, now: int, k: Key, s: State, t: TaskId, l: LockId) returns (s': State)
    requires Reached(c0, now, k, s) && Stands(s, t, k, now, Refreshing(l, Network))
    ensures Reached(c0, now, k, s') && Moved(s, s', t) && Stands(s', t, k, now, Refreshing(l, Unlocking(Ok("new"))))
    ensures s'.owner == s.owner && s'.log == s.log + [Ended(k, t, Some(Fresh(now)))]
  {
    Goes(c0, now, k, s, Reply(t, Ok(Fresh(now))));
    s' := ReplyStep(s, t, Ok(Fresh(now)));
  }

  /** The answer is stored and the guard dropped. */
  lemma Answered(c0: map<Key, Token>, now: int, k: Key, s: State, t: TaskId, l: LockId) returns (s': State)
    requires Reached(c0, now, k, s) && Stands(s, t, k, now, Refreshing(l, Network)) && s.owner == map[l := t]
    ensures Reached(c0, now, k, s') && Moved(s, s', t)
    ensures s'.now == now && s'.owner == map[] && s'.log == s.log + [Ended(k, t, Some(Fresh(now)))]
  {
    var unlocking := IsAnswered(c0, now, k, s, t, l);
    Goes(c0, now, k, unlocking, Unlock(t));
    s' := UnlockStep(unlocking, t);
  }

  /** Task 1 seeds, refreshes and stores a fresh token while task 0 still means to seed. */
  lemma FirstRefresh(c0: map<Key, Token>, now: int, k: Key) returns (s: State)
    requires Open(c0, k)
    ensures Reached(c0, now, k, s) && Stands(s, 0, k, now, SeedStore) && s.owner == map[]
    ensures s.log == [Seeded(k, Stale(now))] + [Sent(k, 1, now, now)] + [Ended(k, 1, Some(Fresh(now)))]
  {
    s := BothSeeding(c0, now, k);
    s := Seeds(c0, now, k, s, 1);
    var l;
    s, l := Refreshes(c0, now, k, s, 1);
    s := Answered(c0, now, k, s, 1, l);
  }

  /** Task 0's seed then overwrites it, and task 0 refreshes again. */
  lemma SecondRefresh(c0: map<Key, Token>, now: int, k: Key) returns (s: State)
    requires Open(c0, k)
    ensures Reached(c0, now, k, s)
    ensures s.log == [Seeded(k, Stale(now)), Sent(k, 1, now, now), Ended(k, 1, Some(Fresh(now))),
                      Seeded(k, Stale(now)), Sent(k, 0, now, now)]
  {
    s := FirstRefresh(c0, now, k);
    s := Seeds(c0, now, k, s, 0);
    var l;
    s, l := Refreshes(c0, now, k, s, 0);
  }

  /** Whenever an entry is open, deduplication can fail with nobody clearing or authorizing it: a
      late seed overwrites the fresh token, and the key is refreshed again although the first refresh
      succeeded and its token is good when the second task looks. */
  lemma LateSeedRefreshesTwice(c0: map<Key, Token>, now: int, k: Key) returns (actions: seq<Action>)
    requires Open(c0, k)
    ensures Run(Init(c0, now), actions) && Undisturbed(actions, k) && !Deduplicated(Exec(Init(c0, now), actions).log, k)
  {
    var s := SecondRefresh(c0, now, k);
    actions :| Run(Init(c0, now), actions) && Undisturbed(actions, k) && Exec(Init(c0, now), actions) == s;
    TwiceIsNotDeduplicated(s.log, now, k);
  }

  lemma TwiceIsNotDeduplicated(log: seq<Event>, now: int, k: Key)
    requires log == [Seeded(k, Stale(now)), Sent(k, 1, now, now), Ended(k, 1, Some(Fresh(now))),
                     Seeded(k, Stale(now)), Sent(k, 0, now, now)]
    ensures !Deduplicated(log, k)
  {
    assert SentFor(log[1], k) && SentFor(log[4], k);
    assert forall x | 1 < x < 4 :: !SentFor(log[x], k);
    assert !Fresh(now).ExpiresWithin(now, REFRESH_AHEAD);
  }

  /** Every undisturbed run deduplicates the refreshes of `k` if and only if its entry is populated
      at the start or its configuration is blank. */
  lemma DeduplicationIsCertainIff(c0: map<Key, Token>, now: int, k: Key)
    ensures (forall actions | Run(Init(c0, now), actions) && Undisturbed(actions, k) ::
               Deduplicated(Exec(Init(c0, now), actions).log, k))
       <==> k in c0 || Text.Trim(k.clientId) == "" || Text.Trim(k.tokenUrl) == ""
  {
    if Open(c0, k) {
      var actions := LateSeedRefreshesTwice(c0, now, k);
    } else {
      forall actions | Run(Init(c0, now), actions) && Undisturbed(actions, k)
        ensures Deduplicated(Exec(Init(c0, now), actions).log, k)
      {
        OtherwiseDeduplicated(c0, now, actions, k);
      }
    }
  }

  lemma OtherwiseDeduplicated(c0: map<Key, Token>, now: int, actions: seq<Action>, k: Key)
    requires Run(Init(c0, now), actions) && Undisturbed(actions, k) && (k in c0 || Blank(k))
    ensures Deduplicated(Exec(Init(c0, now), actions).log, k)
  {
    if Blank(k) {
      BlankKeysNeverRefresh(Init(c0, now), actions, k);
    } else {
      PopulatedDeduplicated(c0, now, actions, k, Exec(Init(c0, now), actions).log);
    }
  }

  lemma PopulatedDeduplicated(c0: map<Key, Token>, now: int, actions: seq<Action>, k: Key, log: seq<Event>)
    requires Run(Init(c0, now), actions) && Undisturbed(actions, k) && k in c0
    requires log == Exec(Init(c0, now), actions).log
    ensures Deduplicated(log, k)
  {
    forall i, j | 0 <= i < j < |log| && SentFor(log[i], k) && SentFor(log[j], k) && (forall x | i < x < j :: !SentFor(log[x], k))
      ensures exists e | i < e < j ::
        && log[e].Ended? && log[e].key == k && log[e].task == log[i].task
        && (log[e].stored.None? || log[e].stored.value.expiresAt - log[j].n2 <= 60_000_000_000)
    {
      RefreshedOnlyWhenStale(c0, now, actions, i, j, k);
    }
  }

  // ---------- The process-wide state and its critical sections ----------

  /** The statics `REFRESH_LOCKS` and `CACHE` with every call's own frame. Each method is one
      section of the source that no other task can interleave with; `View` is the state of the
      step machine above, and every method makes exactly the step it is named after. */
  class RefreshService {
    var tasks: map<TaskId, Task>
    var table: map<Key, LockId>
    var home: seq<Key>
    var owner: map<LockId, TaskId>
    var cache: map<Key, Token>
    var now: int
    ghost var log: seq<Event>
    ghost const c0: map<Key, Token>

    ghost function View(): State
      reads this
    {
      State(tasks, table, home, owner, cache, now, log)
    }

    ghost predicate Valid()
      reads this
    {
      LockInv(View()) && LogInv(c0, View())
    }

    constructor (now: int)
      ensures Valid() && View() == Init(map[], now)
    {
      tasks, table, home, owner, cache := map[], map[], [], map[], map[];
      this.now := now;
      log := [];
      c0 := map[];
    }

    /** The statics in the middle of a run: `s` is what the calls so far have left. */
    constructor During(s: State, ghost c0: map<Key, Token>)
      requires LockInv(s) && LogInv(c0, s)
      ensures Valid() && View() == s && this.c0 == c0
    {
      tasks, table, home, owner, cache := s.tasks, s.table, s.home, s.owner, s.cache;
      now := s.now;
      log := s.log;
      this.c0 := c0;
    }

    ghost method Took(s: State, a: Action)
      requires LockInv(s) && LogInv(c0, s) && Enabled(s, a)
      requires View() == Apply(s, a)
      ensures Valid()
    {
      LockInvStep(s, a);
      LogInvStep(c0, s, a);
    }

    /** `cached_token` */
    method CachedToken(key: Key) returns (token: Option<Token>)
      requires Valid()
      ensures token == Replay(c0, log, key) == Get(cache, key)
    {
      token := Get(cache, key);
    }

    /** `store_token`, called by a completed authorization */
    method StoreToken(key: Key, token: Token)
      requires Valid()
      modifies this
      ensures Valid() && View() == Apply(old(View()), Authorize(key, token))
    {
      ghost var s := View();
      cache := cache[key := token];
      log := log + [Authorized(key, token)];
      Took(s, Authorize(key, token));
    }

    /** `clear_token` */
    method ClearToken(key: Key)
      requires Valid()
      modifies this
      ensures Valid() && View() == Apply(old(View()), Clear(key))
    {
      ghost var s := View();
      cache := cache - {key};
      log := log + [Cleared(key)];
      Took(s, Clear(key));
    }

    /** `refresh_lock` */
    method RefreshLock(t: TaskId) returns (lock: LockId)
      requires Valid() && Enabled(View(), TakeHandle(t))
      modifies this
      ensures Valid() && View() == Apply(old(View()), TakeHandle(t))
      ensures AtStage(View(), t) && Get(table, tasks[t].key) == Some(lock) && tasks[t].phase.lock == lock
    {
      ghost var s := View();
      var task := tasks[t];
      if task.key !in table {
        table := table[task.key := |home|];
        home := home + [task.key];
      }
      lock := table[task.key];
      tasks := tasks[t := task.(phase := Refreshing(lock, Waiting(task.phase.expired)))];
      Took(s, TakeHandle(t));
    }

    /** The look at the cache under the guard; `send` says whether the network is needed. */
    method RecheckUnderGuard(t: TaskId, n1: int, n2: int) returns (send: bool)
      requires Valid() && Enabled(View(), RecheckCache(t, n1, n2))
      modifies this
      ensures Valid() && View() == Apply(old(View()), RecheckCache(t, n1, n2))
      ensures send <==> InNetwork(View(), t)
      ensures send <==> (
        && old(View().tasks[t].phase.stage.expired.refreshToken.Some?)
        && match old(Get(cache, View().tasks[t].key))
           case None => true
           case Some(token) => token.expiresAt <= n1 || token.expiresAt - n2 <= 60_000_000_000)
    {
      ghost var s := View();
      GuardedLookDecides(s, t, n1, n2);
      send := LookAgain(t, n1, n2);
      Took(s, RecheckCache(t, n1, n2));
    }

    method LookAgain(t: TaskId, n1: int, n2: int) returns (send: bool)
      requires Enabled(View(), RecheckCache(t, n1, n2))
      modifies this
      ensures View() == RecheckStep(old(View()), t, n1, n2)
      ensures send <==> InNetwork(View(), t)
    {
      var task := tasks[t];
      var stage := task.phase.stage;
      var token := Get(cache, task.key);
      send := false;
      if token.Some? && Usable(token.value, n1, n2) {
        stage := Unlocking(Ok(token.value.accessToken));
        log := log + [Served(task.key, t, token.value, n1, n2)];
      } else if stage.expired.refreshToken.None? {
        stage := Unlocking(Err(Unauthorized));
      } else {
        send := true;
        stage := Network;
        log := log + [Sent(task.key, t, n1, n2)];
      }
      now := n2;
      tasks := tasks[t := task.(phase := Refreshing(task.phase.lock, stage))];
    }

    /** `evict_refresh_lock` up to the table's mutex */
    method EvictionWanted(t: TaskId) returns (wanted: bool)
      requires Valid() && Enabled(View(), CheckCount(t))
      modifies this
      ensures Valid() && View() == Apply(old(View()), CheckCount(t))
      ensures wanted <==> tasks[t].phase.stage.TableCheck?
    {
      ghost var s := View();
      var task := tasks[t];
      var answer := task.phase.stage.answer;
      wanted := References(tasks, table, task.phase.lock) <= 2;
      var stage := if wanted then TableCheck(answer) else Dropping(answer);
      tasks := tasks[t := task.(phase := Refreshing(task.phase.lock, stage))];
      Took(s, CheckCount(t));
    }

    /** `evict_refresh_lock` under the table's mutex: what it removes, nobody else refers to */
    method EvictRefreshLock(t: TaskId)
      requires Valid() && Enabled(View(), CheckTable(t))
      modifies this
      ensures Valid() && View() == Apply(old(View()), CheckTable(t))
      ensures AtStage(View(), t) && (tasks[t].key !in table && old(tasks[t].key in table) ==> Holders(tasks, tasks[t].phase.lock) == {t})
    {
      ghost var s := View();
      RemoveIfLone(t);
      Took(s, CheckTable(t));
    }

    method RemoveIfLone(t: TaskId)
      requires Enabled(View(), CheckTable(t))
      modifies this
      ensures View() == CheckTableStep(old(View()), t)
      ensures AtStage(View(), t) && (tasks[t].key !in table && old(tasks[t].key in table) ==> Holders(tasks, tasks[t].phase.lock) == {t})
    {
      ghost var s := View();
      var task := tasks[t];
      var lock := task.phase.lock;
      if task.key in table && table[task.key] == lock && References(tasks, table, lock) <= 2 {
        LoneHandle(s, t, task.key, lock);
        table := table - {task.key};
      }
      tasks := tasks[t := task.(phase := Refreshing(lock, Dropping(task.phase.stage.answer)))];
      HoldersStay(s.tasks, tasks, t, lock);
    }
  }

  lemma HoldersStay(before: map<TaskId, Task>, after: map<TaskId, Task>, t: TaskId, l: LockId)
    requires t in before && before[t].phase.Refreshing? && before[t].phase.lock == l
    requires t in after && after[t].phase.Refreshing? && after[t].phase.lock == l && after == before[t := after[t]]
    ensures Holders(after, l) == Holders(before, l)
  {
  }
}
