/** The active project and environment with their per-project memory, for calls that do not overlap. */
module ActiveContext {
  import opened Wrappers
  import Text

  type Id = nat

  datatype Project = Project(id: Id, name: string, data: string)

  datatype Environment = Environment(id: Id, projectId: Id, name: string, data: string)

  datatype Context = Context(projectId: Option<Id>, project: Option<Project>,
                             environmentId: Option<Id>, environment: Option<Environment>)

  const NO_CONTEXT := Context(None, None, None, None)

  /** The settings rows that remember ids; a row may hold null. */
  datatype Key = ActiveProjectKey | ActiveEnvironmentKey(projectId: Id)

  type Settings = map<Key, Option<Id>>

  datatype Db = Db(projects: map<Id, Project>, environments: map<Id, Environment>)

  datatype World = World(db: Db, ctx: Context, settings: Settings)

  datatype Error = NotFound | NoProject | WrongProject | BlankName

  // ---- look-ups ----

  function Setting(w: World, key: Key): Option<Id> {
    if key in w.settings then w.settings[key] else None
  }

  /** The environment remembered for a project, dropped when it is gone or belongs to another project. */
  function Remembered(w: World, pid: Id): Option<Id> {
    match Setting(w, ActiveEnvironmentKey(pid))
    case None => None
    case Some(eid) =>
      if eid in w.db.environments && w.db.environments[eid].projectId == pid then Some(eid) else None
  }

  function RememberedProject(w: World): Option<Id> {
    match Setting(w, ActiveProjectKey)
    case None => None
    case Some(pid) => if pid in w.db.projects then Some(pid) else None
  }

  // ---- the operations ----

  function ReadProject(w: World): (World, Result<Option<Project>, Error>) {
    if w.ctx.project.Some? then (w, Ok(w.ctx.project))
    else match w.ctx.projectId
      case None => (w, Ok(None))
      case Some(pid) =>
        if pid !in w.db.projects then (w, Err(NotFound))
        else (w.(ctx := w.ctx.(project := Some(w.db.projects[pid]))), Ok(Some(w.db.projects[pid])))
  }

  function ReadEnvironment(w: World): (World, Result<Option<Environment>, Error>) {
    if w.ctx.environment.Some? then (w, Ok(w.ctx.environment))
    else match w.ctx.environmentId
      case None => (w, Ok(None))
      case Some(eid) =>
        if eid !in w.db.environments then (w, Err(NotFound))
        else (w.(ctx := w.ctx.(environment := Some(w.db.environments[eid]))), Ok(Some(w.db.environments[eid])))
  }

  function SetProject(w: World, pid: Option<Id>): (World, Result<(), Error>) {
    match pid
    case None => (World(w.db, NO_CONTEXT, w.settings[ActiveProjectKey := None]), Ok(()))
    case Some(p) =>
      if p !in w.db.projects then (w, Err(NotFound))
      else
        var eid := Remembered(w, p);
        var environment := if eid.Some? then Some(w.db.environments[eid.value]) else None;
        (World(w.db, Context(pid, Some(w.db.projects[p]), eid, environment), w.settings[ActiveProjectKey := pid]), Ok(()))
  }

  function SetEnvironment(w: World, eid: Option<Id>): (World, Result<(), Error>) {
    var (r, project) := ReadProject(w);
    if project.Err? then (r, Err(project.error))
    else if project.value.None? then (r, Err(NoProject))
    else
      var pid := project.value.value.id;
      if eid.Some? && eid.value !in w.db.environments then (r, Err(NotFound))
      else if eid.Some? && w.db.environments[eid.value].projectId != pid then (r, Err(WrongProject))
      else
        var environment := if eid.Some? then Some(w.db.environments[eid.value]) else None;
        (World(r.db, r.ctx.(environmentId := eid, environment := environment),
               r.settings[ActiveEnvironmentKey(pid) := eid]), Ok(()))
  }

  function Restore(w: World): World {
    var pid := RememberedProject(w);
    var eid := match pid case None => None case Some(p) => Remembered(w, p);
    w.(ctx := Context(pid, None, eid, None))
  }

  /** `save_project`: the row is written, new or not, and announced to the cache. */
  function StoreProject(w: World, project: Project): (World, Result<(), Error>) {
    if Text.Trim(project.name) == "" then (w, Err(BlankName))
    else
      var db := w.db.(projects := w.db.projects[project.id := project]);
      var ctx := if w.ctx.projectId == Some(project.id) then w.ctx.(project := Some(project)) else w.ctx;
      (World(db, ctx, w.settings), Ok(()))
  }

  /** `save_environment`: only the project's existence is asked for, so a save may move an environment. */
  function StoreEnvironment(w: World, environment: Environment): (World, Result<(), Error>) {
    if Text.Trim(environment.name) == "" then (w, Err(BlankName))
    else if environment.projectId !in w.db.projects then (w, Err(NotFound))
    else
      var db := w.db.(environments := w.db.environments[environment.id := environment]);
      var ctx := if w.ctx.environmentId == Some(environment.id) then w.ctx.(environment := Some(environment)) else w.ctx;
      (World(db, ctx, w.settings), Ok(()))
  }

  /** The environments left when a project's are deleted with it. */
  function WithoutProject(environments: map<Id, Environment>, pid: Id): map<Id, Environment> {
    map e | e in environments && environments[e].projectId != pid :: environments[e]
  }

  function DropProject(w: World, pid: Id): World {
    var db := Db(w.db.projects - {pid}, WithoutProject(w.db.environments, pid));
    if w.ctx.projectId != Some(pid) then w.(db := db)
    else World(db, NO_CONTEXT, w.settings[ActiveProjectKey := None][ActiveEnvironmentKey(pid) := None])
  }

  function DropEnvironment(w: World, eid: Id): World {
    var w' := w.(db := w.db.(environments := w.db.environments - {eid}));
    if w.ctx.environmentId != Some(eid) then w'
    else
      var settings := match w.ctx.projectId
        case None => w.settings
        case Some(pid) => w.settings[ActiveEnvironmentKey(pid) := None];
      w'.(ctx := w.ctx.(environmentId := None, environment := None), settings := settings)
  }

  datatype Op =
    | OpReadProject | OpReadEnvironment
    | OpSetProject(pid: Option<Id>) | OpSetEnvironment(eid: Option<Id>)
    | OpRestore
    | OpSaveProject(project: Project) | OpSaveEnvironment(environment: Environment)
    | OpDeleteProject(deletedProject: Id) | OpDeleteEnvironment(deletedEnvironment: Id)

  function Do(w: World, op: Op): World {
    match op
    case OpReadProject => ReadProject(w).0
    case OpReadEnvironment => ReadEnvironment(w).0
    case OpSetProject(pid) => SetProject(w, pid).0
    case OpSetEnvironment(eid) => SetEnvironment(w, eid).0
    case OpRestore => Restore(w)
    case OpSaveProject(project) => StoreProject(w, project).0
    case OpSaveEnvironment(environment) => StoreEnvironment(w, environment).0
    case OpDeleteProject(pid) => DropProject(w, pid)
    case OpDeleteEnvironment(eid) => DropEnvironment(w, eid)
  }

  function DoAll(w: World, ops: seq<Op>): World
    decreases ops
  {
    if ops == [] then w else DoAll(Do(w, ops[0]), ops[1..])
  }

  /** The world after the first `n` operations. */
  function At(w: World, ops: seq<Op>, n: nat): World
    requires n <= |ops|
  {
    if n == 0 then w else Do(At(w, ops, n - 1), ops[n - 1])
  }

  lemma {:induction false} AtTail(w: World, ops: seq<Op>, n: nat)
    requires 0 < n <= |ops|
    ensures At(w, ops, n) == At(Do(w, ops[0]), ops[1..], n - 1)
  {
    if n > 1 {
      AtTail(w, ops, n - 1);
    }
  }

  lemma {:induction false} AtEnd(w: World, ops: seq<Op>)
    ensures At(w, ops, |ops|) == DoAll(w, ops)
    decreases ops
  {
    if ops != [] {
      AtTail(w, ops, |ops|);
      AtEnd(Do(w, ops[0]), ops[1..]);
    }
  }

  // ---- what every operation keeps ----

  /** Rows carry their ids, and an environment's project exists. */
  ghost predicate DbInv(db: Db) {
    && (forall p | p in db.projects :: db.projects[p].id == p)
    && (forall e | e in db.environments :: db.environments[e].id == e && db.environments[e].projectId in db.projects)
  }

  /** The active project exists, and its cached copy is the stored one. */
  predicate ProjectInv(w: World) {
    && (w.ctx.projectId.Some? ==> w.ctx.projectId.value in w.db.projects)
    && (w.ctx.project.Some? ==> w.ctx.projectId.Some? && w.ctx.project.value == w.db.projects[w.ctx.projectId.value])
  }

  /** An active environment is the one its project's setting names, and its cached copy is the stored row, if there is one. */
  predicate EnvironmentInv(w: World) {
    && (w.ctx.environmentId.Some? ==>
          w.ctx.projectId.Some? && Setting(w, ActiveEnvironmentKey(w.ctx.projectId.value)) == w.ctx.environmentId)
    && (w.ctx.environment.Some? ==>
          w.ctx.environmentId == Some(w.ctx.environment.value.id)
          && (w.ctx.environmentId.value in w.db.environments ==>
                w.ctx.environment.value == w.db.environments[w.ctx.environmentId.value]))
  }

  ghost predicate Inv(w: World) {
    DbInv(w.db) && ProjectInv(w) && EnvironmentInv(w)
  }

  lemma DbStep(w: World, op: Op)
    requires Inv(w)
    ensures DbInv(Do(w, op).db)
  {
  }

  lemma ProjectStep(w: World, op: Op)
    requires Inv(w)
    ensures ProjectInv(Do(w, op))
  {
  }

  lemma EnvironmentStep(w: World, op: Op)
    requires Inv(w)
    ensures EnvironmentInv(Do(w, op))
  {
  }

  lemma InvStep(w: World, op: Op)
    requires Inv(w)
    ensures Inv(Do(w, op))
  {
    DbStep(w, op);
    ProjectStep(w, op);
    EnvironmentStep(w, op);
  }

  lemma {:induction false} RunKeepsInv(w: World, ops: seq<Op>, n: nat)
    requires Inv(w) && n <= |ops|
    ensures Inv(At(w, ops, n))
  {
    if n > 0 {
      RunKeepsInv(w, ops, n - 1);
      InvStep(At(w, ops, n - 1), ops[n - 1]);
    }
  }

  // ---- what a caller can test before the call ----

  predicate MaySetProject(w: World, pid: Option<Id>) {
    pid.Some? ==> pid.value in w.db.projects
  }

  /** A project is active, and the environment, if one is chosen, is one of its own. */
  predicate MaySetEnvironment(w: World, eid: Option<Id>) {
    && w.ctx.projectId.Some?
    && (eid.Some? ==> eid.value in w.db.environments && w.db.environments[eid.value].projectId == w.ctx.projectId.value)
  }

  predicate MayStoreProject(project: Project) {
    Text.Trim(project.name) != ""
  }

  predicate MayStoreEnvironment(w: World, environment: Environment) {
    Text.Trim(environment.name) != "" && environment.projectId in w.db.projects
  }

  /** The operations succeed exactly under these conditions, and a refused one changes nothing that is stored or recorded. */
  lemma GuardsDecide(w: World, pid: Option<Id>, eid: Option<Id>, project: Project, environment: Environment)
    requires Inv(w)
    ensures SetProject(w, pid).1.Ok? <==> MaySetProject(w, pid)
    ensures SetEnvironment(w, eid).1.Ok? <==> MaySetEnvironment(w, eid)
    ensures StoreProject(w, project).1.Ok? <==> MayStoreProject(project)
    ensures StoreEnvironment(w, environment).1.Ok? <==> MayStoreEnvironment(w, environment)
    ensures !MaySetProject(w, pid) ==> SetProject(w, pid).0 == w
    ensures !MayStoreProject(project) ==> StoreProject(w, project).0 == w
    ensures !MayStoreEnvironment(w, environment) ==> StoreEnvironment(w, environment).0 == w
    ensures !MaySetEnvironment(w, eid) ==> SetEnvironment(w, eid).0 == ReadProject(w).0
  {
  }

  // ---- when the active environment belongs to the active project ----

  /** There is no active environment, or it exists and is the active project's. */
  predicate Belongs(w: World) {
    w.ctx.environmentId.Some? ==>
      && w.ctx.environmentId.value in w.db.environments
      && Some(w.db.environments[w.ctx.environmentId.value].projectId) == w.ctx.projectId
  }

  /** The operation saves the active environment under another, existing project. */
  predicate MovesAway(w: World, op: Op) {
    && op.OpSaveEnvironment? && MayStoreEnvironment(w, op.environment)
    && w.ctx.environmentId == Some(op.environment.id) && w.ctx.projectId != Some(op.environment.projectId)
  }

  /** The operation chooses the active environment anew, or saves it under the active project. */
  predicate Settles(w: World, op: Op) {
    match op
    case OpSetProject(pid) => MaySetProject(w, pid)
    case OpSetEnvironment(eid) => MaySetEnvironment(w, eid)
    case OpRestore => true
    case OpSaveEnvironment(environment) =>
      && MayStoreEnvironment(w, environment)
      && w.ctx.environmentId == Some(environment.id) && w.ctx.projectId == Some(environment.projectId)
    case OpDeleteProject(pid) => w.ctx.projectId == Some(pid)
    case OpDeleteEnvironment(eid) => w.ctx.environmentId == Some(eid)
    case _ => false
  }

  /** From any state, one operation: it settles the matter, or leaves it unless it moves the environment away. */
  lemma BelongsStep(w: World, op: Op)
    requires Inv(w)
    ensures Belongs(Do(w, op)) <==> Settles(w, op) || (Belongs(w) && !MovesAway(w, op))
  {
  }

  function MovesAt(w: World, ops: seq<Op>): nat -> bool {
    (i: nat) => i < |ops| && MovesAway(At(w, ops, i), ops[i])
  }

  function SettlesAt(w: World, ops: seq<Op>): nat -> bool {
    (i: nat) => i < |ops| && Settles(At(w, ops, i), ops[i])
  }

  /** Among the first `n` there is a move that nothing after it settles. */
  ghost predicate Strays(moves: nat -> bool, settles: nat -> bool, n: nat) {
    exists i: nat | i < n :: moves(i) && forall j: nat | i < j < n :: !settles(j)
  }

  lemma StraysSnoc(moves: nat -> bool, settles: nat -> bool, n: nat)
    ensures Strays(moves, settles, n + 1) <==> moves(n) || (Strays(moves, settles, n) && !settles(n))
  {
    if Strays(moves, settles, n) && !settles(n) {
      var i: nat :| i < n && moves(i) && forall j: nat | i < j < n :: !settles(j);
      assert forall j: nat | i < j < n + 1 :: !settles(j);
    }
  }

  /** Over any operations: the active environment belongs to the active project if and only if it has not strayed. */
  lemma EnvironmentBelongsToProject(w: World, ops: seq<Op>, n: nat)
    requires Inv(w) && Belongs(w) && n <= |ops|
    ensures Belongs(At(w, ops, n)) <==> !Strays(MovesAt(w, ops), SettlesAt(w, ops), n)
  {
    forall k: nat | k < n ensures Follows(BelongsAt(w, ops), MovesAt(w, ops), SettlesAt(w, ops), k) {
      BelongsFollows(w, ops, k);
    }
    BelongingByStraying(BelongsAt(w, ops), MovesAt(w, ops), SettlesAt(w, ops), n);
  }

  lemma MoveDoesNotSettle(w: World, op: Op)
    ensures !(MovesAway(w, op) && Settles(w, op))
  {
  }

  function BelongsAt(w: World, ops: seq<Op>): nat -> bool {
    (n: nat) => n <= |ops| && Belongs(At(w, ops, n))
  }

  /** What holds after a step, from what held before it. */
  predicate Follows(belongs: nat -> bool, moves: nat -> bool, settles: nat -> bool, k: nat) {
    && !(moves(k) && settles(k))
    && (belongs(k + 1) <==> settles(k) || (belongs(k) && !moves(k)))
  }

  lemma BelongsFollows(w: World, ops: seq<Op>, k: nat)
    requires Inv(w) && k < |ops|
    ensures Follows(BelongsAt(w, ops), MovesAt(w, ops), SettlesAt(w, ops), k)
  {
    var now, op := At(w, ops, k), ops[k];
    RunKeepsInv(w, ops, k);
    BelongsStep(now, op);
    MoveDoesNotSettle(now, op);
    assert At(w, ops, k + 1) == Do(now, op);
  }

  lemma {:induction false} BelongingByStraying(belongs: nat -> bool, moves: nat -> bool, settles: nat -> bool, n: nat)
    requires belongs(0) && forall k: nat | k < n :: Follows(belongs, moves, settles, k)
    ensures belongs(n) <==> !Strays(moves, settles, n)
  {
    if n > 0 {
      BelongingByStraying(belongs, moves, settles, n - 1);
      StraysSnoc(moves, settles, n - 1);
      assert Follows(belongs, moves, settles, n - 1);
    }
  }

  /** So it belongs at every moment of a run if and only if no operation of the run moves it away. */
  lemma BelongsThroughout(w: World, ops: seq<Op>)
    requires Inv(w) && Belongs(w)
    ensures (forall n: nat | n <= |ops| :: BelongsAt(w, ops)(n)) <==> (forall n: nat | n < |ops| :: !MovesAt(w, ops)(n))
  {
    forall n: nat | n <= |ops| ensures BelongsAt(w, ops)(n) <==> !Strays(MovesAt(w, ops), SettlesAt(w, ops), n) {
      EnvironmentBelongsToProject(w, ops, n);
    }
    NeverStrays(MovesAt(w, ops), SettlesAt(w, ops), BelongsAt(w, ops), |ops|);
  }

  lemma NeverStrays(moves: nat -> bool, settles: nat -> bool, belongs: nat -> bool, end: nat)
    requires forall n: nat | n <= end :: belongs(n) <==> !Strays(moves, settles, n)
    ensures (forall n: nat | n <= end :: belongs(n)) <==> (forall n: nat | n < end :: !moves(n))
  {
    forall n: nat | n < end && moves(n) ensures !belongs(n + 1) {
      StraysSnoc(moves, settles, n);
    }
  }

  const HOME := Project(1, "home", "")
  const OTHER := Project(2, "other", "")
  const ACTIVE := Environment(5, 1, "env", "")

  /** The failing input: environment 5 of project 1 is active and saved with project 2's id. */
  lemma SavingMovesTheActiveEnvironment(w: World)
    requires w == World(Db(map[1 := HOME, 2 := OTHER], map[5 := ACTIVE]), NO_CONTEXT, map[])
    ensures Inv(w)
    ensures var after := DoAll(w, [OpSetProject(Some(1)), OpSetEnvironment(Some(5)), OpSaveEnvironment(ACTIVE.(projectId := 2))]);
      && after.ctx.projectId == Some(1) && after.ctx.environment == Some(ACTIVE.(projectId := 2))
      && !Belongs(after)
  {
    var first, second, third := OpSetProject(Some(1)), OpSetEnvironment(Some(5)), OpSaveEnvironment(ACTIVE.(projectId := 2));
    var ops := [first, second, third];
    NamesAreNotBlank();
    var w1 := Do(w, first);
    assert w1.ctx == Context(Some(1), Some(HOME), None, None);
    var w2 := Do(w1, second);
    assert w2.ctx == Context(Some(1), Some(HOME), Some(5), Some(ACTIVE));
    assert At(w, ops, 1) == w1;
    assert At(w, ops, 2) == w2;
    assert At(w, ops, 3) == Do(w2, third);
    AtEnd(w, ops);
  }

  lemma NamesAreNotBlank()
    ensures Text.Trim("env") == "env"
  {
    assert Text.TrimStart("env") == "env";
  }

  /** What is cached carries the recorded ids after any operations. */
  lemma CachedIdsAgree(w: World, ops: seq<Op>, n: nat)
    requires Inv(w) && n <= |ops|
    ensures var after := At(w, ops, n);
      && (after.ctx.project.Some? ==> after.ctx.projectId == Some(after.ctx.project.value.id))
      && (after.ctx.environment.Some? ==> after.ctx.environmentId == Some(after.ctx.environment.value.id))
      && (after.ctx.environmentId.Some? ==> after.ctx.projectId.Some?)
  {
    RunKeepsInv(w, ops, n);
  }

  // ---- the memory of each project ----

  /** What the operation writes down for the project, if it writes anything. */
  function Choice(w: World, op: Op, pid: Id): Option<Option<Id>> {
    if w.ctx.projectId != Some(pid) then None
    else match op
      case OpSetEnvironment(eid) => if MaySetEnvironment(w, eid) then Some(eid) else None
      case OpDeleteEnvironment(eid) => if w.ctx.environmentId == Some(eid) then Some(None) else None
      case OpDeleteProject(q) => if q == pid then Some(None) else None
      case _ => None
  }

  lemma MemoryStep(w: World, op: Op, pid: Id)
    requires Inv(w)
    ensures Setting(Do(w, op), ActiveEnvironmentKey(pid))
         == match Choice(w, op, pid) case Some(choice) => choice case None => Setting(w, ActiveEnvironmentKey(pid))
  {
  }

  /** The last choice made while the project was active (deleting the active environment chooses none), or the first setting. */
  function LastChoice(w: World, ops: seq<Op>, n: nat, pid: Id): Option<Id>
    requires n <= |ops|
  {
    if n == 0 then Setting(w, ActiveEnvironmentKey(pid))
    else match Choice(At(w, ops, n - 1), ops[n - 1], pid)
      case Some(choice) => choice
      case None => LastChoice(w, ops, n - 1, pid)
  }

  /** After any operations the setting of every project is its last choice. */
  lemma {:induction false} MemoryIsLastChoice(w: World, ops: seq<Op>, n: nat, pid: Id)
    requires Inv(w) && n <= |ops|
    ensures Setting(At(w, ops, n), ActiveEnvironmentKey(pid)) == LastChoice(w, ops, n, pid)
  {
    if n > 0 {
      MemoryIsLastChoice(w, ops, n - 1, pid);
      RunKeepsInv(w, ops, n - 1);
      MemoryStep(At(w, ops, n - 1), ops[n - 1], pid);
    }
  }

  /** Switching to a project, after anything, brings back its last choice if and only if that environment still exists there. */
  lemma SwitchingRestoresLastChoice(w: World, ops: seq<Op>, pid: Id)
    requires Inv(w) && pid in DoAll(w, ops).db.projects
    ensures var now := DoAll(w, ops); var after := Do(now, OpSetProject(Some(pid))); var choice := LastChoice(w, ops, |ops|, pid);
      && after.ctx.projectId == Some(pid)
      && (after.ctx.environmentId == choice <==>
            (choice.Some? ==> choice.value in now.db.environments && now.db.environments[choice.value].projectId == pid))
      && (after.ctx.environmentId != choice ==> after.ctx.environmentId == None)
  {
    AtEnd(w, ops);
    MemoryIsLastChoice(w, ops, |ops|, pid);
  }

  // ---- restarts ----

  /** The settings name the active project. */
  predicate Persisted(w: World) {
    w.ctx.projectId == RememberedProject(w)
  }

  /** The operation creates the project that a left-over setting names. */
  predicate Revives(w: World, op: Op) {
    && op.OpSaveProject? && MayStoreProject(op.project)
    && op.project.id !in w.db.projects && Setting(w, ActiveProjectKey) == Some(op.project.id)
  }

  /** Every operation keeps the settings naming the active project, except exactly one that revives a left-over setting. */
  lemma PersistedStep(w: World, op: Op)
    requires Inv(w) && Persisted(w)
    ensures Persisted(Do(w, op)) <==> !Revives(w, op)
  {
  }

  /**
   * A restart restores the project. It restores an active environment if and only if that still
   * belongs to the project, and "none" if and only if the setting names no environment of the project.
   */
  lemma RestartRestores(w: World)
    requires Inv(w) && Persisted(w)
    ensures var again := Restore(w.(ctx := NO_CONTEXT));
      && again.ctx.projectId == w.ctx.projectId && Inv(again) && Belongs(again)
      && (w.ctx.environmentId.Some? ==> (again.ctx.environmentId == w.ctx.environmentId <==> Belongs(w)))
      && (w.ctx.environmentId.None? && w.ctx.projectId.Some? ==>
            var eid := Setting(w, ActiveEnvironmentKey(w.ctx.projectId.value));
            (again.ctx.environmentId == None <==>
              !(eid.Some? && eid.value in w.db.environments && Some(w.db.environments[eid.value].projectId) == w.ctx.projectId)))
  {
    var blank := w.(ctx := NO_CONTEXT);
    assert RememberedProject(blank) == RememberedProject(w);
    forall p: Id ensures Remembered(blank, p) == Remembered(w, p) {}
  }

  // ---- the managed state ----

  class AppState {
    var db: Db
    var projectId: Option<Id>
    var project: Option<Project>
    var environmentId: Option<Id>
    var environment: Option<Environment>
    var settings: Settings

    ghost function View(): World
      reads this
    {
      World(db, Context(projectId, project, environmentId, environment), settings)
    }

    constructor (db: Db, settings: Settings)
      ensures View() == World(db, NO_CONTEXT, settings)
      ensures DbInv(db) ==> Inv(View()) && Belongs(View())
    {
      this.db, this.settings := db, settings;
      projectId, project, environmentId, environment := None, None, None, None;
    }

    method ActiveProject() returns (r: Result<Option<Project>, Error>)
      modifies this`project
      ensures (View(), r) == ReadProject(old(View()))
      ensures View() == Do(old(View()), OpReadProject)
    {
      if project.Some? {
        return Ok(project);
      }
      if projectId.None? {
        return Ok(None);
      }
      var id := projectId.value;
      if id !in db.projects {
        return Err(NotFound);
      }
      if project.None? {
        project := Some(db.projects[id]);
      }
      return Ok(Some(db.projects[id]));
    }

    method ActiveEnvironment() returns (r: Result<Option<Environment>, Error>)
      modifies this`environment
      ensures (View(), r) == ReadEnvironment(old(View()))
      ensures View() == Do(old(View()), OpReadEnvironment)
    {
      if environment.Some? {
        return Ok(environment);
      }
      if environmentId.None? {
        return Ok(None);
      }
      var id := environmentId.value;
      if id !in db.environments {
        return Err(NotFound);
      }
      if environment.None? {
        environment := Some(db.environments[id]);
      }
      return Ok(Some(db.environments[id]));
    }

    method LoadProjectEnvironmentId(pid: Id) returns (eid: Option<Id>)
      ensures eid == Remembered(View(), pid)
    {
      var key := ActiveEnvironmentKey(pid);
      if key !in settings || settings[key].None? {
        return None;
      }
      var id := settings[key].value;
      if id in db.environments && db.environments[id].projectId == pid {
        return Some(id);
      }
      return None;
    }

    method SetActiveProject(pid: Option<Id>) returns (r: Result<(), Error>)
      modifies this
      ensures (View(), r) == SetProject(old(View()), pid)
      ensures View() == Do(old(View()), OpSetProject(pid))
    {
      var found: Option<Project> := None;
      var eid: Option<Id> := None;
      if pid.Some? {
        if pid.value !in db.projects {
          return Err(NotFound);
        }
        found := Some(db.projects[pid.value]);
        eid := LoadProjectEnvironmentId(pid.value);
      }
      var foundEnvironment: Option<Environment> := None;
      if eid.Some? {
        foundEnvironment := Some(db.environments[eid.value]);
      }
      projectId, project := pid, found;
      environmentId, environment := eid, foundEnvironment;
      settings := settings[ActiveProjectKey := pid];
      return Ok(());
    }

    method SetActiveEnvironment(eid: Option<Id>) returns (r: Result<(), Error>)
      modifies this
      ensures (View(), r) == SetEnvironment(old(View()), eid)
      ensures View() == Do(old(View()), OpSetEnvironment(eid))
    {
      var current := ActiveProject();
      if current.Err? {
        return Err(current.error);
      }
      if current.value.None? {
        return Err(NoProject);
      }
      var pid := current.value.value.id;
      var found: Option<Environment> := None;
      if eid.Some? {
        if eid.value !in db.environments {
          return Err(NotFound);
        }
        found := Some(db.environments[eid.value]);
        if found.value.projectId != pid {
          return Err(WrongProject);
        }
      }
      environmentId, environment := eid, found;
      settings := settings[ActiveEnvironmentKey(pid) := eid];
      return Ok(());
    }

    /** Nothing stays cached; what is recorded exists and fits together. */
    method RestoreActive()
      modifies this`projectId, this`project, this`environmentId, this`environment
      ensures View() == Restore(old(View())) == Do(old(View()), OpRestore)
      ensures project.None? && environment.None?
      ensures projectId.Some? ==> projectId.value in db.projects
      ensures Belongs(View())
    {
      var pid: Option<Id> := None;
      if ActiveProjectKey in settings {
        pid := settings[ActiveProjectKey];
      }
      if pid.Some? && pid.value !in db.projects {
        pid := None;
      }
      var eid: Option<Id> := None;
      if pid.Some? {
        eid := LoadProjectEnvironmentId(pid.value);
      }
      projectId, environmentId := pid, eid;
      project, environment := None, None;
    }

    /** Saving another project than the active one leaves the whole context alone; no save touches ids or environment. */
    method SaveProject(edited: Project) returns (r: Result<(), Error>)
      modifies this`db, this`project
      ensures (View(), r) == StoreProject(old(View()), edited)
      ensures View() == Do(old(View()), OpSaveProject(edited))
      ensures projectId != Some(edited.id) ==> project == old(project)
      ensures r.Ok? && projectId == Some(edited.id) ==> project == Some(edited)
    {
      if Text.Trim(edited.name) == "" {
        return Err(BlankName);
      }
      db := db.(projects := db.projects[edited.id := edited]);
      if projectId == Some(edited.id) {
        project := Some(edited);
      }
      return Ok(());
    }

    /** The same for environments; which project the saved environment belongs to makes no difference to the context. */
    method SaveEnvironment(edited: Environment) returns (r: Result<(), Error>)
      modifies this`db, this`environment
      ensures (View(), r) == StoreEnvironment(old(View()), edited)
      ensures View() == Do(old(View()), OpSaveEnvironment(edited))
      ensures environmentId != Some(edited.id) ==> environment == old(environment)
      ensures r.Ok? && environmentId == Some(edited.id) ==> environment == Some(edited)
    {
      if Text.Trim(edited.name) == "" {
        return Err(BlankName);
      }
      if edited.projectId !in db.projects {
        return Err(NotFound);
      }
      db := db.(environments := db.environments[edited.id := edited]);
      if environmentId == Some(edited.id) {
        environment := Some(edited);
      }
      return Ok(());
    }

    /** Afterwards the project is neither stored nor active; another active project stays as it was. */
    method DeleteProject(pid: Id)
      modifies this
      ensures View() == DropProject(old(View()), pid) == Do(old(View()), OpDeleteProject(pid))
      ensures pid !in db.projects && projectId != Some(pid)
      ensures old(projectId) != Some(pid) ==> View().ctx == old(View()).ctx && settings == old(settings)
    {
      db := Db(db.projects - {pid}, WithoutProject(db.environments, pid));
      if projectId == Some(pid) {
        projectId, project, environmentId, environment := None, None, None, None;
        settings := settings[ActiveProjectKey := None];
        settings := settings[ActiveEnvironmentKey(pid) := None];
      }
    }

    method DeleteEnvironment(eid: Id)
      modifies this`db, this`environmentId, this`environment, this`settings
      ensures View() == DropEnvironment(old(View()), eid) == Do(old(View()), OpDeleteEnvironment(eid))
      ensures eid !in db.environments && environmentId != Some(eid)
      ensures old(environmentId) != Some(eid) ==> View().ctx == old(View()).ctx && settings == old(settings)
    {
      db := db.(environments := db.environments - {eid});
      if environmentId == Some(eid) {
        environmentId, environment := None, None;
        if projectId.Some? {
          settings := settings[ActiveEnvironmentKey(projectId.value) := None];
        }
      }
    }
  }
}
