/**
 * The cache of the active project and environment, step by step: every lock acquisition and every
 * database query is a step of its own, for any number of overlapping calls.
 */
module ActiveCache {
  import opened Wrappers

  type Id = nat
  type Tid = nat

  datatype Side = ProjectSide | EnvironmentSide

  /** A stored project or environment; the version counts its edits. */
  datatype Record = Record(id: Id, version: nat)

  /** The recorded id and the cached record beside it. */
  datatype Cell = Cell(recorded: Option<Id>, cached: Option<Record>)

  type Key = (Side, Id)

  /** Where a call stands between two steps. */
  datatype Stage =
    | Filling(side: Side, id: Id)
    | Filled(side: Side, id: Id, record: Record)
    | Retrying(side: Side)
    | SetProject(pid: Option<Id>)
    | GotProject(pid: Option<Id>, project: Option<Record>)
    | GotEnvironmentId(pid: Option<Id>, project: Option<Record>, eid: Option<Id>)
    | GotBoth(pid: Option<Id>, project: Option<Record>, eid: Option<Id>, environment: Option<Record>)
    | SetEnvironment(eid: Option<Id>)
    | GotEnvironment(eid: Option<Id>, environment: Option<Record>)
    | Restoring(pid: Option<Id>, eid: Option<Id>)
    | Saved(side: Side, record: Record)

  datatype State = State(project: Cell, environment: Cell, tasks: map<Tid, Stage>, db: map<Key, Record>)

  function CellOf(s: State, side: Side): Cell {
    match side case ProjectSide => s.project case EnvironmentSide => s.environment
  }

  function WithCell(s: State, side: Side, c: Cell): State {
    match side case ProjectSide => s.(project := c) case EnvironmentSide => s.(environment := c)
  }

  datatype Action =
    | Read(t: Tid, side: Side)
    | BeginSetProject(t: Tid, pid: Option<Id>)
    | BeginSetEnvironment(t: Tid, eid: Option<Id>)
    | BeginRestore(t: Tid, pid: Option<Id>, eid: Option<Id>)
    | Fetch(t: Tid)
    | ChooseEnvironment(t: Tid, eid: Option<Id>)
    | Commit(t: Tid)
    | Save(t: Tid, side: Side, id: Id, version: nat)
    | Delete(side: Side, id: Id)
    | Abandon(t: Tid)

  // ---- the steps ----

  function Put(s: State, t: Tid, stage: Stage): State {
    s.(tasks := s.tasks[t := stage])
  }

  function Done(s: State, t: Tid): State {
    s.(tasks := s.tasks - {t})
  }

  /** The read lock: a cached record or an empty context answers at once, an id alone must be looked up. */
  function ReadStep(s: State, t: Tid, side: Side): State {
    var c := CellOf(s, side);
    if c.cached.Some? || c.recorded.None? then s else Put(s, t, Filling(side, c.recorded.value))
  }

  /** One query, or the read lock taken again; a missing row ends the call with an error. */
  function FetchStep(s: State, t: Tid): State
    requires t in s.tasks
  {
    match s.tasks[t]
    case Retrying(side) => ReadStep(Done(s, t), t, side)
    case Filling(side, id) =>
      if (side, id) in s.db then Put(s, t, Filled(side, id, s.db[(side, id)])) else Done(s, t)
    case SetProject(pid) =>
      if pid.None? then Put(s, t, GotProject(None, None))
      else if (ProjectSide, pid.value) in s.db then Put(s, t, GotProject(pid, Some(s.db[(ProjectSide, pid.value)])))
      else Done(s, t)
    case GotEnvironmentId(pid, project, eid) =>
      if eid.None? then Put(s, t, GotBoth(pid, project, None, None))
      else if (EnvironmentSide, eid.value) in s.db
      then Put(s, t, GotBoth(pid, project, eid, Some(s.db[(EnvironmentSide, eid.value)])))
      else Done(s, t)
    case SetEnvironment(eid) =>
      if eid.None? then Put(s, t, GotEnvironment(None, None))
      else if (EnvironmentSide, eid.value) in s.db
      then Put(s, t, GotEnvironment(eid, Some(s.db[(EnvironmentSide, eid.value)])))
      else Done(s, t)
    case _ => s
  }

  /** The write lock after a look-up: only if the id is still recorded, and only into an empty cache. */
  function FillCommit(s: State, t: Tid, side: Side, id: Id, record: Record): State {
    var c := CellOf(s, side);
    if c.recorded != Some(id) then Put(s, t, Retrying(side))
    else if c.cached.None? then WithCell(Done(s, t), side, c.(cached := Some(record)))
    else Done(s, t)
  }

  function RefreshCommit(s: State, t: Tid, side: Side, record: Record): State {
    var c := CellOf(s, side);
    if c.recorded == Some(record.id) then WithCell(Done(s, t), side, c.(cached := Some(record))) else Done(s, t)
  }

  function CommitStep(s: State, t: Tid): State
    requires t in s.tasks
  {
    match s.tasks[t]
    case Filled(side, id, record) => FillCommit(s, t, side, id, record)
    case GotBoth(pid, project, eid, environment) =>
      Done(s, t).(project := Cell(pid, project), environment := Cell(eid, environment))
    case GotEnvironment(eid, environment) => Done(s, t).(environment := Cell(eid, environment))
    case Restoring(pid, eid) => Done(s, t).(project := Cell(pid, None), environment := Cell(eid, None))
    case Saved(side, record) => RefreshCommit(s, t, side, record)
    case _ => s
  }

  function ChooseStep(s: State, t: Tid, eid: Option<Id>): State
    requires t in s.tasks
  {
    match s.tasks[t]
    case GotProject(pid, project) => Put(s, t, GotEnvironmentId(pid, project, if pid.Some? then eid else None))
    case _ => s
  }

  /** An edit is stored first and announced to the cache by a later step. */
  function SaveStep(s: State, t: Tid, side: Side, id: Id, version: nat): State {
    var record := Record(id, version);
    Put(s, t, Saved(side, record)).(db := s.db[(side, id) := record])
  }

  predicate Enabled(s: State, a: Action) {
    match a
    case Read(t, _) => t !in s.tasks
    case BeginSetProject(t, _) => t !in s.tasks
    case BeginSetEnvironment(t, _) => t !in s.tasks
    case BeginRestore(t, _, _) => t !in s.tasks
    case Fetch(t) => t in s.tasks
    case ChooseEnvironment(t, _) => t in s.tasks
    case Commit(t) => t in s.tasks
    case Save(t, _, _, _) => t !in s.tasks
    case Delete(_, _) => true
    case Abandon(t) => t in s.tasks
  }

  function Apply(s: State, a: Action): State
    requires Enabled(s, a)
  {
    match a
    case Read(t, side) => ReadStep(s, t, side)
    case BeginSetProject(t, pid) => Put(s, t, SetProject(pid))
    case BeginSetEnvironment(t, eid) => Put(s, t, SetEnvironment(eid))
    case BeginRestore(t, pid, eid) => Put(s, t, Restoring(pid, eid))
    case Fetch(t) => FetchStep(s, t)
    case ChooseEnvironment(t, eid) => ChooseStep(s, t, eid)
    case Commit(t) => CommitStep(s, t)
    case Save(t, side, id, version) => SaveStep(s, t, side, id, version)
    case Delete(side, id) => s.(db := s.db - {(side, id)})
    case Abandon(t) => Done(s, t)
  }

  ghost predicate Exec(s: State, actions: seq<Action>)
    decreases |actions|
  {
    actions == [] || (Enabled(s, actions[0]) && Exec(Apply(s, actions[0]), actions[1..]))
  }

  ghost function Run(s: State, actions: seq<Action>): State
    requires Exec(s, actions)
    decreases |actions|
  {
    if actions == [] then s else Run(Apply(s, actions[0]), actions[1..])
  }

  // ---- what each call does when nothing overlaps it ----

  /** The steps one after the other, each from where the one before it led. */
  ghost predicate Leads3(s: State, a: Action, b: Action, c: Action, end: State) {
    && Enabled(s, a)
    && var s1 := Apply(s, a);
       && Enabled(s1, b)
       && var s2 := Apply(s1, b);
          Enabled(s2, c) && Apply(s2, c) == end
  }

  /** A look-up answers from the cache, from an empty context, or from the store; then it fills the
      cache with the stored record, and a missing one changes nothing. */
  lemma LookUpFillsTheCache(s: State, t: Tid, side: Side)
    requires t !in s.tasks
    ensures CellOf(s, side).cached.Some? || CellOf(s, side).recorded.None? ==> Apply(s, Read(t, side)) == s
    ensures CellOf(s, side).cached.None? && CellOf(s, side).recorded.Some? ==>
      var id := CellOf(s, side).recorded.value;
      && Enabled(Apply(s, Read(t, side)), Fetch(t))
      && ((side, id) !in s.db ==> Apply(Apply(s, Read(t, side)), Fetch(t)) == s)
      && ((side, id) in s.db ==>
            Leads3(s, Read(t, side), Fetch(t), Commit(t),
                   if side == ProjectSide then s.(project := Cell(Some(id), Some(s.db[(side, id)])))
                   else s.(environment := Cell(Some(id), Some(s.db[(side, id)])))))
  {
    if CellOf(s, side).cached.None? && CellOf(s, side).recorded.Some? {
      var id := CellOf(s, side).recorded.value;
      if (side, id) in s.db {
        TaskGoes(s.tasks, t, Filling(side, id), Filled(side, id, s.db[(side, id)]));
      } else {
        TaskGoes(s.tasks, t, Filling(side, id), Filling(side, id));
      }
    }
  }

  lemma TaskGoes(tasks: map<Tid, Stage>, t: Tid, a: Stage, b: Stage)
    requires t !in tasks
    ensures tasks[t := a] - {t} == tasks && tasks[t := a][t := b] - {t} == tasks
  {
  }

  /** Choosing an environment writes it with its stored record, or none; a missing one changes nothing. */
  lemma SetEnvironmentWrites(s: State, t: Tid, eid: Option<Id>)
    requires t !in s.tasks
    ensures Enabled(s, BeginSetEnvironment(t, eid)) && Enabled(Apply(s, BeginSetEnvironment(t, eid)), Fetch(t))
    ensures eid.Some? && (EnvironmentSide, eid.value) !in s.db ==>
      Apply(Apply(s, BeginSetEnvironment(t, eid)), Fetch(t)) == s
    ensures eid.None? || (EnvironmentSide, eid.value) in s.db ==>
      Leads3(s, BeginSetEnvironment(t, eid), Fetch(t), Commit(t), s.(environment := Stored(s, EnvironmentSide, eid)))
  {
    TaskGoes(s.tasks, t, SetEnvironment(eid), GotEnvironment(eid, Stored(s, EnvironmentSide, eid).cached));
  }

  /** The id with what is stored under it. */
  function Stored(s: State, side: Side, id: Option<Id>): Cell {
    Cell(id, if id.None? then None else Get(s.db, (side, id.value)))
  }

  /** A missing project changes nothing. */
  lemma MissingProjectIsRefused(s: State, t: Tid, pid: Id)
    requires t !in s.tasks && (ProjectSide, pid) !in s.db
    ensures Enabled(s, BeginSetProject(t, Some(pid))) && Enabled(Apply(s, BeginSetProject(t, Some(pid))), Fetch(t))
    ensures Apply(Apply(s, BeginSetProject(t, Some(pid))), Fetch(t)) == s
  {
    TaskGoes(s.tasks, t, SetProject(Some(pid)), SetProject(Some(pid)));
  }

  /** Switching writes the project and the environment remembered for it, each with its stored record;
      without a project there is no environment either. */
  lemma SetProjectWrites(s: State, t: Tid, pid: Option<Id>, eid: Option<Id>)
    requires t !in s.tasks && (pid.Some? ==> (ProjectSide, pid.value) in s.db)
    requires pid.Some? && eid.Some? ==> (EnvironmentSide, eid.value) in s.db
    ensures var chosen := if pid.Some? then eid else None;
      var looked := Put(s, t, GotProject(pid, Stored(s, ProjectSide, pid).cached));
      && Enabled(s, BeginSetProject(t, pid)) && Enabled(Apply(s, BeginSetProject(t, pid)), Fetch(t))
      && Apply(Apply(s, BeginSetProject(t, pid)), Fetch(t)) == looked
      && Leads3(looked, ChooseEnvironment(t, eid), Fetch(t), Commit(t),
                s.(project := Stored(s, ProjectSide, pid), environment := Stored(s, EnvironmentSide, chosen)))
  {
    var chosen := if pid.Some? then eid else None;
    var project := Stored(s, ProjectSide, pid).cached;
    ChosenIsWritten(s, Put(s, t, GotProject(pid, project)), t, pid, project, eid, chosen);
  }

  lemma ChosenIsWritten(s: State, looked: State, t: Tid, pid: Option<Id>, project: Option<Record>, eid: Option<Id>, chosen: Option<Id>)
    requires t !in s.tasks && looked == Put(s, t, GotProject(pid, project))
    requires chosen == (if pid.Some? then eid else None) && (chosen.Some? ==> (EnvironmentSide, chosen.value) in s.db)
    ensures Leads3(looked, ChooseEnvironment(t, eid), Fetch(t), Commit(t),
                   s.(project := Cell(pid, project), environment := Stored(s, EnvironmentSide, chosen)))
  {
    var environment := Stored(s, EnvironmentSide, chosen).cached;
    var s1 := Put(looked, t, GotEnvironmentId(pid, project, chosen));
    var s2 := Put(s1, t, GotBoth(pid, project, chosen, environment));
    assert Apply(looked, ChooseEnvironment(t, eid)) == s1;
    assert Apply(s1, Fetch(t)) == s2;
    assert s2.tasks - {t} == s.tasks;
  }

  /** A restart writes both ids and forgets both records. */
  lemma RestoreWrites(s: State, t: Tid, pid: Option<Id>, eid: Option<Id>)
    requires t !in s.tasks
    ensures Enabled(s, BeginRestore(t, pid, eid)) && Enabled(Apply(s, BeginRestore(t, pid, eid)), Commit(t))
    ensures Apply(Apply(s, BeginRestore(t, pid, eid)), Commit(t))
         == s.(project := Cell(pid, None), environment := Cell(eid, None))
  {
    TaskGoes(s.tasks, t, Restoring(pid, eid), Restoring(pid, eid));
  }

  /** An edit is stored, and replaces the cached record exactly when its id is the recorded one. */
  lemma EditIsAnnounced(s: State, t: Tid, side: Side, id: Id, version: nat)
    requires t !in s.tasks
    ensures Enabled(s, Save(t, side, id, version)) && Enabled(Apply(s, Save(t, side, id, version)), Commit(t))
    ensures var edited := s.(db := s.db[(side, id) := Record(id, version)]);
      Apply(Apply(s, Save(t, side, id, version)), Commit(t)) ==
        if side == ProjectSide && s.project.recorded == Some(id)
        then edited.(project := Cell(Some(id), Some(Record(id, version))))
        else if side == EnvironmentSide && s.environment.recorded == Some(id)
        then edited.(environment := Cell(Some(id), Some(Record(id, version))))
        else edited
  {
    TaskGoes(s.tasks, t, Saved(side, Record(id, version)), Saved(side, Record(id, version)));
  }

  /** A row can go at any time, and a call can be dropped at any time. */
  lemma RowsAndCallsCanGo(s: State, side: Side, id: Id, t: Tid)
    ensures Enabled(s, Delete(side, id)) && Apply(s, Delete(side, id)) == s.(db := s.db - {(side, id)})
    ensures t in s.tasks ==> Enabled(s, Abandon(t)) && Apply(s, Abandon(t)) == s.(tasks := s.tasks - {t})
  {
  }

  // ---- coherence: a cached record carries the recorded id ----

  predicate CellCoherent(c: Cell) {
    c.cached.Some? ==> c.recorded == Some(c.cached.value.id)
  }

  predicate Paired(id: Option<Id>, record: Option<Record>) {
    record.Some? ==> id == Some(record.value.id)
  }

  predicate StageCoherent(stage: Stage) {
    match stage
    case Filled(_, id, record) => record.id == id
    case GotProject(pid, project) => Paired(pid, project)
    case GotEnvironmentId(pid, project, _) => Paired(pid, project)
    case GotBoth(pid, project, eid, environment) => Paired(pid, project) && Paired(eid, environment)
    case GotEnvironment(eid, environment) => Paired(eid, environment)
    case _ => true
  }

  ghost predicate Coherent(s: State) {
    && CellCoherent(s.project) && CellCoherent(s.environment)
    && (forall t | t in s.tasks :: StageCoherent(s.tasks[t]))
    && (forall k | k in s.db :: s.db[k].id == k.1)
  }

  lemma CoherentStep(s: State, a: Action)
    requires Coherent(s) && Enabled(s, a)
    ensures Coherent(Apply(s, a))
  {
    match a {
      case Fetch(t) => CoherentFetch(s, t);
      case Commit(t) => CoherentCommit(s, t);
      case _ =>
    }
  }

  lemma CoherentFetch(s: State, t: Tid)
    requires Coherent(s) && t in s.tasks
    ensures Coherent(FetchStep(s, t))
  {
  }

  lemma CoherentCommit(s: State, t: Tid)
    requires Coherent(s) && t in s.tasks
    ensures Coherent(CommitStep(s, t))
  {
    match s.tasks[t] {
      case Filled(side, id, record) => CoherentFill(s, t, side, id, record);
      case Saved(side, record) => CoherentRefresh(s, t, side, record);
      case _ =>
    }
  }

  lemma CoherentFill(s: State, t: Tid, side: Side, id: Id, record: Record)
    requires Coherent(s) && record.id == id
    ensures Coherent(FillCommit(s, t, side, id, record))
  {
  }

  lemma CoherentRefresh(s: State, t: Tid, side: Side, record: Record)
    requires Coherent(s)
    ensures Coherent(RefreshCommit(s, t, side, record))
  {
  }

  /** In every interleaving a cached project or environment carries the id recorded beside it. */
  lemma {:induction false} RunStaysCoherent(s: State, actions: seq<Action>)
    requires Coherent(s) && Exec(s, actions)
    ensures Coherent(Run(s, actions))
    decreases |actions|
  {
    if actions != [] {
      CoherentStep(s, actions[0]);
      RunStaysCoherent(Apply(s, actions[0]), actions[1..]);
    }
  }

  // ---- a fill never replaces what a set or a refresh wrote ----

  /** The step writes this side's cell on behalf of a set, a restore or an announced edit. */
  predicate Writes(s: State, a: Action, side: Side) {
    && a.Commit? && a.t in s.tasks
    && match s.tasks[a.t]
       case GotBoth(_, _, _, _) => true
       case GotEnvironment(_, _) => side == EnvironmentSide
       case Restoring(_, _) => true
       case Saved(at, _) => at == side
       case _ => false
  }

  ghost predicate NoWrites(s: State, actions: seq<Action>, side: Side)
    requires Exec(s, actions)
    decreases |actions|
  {
    actions == [] || (!Writes(s, actions[0], side) && NoWrites(Apply(s, actions[0]), actions[1..], side))
  }

  /** Whatever reads, look-ups and fills happen, the record a set or refresh wrote stays until the next such write. */
  lemma {:induction false} WrittenRecordStays(s: State, actions: seq<Action>, side: Side, record: Record)
    requires Exec(s, actions) && NoWrites(s, actions, side)
    requires CellOf(s, side).cached == Some(record)
    ensures CellOf(Run(s, actions), side) == CellOf(s, side)
    decreases |actions|
  {
    if actions != [] {
      WrittenRecordStays(Apply(s, actions[0]), actions[1..], side, record);
    }
  }

  // ---- freshness: the cache follows the edits ----

  /** The record a setter has read and will write to this side. */
  function Carried(stage: Stage, side: Side): Option<Record> {
    match stage
    case GotProject(_, project) => if side == ProjectSide then project else None
    case GotEnvironmentId(_, project, _) => if side == ProjectSide then project else None
    case GotBoth(_, project, _, environment) => if side == ProjectSide then project else environment
    case GotEnvironment(_, environment) => if side == EnvironmentSide then environment else None
    case _ => None
  }

  /** An edit of this record is stored but not yet announced. */
  predicate Announces(stage: Stage, side: Side, id: Id) {
    stage.Saved? && stage.side == side && stage.record.id == id
  }

  ghost predicate Pending(s: State, side: Side, id: Id) {
    exists t :: t in s.tasks && Announces(s.tasks[t], side, id)
  }

  /** No call is between reading and writing this record, and no other edit of it is unannounced. */
  ghost predicate Quiet(s: State, side: Side, id: Id) {
    forall t | t in s.tasks ::
      !Announces(s.tasks[t], side, id)
      && !(Carried(s.tasks[t], side).Some? && Carried(s.tasks[t], side).value.id == id)
  }

  /**
   * The discipline: edits do not overlap a set or another edit of the same record, a saved edit is
   * always announced (its call is not abandoned before), and nothing is deleted or restored.
   */
  ghost predicate Calm(s: State, a: Action) {
    match a
    case Save(_, side, id, _) => Quiet(s, side, id)
    case Delete(_, _) => false
    case BeginRestore(_, _, _) => false
    case Abandon(t) => t in s.tasks && !s.tasks[t].Saved?
    case _ => true
  }

  ghost predicate CalmRun(s: State, actions: seq<Action>)
    requires Exec(s, actions)
    decreases |actions|
  {
    actions == [] || (Calm(s, actions[0]) && CalmRun(Apply(s, actions[0]), actions[1..]))
  }

  predicate Current(db: map<Key, Record>, side: Side, record: Record) {
    (side, record.id) in db && db[(side, record.id)] == record
  }

  /** The cached record is current, unless an edit of it is about to be announced. */
  ghost predicate CellFresh(s: State, side: Side) {
    var c := CellOf(s, side);
    c.cached.Some? ==> Current(s.db, side, c.cached.value) || Pending(s, side, c.cached.value.id)
  }

  /** A looked-up record that went stale can no longer be filled in. */
  ghost predicate FillFresh(s: State, stage: Stage) {
    stage.Filled? ==>
      || Current(s.db, stage.side, stage.record)
      || Pending(s, stage.side, stage.id)
      || CellOf(s, stage.side).recorded != Some(stage.id)
      || CellOf(s, stage.side).cached.Some?
  }

  predicate CarriedFresh(db: map<Key, Record>, stage: Stage) {
    && (Carried(stage, ProjectSide).Some? ==> Current(db, ProjectSide, Carried(stage, ProjectSide).value))
    && (Carried(stage, EnvironmentSide).Some? ==> Current(db, EnvironmentSide, Carried(stage, EnvironmentSide).value))
    && (stage.Saved? ==> Current(db, stage.side, stage.record))
    && !stage.Restoring?
  }

  /** A call that will record an id also carries its record. */
  predicate Complete(stage: Stage) {
    match stage
    case GotProject(pid, project) => pid.Some? == project.Some?
    case GotEnvironmentId(pid, project, _) => pid.Some? == project.Some?
    case GotBoth(pid, project, eid, environment) => pid.Some? == project.Some? && eid.Some? == environment.Some?
    case GotEnvironment(eid, environment) => eid.Some? == environment.Some?
    case _ => true
  }

  ghost predicate Fresh(s: State) {
    && Coherent(s)
    && CellFresh(s, ProjectSide) && CellFresh(s, EnvironmentSide)
    && forall t | t in s.tasks ::
         FillFresh(s, s.tasks[t]) && CarriedFresh(s.db, s.tasks[t]) && Complete(s.tasks[t])
  }

  /** Every other call stands where it stood. */
  ghost predicate OthersStay(s: State, s': State, t: Tid) {
    && (forall u | u in s.tasks && u != t :: u in s'.tasks && s'.tasks[u] == s.tasks[u])
    && (forall u | u in s'.tasks && u != t :: u in s.tasks)
  }

  lemma PendingStays(s: State, s': State, t: Tid, side: Side, id: Id)
    requires OthersStay(s, s', t) && Pending(s, side, id)
    requires t in s.tasks ==> !Announces(s.tasks[t], side, id)
    ensures Pending(s', side, id)
  {
    var u :| u in s.tasks && Announces(s.tasks[u], side, id);
    assert Announces(s'.tasks[u], side, id);
  }

  /** A step that moves one call and nothing else. */
  lemma FreshMove(s: State, s': State, t: Tid)
    requires Fresh(s) && Coherent(s') && OthersStay(s, s', t)
    requires s'.project == s.project && s'.environment == s.environment && s'.db == s.db
    requires t in s.tasks ==> !s.tasks[t].Saved?
    requires t in s'.tasks ==>
      FillFresh(s', s'.tasks[t]) && CarriedFresh(s'.db, s'.tasks[t]) && Complete(s'.tasks[t])
    ensures Fresh(s')
  {
    forall side, id | Pending(s, side, id) ensures Pending(s', side, id) {
      PendingStays(s, s', t, side, id);
    }
    forall u | u in s'.tasks
      ensures FillFresh(s', s'.tasks[u]) && CarriedFresh(s'.db, s'.tasks[u]) && Complete(s'.tasks[u])
    {
      if u != t {
        assert u in s.tasks && FillFresh(s, s.tasks[u]) && CarriedFresh(s.db, s.tasks[u]) && Complete(s.tasks[u]);
        assert CellOf(s', ProjectSide) == CellOf(s, ProjectSide) && CellOf(s', EnvironmentSide) == CellOf(s, EnvironmentSide);
      }
    }
  }

  lemma FreshFetch(s: State, t: Tid)
    requires Fresh(s) && t in s.tasks
    ensures Fresh(FetchStep(s, t))
  {
    CoherentFetch(s, t);
    assert CarriedFresh(s.db, s.tasks[t]) && Complete(s.tasks[t]);
    FetchedIsCurrent(s, t, s.tasks[t]);
    FetchMoves(s, t);
    if FetchStep(s, t) != s {
      FreshMove(s, FetchStep(s, t), t);
    }
  }

  lemma FetchMoves(s: State, t: Tid)
    requires t in s.tasks
    ensures FetchStep(s, t) != s ==> var s' := FetchStep(s, t);
      OthersStay(s, s', t) && s'.project == s.project && s'.environment == s.environment && s'.db == s.db
  {
  }

  lemma FetchedIsCurrent(s: State, t: Tid, stage: Stage)
    requires Coherent(s) && t in s.tasks && stage == s.tasks[t] && CarriedFresh(s.db, stage) && Complete(stage)
    ensures FetchStep(s, t) == s || !stage.Saved?
    ensures t in FetchStep(s, t).tasks ==>
      var next := FetchStep(s, t).tasks[t];
      CarriedFresh(s.db, next) && Complete(next)
      && (FetchStep(s, t) == s || FillFresh(FetchStep(s, t), next))
  {
  }

  /** A step that writes cells: each side is written with a current record, emptied with its id, or left alone. */
  ghost predicate CellStep(s: State, s': State, side: Side) {
    var c, c' := CellOf(s, side), CellOf(s', side);
    || c' == c
    || (c'.recorded.Some? == c'.cached.Some? && (c'.cached.Some? ==> Current(s.db, side, c'.cached.value)))
  }

  lemma FreshWrite(s: State, s': State, t: Tid)
    requires Fresh(s) && Coherent(s') && OthersStay(s, s', t) && t in s.tasks && t !in s'.tasks && s'.db == s.db
    requires CellStep(s, s', ProjectSide) && CellStep(s, s', EnvironmentSide)
    requires s.tasks[t].Saved? ==>
      CellOf(s, s.tasks[t].side).recorded == Some(s.tasks[t].record.id) ==> CellOf(s', s.tasks[t].side).cached.Some?
    requires s.tasks[t].Saved? ==>
      CellOf(s', s.tasks[t].side).cached == Some(s.tasks[t].record) || CellOf(s', s.tasks[t].side).recorded != Some(s.tasks[t].record.id)
    ensures Fresh(s')
  {
    forall side, id | Pending(s, side, id) && !Announces(s.tasks[t], side, id) ensures Pending(s', side, id) {
      PendingStays(s, s', t, side, id);
    }
    assert CarriedFresh(s.db, s.tasks[t]);
    forall side: Side ensures CellFresh(s', side) {
      assert CellStep(s, s', side) && CellFresh(s, side);
    }
    forall u | u in s'.tasks
      ensures FillFresh(s', s'.tasks[u]) && CarriedFresh(s'.db, s'.tasks[u]) && Complete(s'.tasks[u])
    {
      var stage := s.tasks[u];
      assert FillFresh(s, stage) && CarriedFresh(s.db, stage) && Complete(stage);
      if stage.Filled? {
        assert CellStep(s, s', stage.side);
      }
    }
  }

  lemma FreshCommit(s: State, t: Tid)
    requires Fresh(s) && t in s.tasks
    ensures Fresh(CommitStep(s, t))
  {
    CoherentCommit(s, t);
    var s' := CommitStep(s, t);
    var stage := s.tasks[t];
    assert FillFresh(s, stage) && CarriedFresh(s.db, stage) && Complete(stage);
    match stage {
      case Filled(side, id, record) =>
        if CellOf(s, side).recorded == Some(id) && CellOf(s, side).cached.None? {
          FreshFill(s, t, side, id, record);
        } else {
          FreshMove(s, s', t);
        }
      case GotBoth(_, _, _, _) => FreshWrite(s, s', t);
      case GotEnvironment(_, _) => FreshWrite(s, s', t);
      case Saved(_, _) => FreshWrite(s, s', t);
      case _ =>
    }
  }

  lemma FreshFill(s: State, t: Tid, side: Side, id: Id, record: Record)
    requires Fresh(s) && t in s.tasks && s.tasks[t] == Filled(side, id, record)
    requires CellOf(s, side).recorded == Some(id) && CellOf(s, side).cached.None?
    ensures Fresh(CommitStep(s, t))
  {
    CoherentCommit(s, t);
    var s' := CommitStep(s, t);
    assert FillFresh(s, s.tasks[t]);
    forall at, other | Pending(s, at, other) ensures Pending(s', at, other) {
      PendingStays(s, s', t, at, other);
    }
    forall u | u in s'.tasks
      ensures FillFresh(s', s'.tasks[u]) && CarriedFresh(s'.db, s'.tasks[u]) && Complete(s'.tasks[u])
    {
      assert FillFresh(s, s.tasks[u]) && CarriedFresh(s.db, s.tasks[u]) && Complete(s.tasks[u]);
    }
  }

  lemma FreshSave(s: State, t: Tid, side: Side, id: Id, version: nat)
    requires Fresh(s) && t !in s.tasks && Quiet(s, side, id)
    ensures Fresh(SaveStep(s, t, side, id, version))
  {
    var s' := SaveStep(s, t, side, id, version);
    assert Announces(s'.tasks[t], side, id);
    forall at, other | Pending(s, at, other) ensures Pending(s', at, other) {
      PendingStays(s, s', t, at, other);
    }
    forall u | u in s'.tasks
      ensures FillFresh(s', s'.tasks[u]) && CarriedFresh(s'.db, s'.tasks[u]) && Complete(s'.tasks[u])
    {
      if u != t {
        assert FillFresh(s, s.tasks[u]) && CarriedFresh(s.db, s.tasks[u]) && Complete(s.tasks[u]);
      }
    }
  }

  lemma FreshStep(s: State, a: Action)
    requires Fresh(s) && Enabled(s, a) && Calm(s, a)
    ensures Fresh(Apply(s, a))
  {
    CoherentStep(s, a);
    match a {
      case Fetch(t) => FreshFetch(s, t);
      case Commit(t) => FreshCommit(s, t);
      case Save(t, side, id, version) => FreshSave(s, t, side, id, version);
      case Read(t, _) => FreshMove(s, Apply(s, a), t);
      case ChooseEnvironment(t, _) =>
        if Apply(s, a) != s {
          assert CarriedFresh(s.db, s.tasks[t]) && Complete(s.tasks[t]);
          FreshMove(s, Apply(s, a), t);
        }
      case Abandon(t) => FreshMove(s, Apply(s, a), t);
      case BeginSetProject(t, _) => FreshMove(s, Apply(s, a), t);
      case BeginSetEnvironment(t, _) => FreshMove(s, Apply(s, a), t);
    }
  }

  /** Nothing is cached and no call is under way, as at the start and after a restore. */
  predicate Init(s: State) {
    s.project.cached.None? && s.environment.cached.None? && s.tasks == map[]
  }

  lemma {:induction false} RunStaysFresh(s: State, actions: seq<Action>)
    requires Fresh(s) && Exec(s, actions) && CalmRun(s, actions)
    ensures Fresh(Run(s, actions))
    decreases |actions|
  {
    if actions != [] {
      FreshStep(s, actions[0]);
      RunStaysFresh(Apply(s, actions[0]), actions[1..]);
    }
  }

  /**
   * However reads, look-ups and fills interleave: when edits do not overlap a set or another edit
   * of the same record and every saved edit is announced, a cached record without an unannounced
   * edit is the stored one.
   */
  lemma CacheFollowsEdits(s: State, actions: seq<Action>, side: Side)
    requires Init(s) && (forall k | k in s.db :: s.db[k].id == k.1)
    requires Exec(s, actions) && CalmRun(s, actions)
    ensures var after := Run(s, actions); var c := CellOf(after, side);
      c.cached.Some? && !Pending(after, side, c.cached.value.id) ==> Current(after.db, side, c.cached.value)
  {
    RunStaysFresh(s, actions);
    assert CellFresh(Run(s, actions), side);
  }

  // ---- why each clause of the discipline is needed ----

  /** If the step reads which environment the settings remember, it finds this one. */
  predicate Chooses(a: Action, e: Option<Id>) {
    a.ChooseEnvironment? ==> a.eid == e
  }

  ghost predicate Choosing(actions: seq<Action>, e: Option<Id>) {
    forall i | 0 <= i < |actions| :: Chooses(actions[i], e)
  }

  /** Some calm run with these settings leads from one state to the other. */
  ghost predicate Leads(e: Option<Id>, s: State, s': State) {
    exists actions :: Exec(s, actions) && CalmRun(s, actions) && Choosing(actions, e) && Run(s, actions) == s'
  }

  lemma LeadsHere(e: Option<Id>, s: State)
    ensures Leads(e, s, s)
  {
    LeadsBy(e, s, []);
  }

  lemma LeadsBy(e: Option<Id>, s: State, actions: seq<Action>)
    requires Exec(s, actions) && CalmRun(s, actions) && Choosing(actions, e)
    ensures Leads(e, s, Run(s, actions))
  {
  }

  lemma LeadsBefore(e: Option<Id>, s: State, a: Action, s': State)
    requires Enabled(s, a) && Calm(s, a) && Chooses(a, e) && Leads(e, Apply(s, a), s')
    ensures Leads(e, s, s')
  {
    var actions :| Exec(Apply(s, a), actions) && CalmRun(Apply(s, a), actions) && Choosing(actions, e)
                && Run(Apply(s, a), actions) == s';
    var all := [a] + actions;
    assert all[0] == a && all[1..] == actions;
    LeadsBy(e, s, all);
  }

  lemma {:induction false} LeadsAlong(e: Option<Id>, s: State, actions: seq<Action>, s': State)
    requires Exec(s, actions) && CalmRun(s, actions) && Choosing(actions, e) && Leads(e, Run(s, actions), s')
    ensures Leads(e, s, s')
    decreases |actions|
  {
    if actions != [] {
      assert Chooses(actions[0], e);
      LeadsAlong(e, Apply(s, actions[0]), actions[1..], s');
      LeadsBefore(e, s, actions[0], s');
    }
  }

  lemma LeadsOn(e: Option<Id>, s: State, mid: State, s': State)
    requires Leads(e, s, mid) && Leads(e, mid, s')
    ensures Leads(e, s, s')
  {
    var actions :| Exec(s, actions) && CalmRun(s, actions) && Choosing(actions, e) && Run(s, actions) == mid;
    LeadsAlong(e, s, actions, s');
  }

  lemma LeadsTo(e: Option<Id>, s: State, mid: State, a: Action)
    requires Leads(e, s, mid) && Enabled(mid, a) && Calm(mid, a) && Chooses(a, e)
    ensures Leads(e, s, Apply(mid, a))
  {
    LeadsHere(e, Apply(mid, a));
    LeadsBefore(e, mid, a, Apply(mid, a));
    LeadsOn(e, s, mid, Apply(mid, a));
  }

  /** No call outside the kept ones is about to announce an edit of the recorded id. */
  ghost predicate Unannounced(s: State, keep: set<Tid>, side: Side) {
    forall t, id | t in s.tasks && t !in keep && CellOf(s, side).recorded == Some(id) :: !Announces(s.tasks[t], side, id)
  }

  /** Every other call can end: edits are announced, the rest is abandoned. */
  lemma OthersEnd(e: Option<Id>, s: State, keep: set<Tid>) returns (s': State)
    ensures Leads(e, s, s') && s'.db == s.db
    ensures forall t :: t in s'.tasks <==> t in s.tasks && t in keep
    ensures forall t | t in s'.tasks :: s'.tasks[t] == s.tasks[t]
    ensures forall side: Side | Unannounced(s, keep, side) :: CellOf(s', side) == CellOf(s, side)
    decreases |s.tasks.Keys|
  {
    if t :| t in s.tasks && t !in keep {
      var a := if s.tasks[t].Saved? then Commit(t) else Abandon(t);
      var next := Apply(s, a);
      CallEnds(s, t, a);
      s' := OthersEnd(e, next, keep);
      LeadsBefore(e, s, a, s');
      forall side: Side | Unannounced(s, keep, side) ensures CellOf(s', side) == CellOf(s, side) {
        OneEnds(s, keep, side, t, a);
      }
    } else {
      s' := s;
      LeadsHere(e, s);
    }
  }

  lemma CallEnds(s: State, t: Tid, a: Action)
    requires t in s.tasks && a == if s.tasks[t].Saved? then Commit(t) else Abandon(t)
    ensures Calm(s, a) && Apply(s, a).db == s.db
    ensures Apply(s, a).tasks == s.tasks - {t} && Apply(s, a).tasks.Keys == s.tasks.Keys - {t}
  {
  }

  lemma OneEnds(s: State, keep: set<Tid>, side: Side, t: Tid, a: Action)
    requires t in s.tasks && t !in keep && Unannounced(s, keep, side)
    requires a == if s.tasks[t].Saved? then Commit(t) else Abandon(t)
    ensures CellOf(Apply(s, a), side) == CellOf(s, side) && Unannounced(Apply(s, a), keep, side)
  {
    if s.tasks[t].Saved? && s.tasks[t].side == side {
      assert CellOf(s, side).recorded == Some(s.tasks[t].record.id) ==> !Announces(s.tasks[t], side, s.tasks[t].record.id);
    }
    assert CellOf(Apply(s, a), side) == CellOf(s, side);
  }

  /** Nothing is under way, and this record is cached although another one is stored. */
  ghost predicate Stale(s: State, side: Side, cached: Record, stored: Record) {
    s.tasks == map[] && CellOf(s, side).cached == Some(cached) && (side, cached.id) in s.db && s.db[(side, cached.id)] == stored && stored != cached
  }

  /** The last call under way. */
  predicate Alone(s: State, t: Tid, stage: Stage) {
    s.tasks == map[t := stage]
  }

  /** A lone setter at its last step writes what it carries. */
  lemma LastStep(e: Option<Id>, s: State, t: Tid, stage: Stage, side: Side, r: Record, stored: Record) returns (s': State)
    requires Alone(s, t, stage) && (stage.GotBoth? || stage.GotEnvironment?) && Carried(stage, side) == Some(r)
    requires (side, r.id) in s.db && s.db[(side, r.id)] == stored && stored != r
    ensures Leads(e, s, s') && Stale(s', side, r, stored)
  {
    s' := CommitStep(s, t);
    LeadsHere(e, s);
    LeadsTo(e, s, s, Commit(t));
    assert s'.tasks == map[];
  }

  /** Beside a lone call that carries no environment: this environment is there, or is created first. */
  lemma EnvironmentAppears(e: Option<Id>, s: State, t: Tid, stage: Stage, eid: Option<Id>) returns (s': State)
    requires Alone(s, t, stage) && Carried(stage, EnvironmentSide) == None
    requires stage.Saved? ==> stage.side == ProjectSide
    ensures Leads(e, s, s') && Alone(s', t, stage) && (eid.Some? ==> (EnvironmentSide, eid.value) in s'.db)
    ensures forall id | (ProjectSide, id) in s.db :: (ProjectSide, id) in s'.db && s'.db[(ProjectSide, id)] == s.db[(ProjectSide, id)]
  {
    if eid.None? || (EnvironmentSide, eid.value) in s.db {
      s' := s;
      LeadsHere(e, s);
    } else {
      s' := IsCreated(e, s, t, stage, EnvironmentSide, eid.value);
    }
  }

  /** Beside a lone call that carries nothing of this side, a record is stored and announced. */
  lemma IsCreated(e: Option<Id>, s: State, t: Tid, stage: Stage, side: Side, id: Id) returns (s': State)
    requires Alone(s, t, stage) && Carried(stage, side) == None && (stage.Saved? ==> stage.side != side)
    ensures Leads(e, s, s') && Alone(s', t, stage) && s'.db == s.db[(side, id) := Record(id, 0)]
  {
    var u := t + 1;
    var saving := SaveStep(s, u, side, id, 0);
    LeadsHere(e, s);
    LeadsTo(e, s, s, Save(u, side, id, 0));
    LeadsTo(e, s, saving, Commit(u));
    s' := CommitStep(saving, u);
    AnnouncingLeaves(saving, u, side, Record(id, 0), t, stage);
  }

  lemma AnnouncingLeaves(s: State, u: Tid, side: Side, record: Record, t: Tid, stage: Stage)
    requires u != t && s.tasks == map[t := stage, u := Saved(side, record)]
    ensures Alone(CommitStep(s, u), t, stage) && CommitStep(s, u).db == s.db
  {
    assert s.tasks - {u} == map[t := stage];
  }

  /** A lone setter with both ids goes on to write the project it carries. */
  lemma IdKnown(e: Option<Id>, s: State, t: Tid, stage: Stage, r: Record, stored: Record) returns (s': State)
    requires Alone(s, t, stage) && stage.GotEnvironmentId? && stage.project == Some(r)
    requires (ProjectSide, r.id) in s.db && s.db[(ProjectSide, r.id)] == stored && stored != r
    ensures Leads(e, s, s') && Stale(s', ProjectSide, r, stored)
  {
    var ready := EnvironmentAppears(e, s, t, stage, stage.eid);
    var fetched := FetchStep(ready, t);
    LeadsTo(e, s, ready, Fetch(t));
    assert fetched.tasks == map[t := fetched.tasks[t]];
    s' := LastStep(e, fetched, t, fetched.tasks[t], ProjectSide, r, stored);
    LeadsOn(e, s, fetched, s');
  }

  /** A lone setter that carries a record can go on to write it. */
  lemma SetterFinishes(e: Option<Id>, s: State, t: Tid, stage: Stage, side: Side, r: Record, stored: Record) returns (s': State)
    requires Alone(s, t, stage) && Carried(stage, side) == Some(r)
    requires (side, r.id) in s.db && s.db[(side, r.id)] == stored && stored != r
    ensures Leads(e, s, s') && Stale(s', side, r, stored)
  {
    match stage {
      case GotProject(pid, project) =>
        LeadsHere(e, s);
        LeadsTo(e, s, s, ChooseEnvironment(t, e));
        var chosen := ChooseStep(s, t, e);
        assert chosen.tasks == map[t := chosen.tasks[t]];
        s' := IdKnown(e, chosen, t, chosen.tasks[t], r, stored);
        LeadsOn(e, s, chosen, s');
      case GotEnvironmentId(_, _, _) => s' := IdKnown(e, s, t, stage, r, stored);
      case _ => s' := LastStep(e, s, t, stage, side, r, stored);
    }
  }

  /**
   * Edits must not overlap a set: from every state in which a call holds a record it has read and
   * not yet written, and whichever environment the settings remember, one edit of that record and
   * a calm run end with nothing under way and the old record cached.
   */
  lemma EditUnderSetLeavesStaleRecord(e: Option<Id>, s: State, t: Tid, side: Side, r: Record, u: Tid, version: nat) returns (s': State)
    requires t in s.tasks && Carried(s.tasks[t], side) == Some(r)
    requires u !in s.tasks && version != r.version
    ensures Leads(e, Apply(s, Save(u, side, r.id, version)), s')
    ensures Stale(s', side, r, Record(r.id, version))
  {
    var edited := SaveStep(s, u, side, r.id, version);
    var alone := OthersEnd(e, edited, {t});
    assert alone.tasks == map[t := s.tasks[t]];
    s' := SetterFinishes(e, alone, t, s.tasks[t], side, r, Record(r.id, version));
    LeadsOn(e, edited, alone, s');
  }

  /** Two calls under way. */
  predicate Both(s: State, a: Tid, announcing: Stage, c: Tid, setting: Stage) {
    a != c && s.tasks == map[a := announcing, c := setting]
  }

  /** Beside an unannounced edit, a setter of that id that is about to write makes the id the active one. */
  lemma SetterRecords(e: Option<Id>, s: State, a: Tid, announcing: Stage, c: Tid, setting: Stage, side: Side) returns (s': State)
    requires Both(s, a, announcing, c, setting)
    requires (setting.GotBoth? && side == ProjectSide) || (setting.GotEnvironment? && side == EnvironmentSide)
    ensures Leads(e, s, s') && Alone(s', a, announcing) && s'.db == s.db
    ensures CellOf(s', side).recorded == if side == ProjectSide then setting.pid else setting.eid
  {
    LeadsHere(e, s);
    s' := CommitStep(s, c);
    LeadsTo(e, s, s, Commit(c));
    assert s'.tasks == map[a := announcing];
  }

  /** One step of the setter beside an unannounced edit. */
  lemma SetterMoves(e: Option<Id>, s: State, mid: State, a: Tid, announcing: Stage, c: Tid, setting: Stage, step: Action, next: Stage)
    requires Leads(e, s, mid) && Both(mid, a, announcing, c, setting)
    requires Enabled(mid, step) && Calm(mid, step) && Chooses(step, e)
    requires Apply(mid, step) == Put(mid, c, next)
    ensures Leads(e, s, Put(mid, c, next)) && Both(Put(mid, c, next), a, announcing, c, next)
  {
    LeadsTo(e, s, mid, step);
  }

  lemma EnvironmentBecomesActive(e: Option<Id>, s: State, a: Tid, r: Record) returns (s': State)
    requires Alone(s, a, Saved(EnvironmentSide, r)) && (EnvironmentSide, r.id) in s.db
    ensures Leads(e, s, s') && Alone(s', a, Saved(EnvironmentSide, r)) && s'.db == s.db
    ensures s'.environment.recorded == Some(r.id)
  {
    var c, saved, id := a + 1, Saved(EnvironmentSide, r), Some(r.id);
    var begun := Put(s, c, SetEnvironment(id));
    LeadsHere(e, s);
    LeadsTo(e, s, s, BeginSetEnvironment(c, id));
    var got := GotEnvironment(id, Some(s.db[(EnvironmentSide, r.id)]));
    SetterMoves(e, s, begun, a, saved, c, SetEnvironment(id), Fetch(c), got);
    var fetched := Put(begun, c, got);
    s' := SetterRecords(e, fetched, a, saved, c, got, EnvironmentSide);
    LeadsOn(e, s, fetched, s');
  }

  lemma ProjectBecomesActive(e: Option<Id>, s: State, a: Tid, r: Record) returns (s': State)
    requires Alone(s, a, Saved(ProjectSide, r)) && (ProjectSide, r.id) in s.db
    requires e.Some? ==> (EnvironmentSide, e.value) in s.db
    ensures Leads(e, s, s') && Alone(s', a, Saved(ProjectSide, r)) && s'.db == s.db
    ensures s'.project.recorded == Some(r.id)
  {
    var c, saved, id := a + 1, Saved(ProjectSide, r), Some(r.id);
    var project := Some(s.db[(ProjectSide, r.id)]);
    var begun := Put(s, c, SetProject(id));
    LeadsHere(e, s);
    LeadsTo(e, s, s, BeginSetProject(c, id));
    var got := GotProject(id, project);
    SetterMoves(e, s, begun, a, saved, c, SetProject(id), Fetch(c), got);
    s' := ProjectIsSet(e, Put(begun, c, got), a, saved, c, id, project);
    LeadsOn(e, s, Put(begun, c, got), s');
  }

  /** Beside an unannounced edit, a setter that has read its project finds the environment and writes both. */
  lemma ProjectIsSet(e: Option<Id>, s: State, a: Tid, saved: Stage, c: Tid, id: Option<Id>, project: Option<Record>) returns (s': State)
    requires Both(s, a, saved, c, GotProject(id, project)) && id.Some?
    requires e.Some? ==> (EnvironmentSide, e.value) in s.db
    ensures Leads(e, s, s') && Alone(s', a, saved) && s'.db == s.db && s'.project.recorded == id
  {
    var environment := if e.Some? then Some(s.db[(EnvironmentSide, e.value)]) else None;
    var chose := GotEnvironmentId(id, project, e);
    LeadsHere(e, s);
    SetterMoves(e, s, s, a, saved, c, GotProject(id, project), ChooseEnvironment(c, e), chose);
    var chosen := Put(s, c, chose);
    var last := GotBoth(id, project, e, environment);
    SetterMoves(e, s, chosen, a, saved, c, chose, Fetch(c), last);
    s' := SetterRecords(e, Put(chosen, c, last), a, saved, c, last, ProjectSide);
    LeadsOn(e, s, Put(chosen, c, last), s');
  }

  lemma BecomesActive(e: Option<Id>, s: State, a: Tid, side: Side, r: Record) returns (s': State)
    requires Alone(s, a, Saved(side, r)) && (side, r.id) in s.db
    ensures Leads(e, s, s') && Alone(s', a, Saved(side, r)) && CellOf(s', side).recorded == Some(r.id)
    ensures (side, r.id) in s'.db && s'.db[(side, r.id)] == s.db[(side, r.id)]
  {
    match side {
      case ProjectSide =>
        var ready := EnvironmentAppears(e, s, a, Saved(side, r), e);
        s' := ProjectBecomesActive(e, ready, a, r);
        LeadsOn(e, s, ready, s');
      case EnvironmentSide => s' := EnvironmentBecomesActive(e, s, a, r);
    }
  }

  /**
   * Edits of one record must not overlap: from every state with an unannounced edit, a second edit
   * of that record and a calm run that announces them in the opposite order end with the first one cached.
   */
  lemma EditUnderEditLeavesStaleRecord(e: Option<Id>, s: State, a: Tid, side: Side, r: Record, u: Tid, version: nat) returns (s': State)
    requires a in s.tasks && s.tasks[a] == Saved(side, r)
    requires u !in s.tasks && version != r.version
    ensures Leads(e, Apply(s, Save(u, side, r.id, version)), s')
    ensures Stale(s', side, r, Record(r.id, version))
  {
    var edited := SaveStep(s, u, side, r.id, version);
    var alone := OthersEnd(e, edited, {a});
    assert alone.tasks == map[a := Saved(side, r)];
    var active := BecomesActive(e, alone, a, side, r);
    LeadsOn(e, edited, alone, active);
    s' := AnnouncedLast(e, active, a, side, r, Record(r.id, version));
    LeadsOn(e, edited, active, s');
  }

  lemma AnnouncedLast(e: Option<Id>, s: State, a: Tid, side: Side, r: Record, stored: Record) returns (s': State)
    requires Alone(s, a, Saved(side, r)) && CellOf(s, side).recorded == Some(r.id)
    requires (side, r.id) in s.db && s.db[(side, r.id)] == stored && stored != r
    ensures Leads(e, s, s') && Stale(s', side, r, stored)
  {
    s' := CommitStep(s, a);
    LeadsHere(e, s);
    LeadsTo(e, s, s, Commit(a));
    assert s'.tasks == map[];
  }

  /**
   * A saved edit must be announced: if its call ends first, and no other edit of the active record
   * is unannounced, a calm run ends with the old record cached.
   */
  lemma AbandonedEditLeavesStaleRecord(e: Option<Id>, s: State, a: Tid, side: Side, r: Record, before: Record) returns (s': State)
    requires Coherent(s) && a in s.tasks && s.tasks[a] == Saved(side, r) && Current(s.db, side, r)
    requires forall t | t in s.tasks && t != a :: !Announces(s.tasks[t], side, r.id)
    requires CellOf(s, side).cached == Some(before) && before.id == r.id && before != r
    ensures Leads(e, Apply(s, Abandon(a)), s')
    ensures Stale(s', side, before, r)
  {
    var left := Done(s, a);
    assert CellOf(left, side) == CellOf(s, side) && CellOf(s, side).recorded == Some(r.id);
    assert Unannounced(left, {}, side);
    s' := OthersEnd(e, left, {});
    assert s'.tasks == map[];
  }

  /**
   * The context must not be restored under a look-up: an edit after the look-up, announced while
   * nothing is cached under the id, and a restore of that id let the fill cache the old record.
   */
  lemma RestoreUnderFillLeavesStaleRecord(e: Option<Id>, s: State, t: Tid, side: Side, r: Record, u: Tid, version: nat)
    returns (quiet: State, restoring: State, s': State)
    requires t in s.tasks && s.tasks[t] == Filled(side, r.id, r)
    requires u !in s.tasks && version != r.version
    ensures Leads(e, Apply(s, Save(u, side, r.id, version)), quiet)
    ensures t + 1 !in quiet.tasks && restoring == Apply(quiet, BeginRestore(t + 1, Some(r.id), Some(r.id)))
    ensures Leads(e, restoring, s') && Stale(s', side, r, Record(r.id, version))
  {
    var edited := SaveStep(s, u, side, r.id, version);
    quiet := OthersEnd(e, edited, {t});
    assert quiet.tasks == map[t := s.tasks[t]];
    restoring := Put(quiet, t + 1, Restoring(Some(r.id), Some(r.id)));
    LeadsHere(e, restoring);
    var restored := CommitStep(restoring, t + 1);
    LeadsTo(e, restoring, restoring, Commit(t + 1));
    s' := CommitStep(restored, t);
    LeadsTo(e, restoring, restored, Commit(t));
    assert s'.tasks == map[];
  }
}
