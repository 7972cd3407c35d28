/** Restoring a project backup under new identifiers. */
module Backup {
  import opened Wrappers

  type Id = nat

  const NIL: Id := 0

  /** `data` stands for the fields that are copied as they are. */
  datatype Project = Project(id: Id, data: string)
  datatype Folder = Folder(id: Id, projectId: Id, parentId: Option<Id>, data: string)
  datatype Endpoint = Endpoint(id: Id, projectId: Id, folderId: Option<Id>, data: string)
  datatype Environment = Environment(id: Id, projectId: Id, data: string)
  datatype MockRule = MockRule(id: Id, projectId: Id, endpointId: Option<Id>, data: string)
  datatype Example = Example(id: Id, endpointId: Id, data: string)
  datatype ProtoFile = ProtoFile(id: Id, projectId: Id, data: string)

  datatype Bundle = Bundle(
    project: Project, folders: seq<Folder>, endpoints: seq<Endpoint>, environments: seq<Environment>,
    mockRules: seq<MockRule>, responseExamples: seq<Example>, requestExamples: seq<Example>, protoFiles: seq<ProtoFile>)

  /** The source of random identifiers: no two draws agree and none is nil. */
  type Supply = nat -> Id

  ghost predicate IsFresh(supply: Supply) {
    (forall i: nat, j: nat :: i != j ==> supply(i) != supply(j)) && forall i: nat :: supply(i) != NIL
  }

  lemma SupplyExists()
    ensures exists supply: Supply :: IsFresh(supply)
  {
    assert IsFresh(i => i + 1);
  }

  // ---- the identifier map ----

  /** The project's identifier, then the folders', then the endpoints'. */
  ghost predicate Lists(ids: seq<Id>, project: Id, folders: seq<Folder>, endpoints: seq<Endpoint>) {
    && |ids| == 1 + |folders| + |endpoints| && ids[0] == project
    && (forall i | 0 <= i < |folders| :: ids[1 + i] == folders[i].id)
    && (forall j | 0 <= j < |endpoints| :: ids[1 + |folders| + j] == endpoints[j].id)
  }

  /** The identifiers the map is keyed by, in the order they are entered. */
  function Ids(file: Bundle): (ids: seq<Id>)
    ensures Lists(ids, file.project.id, file.folders, file.endpoints)
  {
    [file.project.id]
    + seq(|file.folders|, i requires 0 <= i < |file.folders| => file.folders[i].id)
    + seq(|file.endpoints|, j requires 0 <= j < |file.endpoints| => file.endpoints[j].id)
  }

  /** The map after the first n identifiers: the k-th gets the k-th draw, a repeated one the later. */
  function Assigned(supply: Supply, ids: seq<Id>, n: nat): map<Id, Id>
    requires n <= |ids|
  {
    if n == 0 then map[] else Assigned(supply, ids, n - 1)[ids[n - 1] := supply(n - 1)]
  }

  function Lookup(m: map<Id, Id>, id: Id, fallback: Id): Id {
    if id in m then m[id] else fallback
  }

  function LookupOption(m: map<Id, Id>, id: Option<Id>, fallback: Id): Option<Id> {
    match id case None => None case Some(x) => Some(Lookup(m, x, fallback))
  }

  // ---- the restored entities ----

  /** A folder restored when n identifiers, its own the last, are in the map. */
  function RestoredFolder(supply: Supply, ids: seq<Id>, n: nat, f: Folder): Folder
    requires 0 < n <= |ids|
  {
    f.(id := supply(n - 1), projectId := supply(0),
       parentId := LookupOption(Assigned(supply, ids, n), f.parentId, supply(0)))
  }

  function RestoredEndpoint(supply: Supply, ids: seq<Id>, n: nat, e: Endpoint): Endpoint
    requires 0 < n <= |ids|
  {
    e.(id := supply(n - 1), projectId := supply(0),
       folderId := LookupOption(Assigned(supply, ids, n), e.folderId, supply(n - 1)))
  }

  function RestoredFolders(supply: Supply, ids: seq<Id>, folders: seq<Folder>): (r: seq<Folder>)
    requires |folders| < |ids|
    ensures |r| == |folders| && forall i | 0 <= i < |r| :: r[i] == RestoredFolder(supply, ids, 2 + i, folders[i])
  {
    seq(|folders|, i requires 0 <= i < |folders| => RestoredFolder(supply, ids, 2 + i, folders[i]))
  }

  /** `from` is the number of identifiers in the map before the endpoints. */
  function RestoredEndpoints(supply: Supply, ids: seq<Id>, from: nat, endpoints: seq<Endpoint>): (r: seq<Endpoint>)
    requires from + |endpoints| <= |ids|
    ensures |r| == |endpoints|
    ensures forall j | 0 <= j < |r| :: r[j] == RestoredEndpoint(supply, ids, from + j + 1, endpoints[j])
  {
    seq(|endpoints|, j requires 0 <= j < |endpoints| => RestoredEndpoint(supply, ids, from + j + 1, endpoints[j]))
  }

  function RestoredEnvironments(supply: Supply, from: nat, environments: seq<Environment>): (r: seq<Environment>)
    ensures |r| == |environments|
  {
    seq(|environments|, i requires 0 <= i < |environments| =>
      environments[i].(id := supply(from + i), projectId := supply(0)))
  }

  function RestoredMockRules(supply: Supply, m: map<Id, Id>, from: nat, rules: seq<MockRule>): (r: seq<MockRule>)
    ensures |r| == |rules|
  {
    seq(|rules|, i requires 0 <= i < |rules| =>
      rules[i].(id := supply(from + i), projectId := supply(0), endpointId := LookupOption(m, rules[i].endpointId, NIL)))
  }

  function RestoredExamples(supply: Supply, m: map<Id, Id>, from: nat, examples: seq<Example>): (r: seq<Example>)
    ensures |r| == |examples|
  {
    seq(|examples|, i requires 0 <= i < |examples| =>
      examples[i].(id := supply(from + i), endpointId := Lookup(m, examples[i].endpointId, supply(0))))
  }

  function RestoredProtoFiles(supply: Supply, from: nat, files: seq<ProtoFile>): (r: seq<ProtoFile>)
    ensures |r| == |files|
  {
    seq(|files|, i requires 0 <= i < |files| => files[i].(id := supply(from + i), projectId := supply(0)))
  }

  /** The entities outside the tree, restored by the finished map after n draws. */
  function RestoredRest(supply: Supply, n: nat, m: map<Id, Id>, file: Bundle, tree: Bundle): Bundle {
    var rules := n + |file.environments|;
    var responses := rules + |file.mockRules|;
    var requests := responses + |file.responseExamples|;
    tree.(
      environments := RestoredEnvironments(supply, n, file.environments),
      mockRules := RestoredMockRules(supply, m, rules, file.mockRules),
      responseExamples := RestoredExamples(supply, m, responses, file.responseExamples),
      requestExamples := RestoredExamples(supply, m, requests, file.requestExamples),
      protoFiles := RestoredProtoFiles(supply, requests + |file.requestExamples|, file.protoFiles))
  }

  function Restored(supply: Supply, file: Bundle): Bundle {
    var ids := Ids(file);
    var tree := file.(
      project := file.project.(id := supply(0)),
      folders := RestoredFolders(supply, ids, file.folders),
      endpoints := RestoredEndpoints(supply, ids, 1 + |file.folders|, file.endpoints));
    RestoredRest(supply, |ids|, Assigned(supply, ids, |ids|), file, tree)
  }

  // ---- the loops ----

  /** The loop over the folders grows the map one identifier at a time. */
  method RestoreFolders(supply: Supply, ghost ids: seq<Id>, projectId: Id, newProjectId: Id, list: seq<Folder>)
    returns (m: map<Id, Id>, folders: seq<Folder>, draw: nat)
    requires |list| < |ids| && ids[0] == projectId && forall i | 0 <= i < |list| :: ids[1 + i] == list[i].id
    requires newProjectId == supply(0)
    ensures draw == 1 + |list| && m == Assigned(supply, ids, draw)
    ensures folders == RestoredFolders(supply, ids, list)
  {
    m, draw, folders := map[projectId := newProjectId], 1, [];
    for i := 0 to |list|
      invariant draw == 1 + i && m == Assigned(supply, ids, draw)
      invariant |folders| == i && forall k | 0 <= k < i :: folders[k] == RestoredFolder(supply, ids, 2 + k, list[k])
    {
      var f := list[i];
      m := m[f.id := supply(draw)];
      folders := folders + [f.(id := supply(draw), projectId := newProjectId,
                               parentId := LookupOption(m, f.parentId, newProjectId))];
      draw := draw + 1;
    }
  }

  method RestoreEndpoints(supply: Supply, ghost ids: seq<Id>, newProjectId: Id, m0: map<Id, Id>, from: nat,
                          list: seq<Endpoint>)
    returns (m: map<Id, Id>, endpoints: seq<Endpoint>, draw: nat)
    requires 0 < from && from + |list| == |ids| && forall j | 0 <= j < |list| :: ids[from + j] == list[j].id
    requires newProjectId == supply(0) && m0 == Assigned(supply, ids, from)
    ensures draw == |ids| && m == Assigned(supply, ids, |ids|)
    ensures endpoints == RestoredEndpoints(supply, ids, from, list)
  {
    m, draw, endpoints := m0, from, [];
    for j := 0 to |list|
      invariant draw == from + j && m == Assigned(supply, ids, draw)
      invariant |endpoints| == j
      invariant forall k | 0 <= k < j :: endpoints[k] == RestoredEndpoint(supply, ids, from + k + 1, list[k])
    {
      var e := list[j];
      m := m[e.id := supply(draw)];
      endpoints := endpoints + [e.(id := supply(draw), projectId := newProjectId,
                                   folderId := LookupOption(m, e.folderId, supply(draw)))];
      draw := draw + 1;
    }
  }

  method RestoreEnvironments(supply: Supply, newProjectId: Id, from: nat, list: seq<Environment>)
    returns (out: seq<Environment>, draw: nat)
    requires newProjectId == supply(0)
    ensures out == RestoredEnvironments(supply, from, list) && draw == from + |list|
  {
    out, draw := [], from;
    for i := 0 to |list|
      invariant draw == from + i && |out| == i
      invariant forall k | 0 <= k < i :: out[k] == RestoredEnvironments(supply, from, list)[k]
    {
      out := out + [list[i].(id := supply(draw), projectId := newProjectId)];
      draw := draw + 1;
    }
  }

  method RestoreMockRules(supply: Supply, m: map<Id, Id>, newProjectId: Id, from: nat, list: seq<MockRule>)
    returns (out: seq<MockRule>, draw: nat)
    requires newProjectId == supply(0)
    ensures out == RestoredMockRules(supply, m, from, list) && draw == from + |list|
  {
    out, draw := [], from;
    for i := 0 to |list|
      invariant draw == from + i && |out| == i
      invariant forall k | 0 <= k < i :: out[k] == RestoredMockRules(supply, m, from, list)[k]
    {
      var rule := list[i];
      out := out + [rule.(id := supply(draw), projectId := newProjectId,
                          endpointId := LookupOption(m, rule.endpointId, NIL))];
      draw := draw + 1;
    }
  }

  method RestoreExamples(supply: Supply, m: map<Id, Id>, newProjectId: Id, from: nat, list: seq<Example>)
    returns (out: seq<Example>, draw: nat)
    requires newProjectId == supply(0)
    ensures out == RestoredExamples(supply, m, from, list) && draw == from + |list|
  {
    out, draw := [], from;
    for i := 0 to |list|
      invariant draw == from + i && |out| == i
      invariant forall k | 0 <= k < i :: out[k] == RestoredExamples(supply, m, from, list)[k]
    {
      var e := list[i];
      out := out + [e.(id := supply(draw), endpointId := Lookup(m, e.endpointId, newProjectId))];
      draw := draw + 1;
    }
  }

  method RestoreProtoFiles(supply: Supply, newProjectId: Id, from: nat, list: seq<ProtoFile>)
    returns (out: seq<ProtoFile>)
    requires newProjectId == supply(0)
    ensures out == RestoredProtoFiles(supply, from, list)
  {
    out := [];
    for i := 0 to |list|
      invariant |out| == i && forall k | 0 <= k < i :: out[k] == RestoredProtoFiles(supply, from, list)[k]
    {
      out := out + [list[i].(id := supply(from + i), projectId := newProjectId)];
    }
  }

  method RestoreTree(supply: Supply, ghost ids: seq<Id>, file: Bundle, newProjectId: Id)
    returns (m: map<Id, Id>, folders: seq<Folder>, endpoints: seq<Endpoint>, draw: nat)
    requires newProjectId == supply(0) && Lists(ids, file.project.id, file.folders, file.endpoints)
    ensures draw == |ids| && m == Assigned(supply, ids, |ids|)
    ensures folders == RestoredFolders(supply, ids, file.folders)
    ensures endpoints == RestoredEndpoints(supply, ids, 1 + |file.folders|, file.endpoints)
  {
    m, folders, draw := RestoreFolders(supply, ids, file.project.id, newProjectId, file.folders);
    m, endpoints, draw := RestoreEndpoints(supply, ids, newProjectId, m, draw, file.endpoints);
  }

  /** Everything after the tree, by the finished map. */
  method RestoreRest(supply: Supply, ids: nat, m: map<Id, Id>, file: Bundle, tree: Bundle) returns (r: Bundle)
    ensures r == RestoredRest(supply, ids, m, file, tree)
  {
    var newProjectId := supply(0);
    var environments, draw := RestoreEnvironments(supply, newProjectId, ids, file.environments);
    var mockRules, responses, requests;
    mockRules, draw := RestoreMockRules(supply, m, newProjectId, draw, file.mockRules);
    responses, draw := RestoreExamples(supply, m, newProjectId, draw, file.responseExamples);
    requests, draw := RestoreExamples(supply, m, newProjectId, draw, file.requestExamples);
    var protoFiles := RestoreProtoFiles(supply, newProjectId, draw, file.protoFiles);
    r := tree.(environments := environments, mockRules := mockRules, responseExamples := responses,
               requestExamples := requests, protoFiles := protoFiles);
  }

  method RestoreBackup(supply: Supply, file: Bundle) returns (r: Bundle)
    ensures r == Restored(supply, file)
  {
    var newProjectId := supply(0);
    var m, folders, endpoints, draw := RestoreTree(supply, Ids(file), file, newProjectId);
    var tree := file.(project := file.project.(id := newProjectId), folders := folders, endpoints := endpoints);
    r := RestoreRest(supply, draw, m, file, tree);
  }

  // ---- every identifier is new ----

  ghost predicate NewOrNil(supply: Supply, id: Id) {
    id == NIL || exists k: nat :: id == supply(k)
  }

  ghost predicate OptionNewOrNil(supply: Supply, id: Option<Id>) {
    id.Some? ==> NewOrNil(supply, id.value)
  }

  lemma {:induction false} AssignedValues(supply: Supply, ids: seq<Id>, n: nat, id: Id)
    requires n <= |ids| && id in Assigned(supply, ids, n)
    ensures NewOrNil(supply, Assigned(supply, ids, n)[id])
  {
    if ids[n - 1] != id {
      AssignedValues(supply, ids, n - 1, id);
    }
  }

  lemma LookupIsNew(supply: Supply, ids: seq<Id>, n: nat, id: Id, fallback: Id)
    requires n <= |ids| && NewOrNil(supply, fallback)
    ensures NewOrNil(supply, Lookup(Assigned(supply, ids, n), id, fallback))
  {
    if id in Assigned(supply, ids, n) {
      AssignedValues(supply, ids, n, id);
    }
  }

  ghost predicate NoOldIds(supply: Supply, b: Bundle) {
    NoOldTree(supply, b) && NoOldHolders(supply, b)
  }

  ghost predicate NoOldTree(supply: Supply, b: Bundle) {
    && NewOrNil(supply, b.project.id)
    && (forall f | f in b.folders ::
          NewOrNil(supply, f.id) && NewOrNil(supply, f.projectId) && OptionNewOrNil(supply, f.parentId))
    && (forall e | e in b.endpoints ::
          NewOrNil(supply, e.id) && NewOrNil(supply, e.projectId) && OptionNewOrNil(supply, e.folderId))
  }

  ghost predicate NoOldHolders(supply: Supply, b: Bundle) {
    && (forall e | e in b.environments :: NewOrNil(supply, e.id) && NewOrNil(supply, e.projectId))
    && (forall r | r in b.mockRules ::
          NewOrNil(supply, r.id) && NewOrNil(supply, r.projectId) && OptionNewOrNil(supply, r.endpointId))
    && (forall e | e in b.responseExamples + b.requestExamples ::
          NewOrNil(supply, e.id) && NewOrNil(supply, e.endpointId))
    && (forall p | p in b.protoFiles :: NewOrNil(supply, p.id) && NewOrNil(supply, p.projectId))
  }

  /** Whatever the file holds, repeated or dangling identifiers included, nothing in the result carries an old one. */
  lemma EveryIdIsNew(supply: Supply, file: Bundle)
    ensures NoOldIds(supply, Restored(supply, file))
  {
    TreeIsNew(supply, file);
    HoldersAreNew(supply, file);
  }

  lemma LookupsAreNew(supply: Supply, ids: seq<Id>)
    ensures forall n: nat, id: Id, fallback: Id | n <= |ids| && NewOrNil(supply, fallback) ::
      NewOrNil(supply, Lookup(Assigned(supply, ids, n), id, fallback))
  {
    forall n: nat, id: Id, fallback: Id | n <= |ids| && NewOrNil(supply, fallback)
      ensures NewOrNil(supply, Lookup(Assigned(supply, ids, n), id, fallback))
    {
      LookupIsNew(supply, ids, n, id, fallback);
    }
  }

  lemma TreeIsNew(supply: Supply, file: Bundle)
    ensures NoOldTree(supply, Restored(supply, file))
  {
    LookupsAreNew(supply, Ids(file));
  }

  lemma HoldersAreNew(supply: Supply, file: Bundle)
    ensures NoOldHolders(supply, Restored(supply, file))
  {
    LookupsAreNew(supply, Ids(file));
  }

  // ---- the restored graph ----

  ghost predicate Distinct(ids: seq<Id>) {
    forall i, j | 0 <= i < j < |ids| :: ids[i] != ids[j]
  }

  /** One of the first n identifiers. */
  ghost predicate InFirst(ids: seq<Id>, n: nat, id: Id)
    requires n <= |ids|
  {
    exists k :: 0 <= k < n && ids[k] == id
  }

  /** The map leads the k-th identifier to the k-th draw, for the first n and no others. */
  ghost predicate Positional(m: map<Id, Id>, supply: Supply, ids: seq<Id>, n: nat)
    requires n <= |ids|
  {
    && (forall k | 0 <= k < n :: ids[k] in m && m[ids[k]] == supply(k))
    && (forall id | id in m :: InFirst(ids, n, id))
  }

  predicate Grows(holds: nat -> bool, k: nat) {
    holds(k) ==> holds(k + 1)
  }

  lemma {:induction false} ByCounting(holds: nat -> bool, n: nat)
    requires holds(0) && forall k: nat | k < n :: Grows(holds, k)
    ensures holds(n)
  {
    if n > 0 {
      ByCounting(holds, n - 1);
      assert Grows(holds, n - 1);
    }
  }

  ghost function PositionalUpTo(supply: Supply, ids: seq<Id>): nat -> bool {
    (n: nat) => n <= |ids| && Positional(Assigned(supply, ids, n), supply, ids, n)
  }

  lemma PositionalGrows(supply: Supply, ids: seq<Id>, k: nat)
    requires Distinct(ids) && k < |ids|
    ensures Grows(PositionalUpTo(supply, ids), k)
  {
    if PositionalUpTo(supply, ids)(k) {
      PositionalSnoc(Assigned(supply, ids, k), Assigned(supply, ids, k + 1), supply, ids, k);
    }
  }

  lemma AssignedIsPositional(supply: Supply, ids: seq<Id>, n: nat)
    requires Distinct(ids) && n <= |ids|
    ensures Positional(Assigned(supply, ids, n), supply, ids, n)
  {
    forall k: nat | k < n ensures Grows(PositionalUpTo(supply, ids), k) {
      PositionalGrows(supply, ids, k);
    }
    ByCounting(PositionalUpTo(supply, ids), n);
  }

  lemma PositionalSnoc(m: map<Id, Id>, more: map<Id, Id>, supply: Supply, ids: seq<Id>, n: nat)
    requires Distinct(ids) && n < |ids| && Positional(m, supply, ids, n) && more == m[ids[n] := supply(n)]
    ensures Positional(more, supply, ids, n + 1)
  {
    forall id | id in more ensures InFirst(ids, n + 1, id) {
      assert id != ids[n] ==> InFirst(ids, n, id);
    }
  }

  lemma PositionalIsUnique(m: map<Id, Id>, m': map<Id, Id>, supply: Supply, ids: seq<Id>)
    requires Positional(m, supply, ids, |ids|) && Positional(m', supply, ids, |ids|)
    ensures m == m'
  {
    forall id | id in m ensures id in m' && m'[id] == m[id] {
      assert InFirst(ids, |ids|, id);
    }
    forall id | id in m' ensures id in m {
      assert InFirst(ids, |ids|, id);
    }
  }

  ghost predicate Injective(m: map<Id, Id>) {
    forall x, y | x in m && y in m :: m[x] == m[y] ==> x == y
  }

  /** The map relates exactly the listed identifiers. */
  ghost predicate Covers(m: map<Id, Id>, ids: seq<Id>) {
    forall id :: id in m <==> InFirst(ids, |ids|, id)
  }

  lemma PositionalIsRenaming(m: map<Id, Id>, supply: Supply, ids: seq<Id>)
    requires IsFresh(supply) && Positional(m, supply, ids, |ids|)
    ensures Injective(m) && Covers(m, ids)
  {
    forall x, y | x in m && y in m && m[x] == m[y] ensures x == y {
      assert InFirst(ids, |ids|, x) && InFirst(ids, |ids|, y);
      var i :| 0 <= i < |ids| && ids[i] == x;
      var j :| 0 <= j < |ids| && ids[j] == y;
    }
  }

  /** The reference on the right is the image of the one on the left. */
  predicate Image(m: map<Id, Id>, old_: Option<Id>, new_: Option<Id>) {
    match old_ case None => new_ == None case Some(x) => x in m && new_ == Some(m[x])
  }

  /** The reference, if any, names one of the first n identifiers. */
  ghost predicate Known(ids: seq<Id>, n: nat, id: Option<Id>)
    requires n <= |ids|
  {
    id.Some? ==> InFirst(ids, n, id.value)
  }

  /** A look-up made when n identifiers are known gives the image exactly when the reference is among them. */
  lemma LookupIsImage(m: map<Id, Id>, known: map<Id, Id>, supply: Supply, ids: seq<Id>, n: nat,
                      id: Option<Id>, fallback: Id)
    requires n <= |ids| && Positional(m, supply, ids, |ids|) && Positional(known, supply, ids, n)
    requires forall k | n <= k < |ids| :: fallback != supply(k)
    ensures Image(m, id, LookupOption(known, id, fallback)) <==> Known(ids, n, id)
  {
    if id.Some? {
      var x := id.value;
      if InFirst(ids, n, x) {
        var k :| 0 <= k < n && ids[k] == x;
      } else if x in m {
        assert InFirst(ids, |ids|, x);
        var k :| 0 <= k < |ids| && ids[k] == x;
        assert m[x] == supply(k);
      }
    }
  }

  // ---- what it means to carry one project onto another ----

  predicate CarriesFolder(m: map<Id, Id>, a: Folder, b: Folder, projectId: Id) {
    Image(m, Some(a.id), Some(b.id)) && Image(m, a.parentId, b.parentId) && b.projectId == projectId && b.data == a.data
  }

  predicate CarriesEndpoint(m: map<Id, Id>, a: Endpoint, b: Endpoint, projectId: Id) {
    Image(m, Some(a.id), Some(b.id)) && Image(m, a.folderId, b.folderId) && b.projectId == projectId && b.data == a.data
  }

  ghost predicate CarriesFolders(m: map<Id, Id>, a: seq<Folder>, b: seq<Folder>, projectId: Id) {
    |b| == |a| && forall i | 0 <= i < |a| :: CarriesFolder(m, a[i], b[i], projectId)
  }

  ghost predicate CarriesEndpoints(m: map<Id, Id>, a: seq<Endpoint>, b: seq<Endpoint>, projectId: Id) {
    |b| == |a| && forall i | 0 <= i < |a| :: CarriesEndpoint(m, a[i], b[i], projectId)
  }

  ghost predicate CarriesEnvironments(a: seq<Environment>, b: seq<Environment>, projectId: Id) {
    |b| == |a| && forall i | 0 <= i < |a| :: b[i].projectId == projectId && b[i].data == a[i].data
  }

  ghost predicate CarriesProtoFiles(a: seq<ProtoFile>, b: seq<ProtoFile>, projectId: Id) {
    |b| == |a| && forall i | 0 <= i < |a| :: b[i].projectId == projectId && b[i].data == a[i].data
  }

  ghost predicate CarriesRules(m: map<Id, Id>, a: seq<MockRule>, b: seq<MockRule>, projectId: Id) {
    |b| == |a| && forall i | 0 <= i < |a| ::
      Image(m, a[i].endpointId, b[i].endpointId) && b[i].projectId == projectId && b[i].data == a[i].data
  }

  ghost predicate CarriesExamples(m: map<Id, Id>, a: seq<Example>, b: seq<Example>) {
    |b| == |a| && forall i | 0 <= i < |a| :: Image(m, Some(a[i].endpointId), Some(b[i].endpointId)) && b[i].data == a[i].data
  }

  /** The map carries the first graph onto the second, entity by entity: references go to their images,
      everything is placed in the new project, and all other fields are unchanged. */
  ghost predicate Carries(m: map<Id, Id>, a: Bundle, b: Bundle) {
    CarriesTreeOf(m, a, b) && CarriesHoldersOf(m, a, b)
  }

  ghost predicate CarriesTreeOf(m: map<Id, Id>, a: Bundle, b: Bundle) {
    && Image(m, Some(a.project.id), Some(b.project.id)) && b.project.data == a.project.data
    && CarriesFolders(m, a.folders, b.folders, b.project.id)
    && CarriesEndpoints(m, a.endpoints, b.endpoints, b.project.id)
  }

  ghost predicate CarriesHoldersOf(m: map<Id, Id>, a: Bundle, b: Bundle) {
    && CarriesEnvironments(a.environments, b.environments, b.project.id)
    && CarriesProtoFiles(a.protoFiles, b.protoFiles, b.project.id)
    && CarriesRules(m, a.mockRules, b.mockRules, b.project.id)
    && CarriesExamples(m, a.responseExamples, b.responseExamples)
    && CarriesExamples(m, a.requestExamples, b.requestExamples)
  }

  // ---- when every reference finds its image ----

  ghost predicate FoldersKnown(ids: seq<Id>, a: seq<Folder>)
    requires |a| < |ids|
  {
    forall i | 0 <= i < |a| :: Known(ids, 2 + i, a[i].parentId)
  }

  ghost predicate EndpointsKnown(ids: seq<Id>, from: nat, a: seq<Endpoint>)
    requires from + |a| <= |ids|
  {
    forall j | 0 <= j < |a| :: Known(ids, from + j + 1, a[j].folderId)
  }

  ghost predicate RulesKnown(ids: seq<Id>, a: seq<MockRule>) {
    forall i | 0 <= i < |a| :: Known(ids, |ids|, a[i].endpointId)
  }

  ghost predicate ExamplesKnown(ids: seq<Id>, a: seq<Example>) {
    forall i | 0 <= i < |a| :: Known(ids, |ids|, Some(a[i].endpointId))
  }

  /** Every reference is to something listed before its holder, or to the holder itself. */
  ghost predicate Resolvable(file: Bundle) {
    var ids := Ids(file);
    && FoldersKnown(ids, file.folders) && EndpointsKnown(ids, 1 + |file.folders|, file.endpoints)
    && RulesKnown(ids, file.mockRules)
    && ExamplesKnown(ids, file.responseExamples) && ExamplesKnown(ids, file.requestExamples)
  }

  lemma FoldersCarried(m: map<Id, Id>, supply: Supply, ids: seq<Id>, a: seq<Folder>)
    requires IsFresh(supply) && Distinct(ids) && Positional(m, supply, ids, |ids|)
    requires |a| < |ids| && forall i | 0 <= i < |a| :: ids[1 + i] == a[i].id
    ensures CarriesFolders(m, a, RestoredFolders(supply, ids, a), supply(0)) <==> FoldersKnown(ids, a)
  {
    forall i | 0 <= i < |a|
      ensures CarriesFolder(m, a[i], RestoredFolder(supply, ids, 2 + i, a[i]), supply(0)) <==> Known(ids, 2 + i, a[i].parentId)
    {
      FolderCarried(m, supply, ids, 2 + i, a[i]);
    }
  }

  lemma FolderCarried(m: map<Id, Id>, supply: Supply, ids: seq<Id>, n: nat, f: Folder)
    requires IsFresh(supply) && Distinct(ids) && Positional(m, supply, ids, |ids|)
    requires 1 < n <= |ids| && ids[n - 1] == f.id
    ensures CarriesFolder(m, f, RestoredFolder(supply, ids, n, f), supply(0)) <==> Known(ids, n, f.parentId)
  {
    AssignedIsPositional(supply, ids, n);
    LookupIsImage(m, Assigned(supply, ids, n), supply, ids, n, f.parentId, supply(0));
    assert ids[n - 1] in m;
  }

  lemma EndpointsCarried(m: map<Id, Id>, supply: Supply, ids: seq<Id>, from: nat, a: seq<Endpoint>)
    requires IsFresh(supply) && Distinct(ids) && Positional(m, supply, ids, |ids|)
    requires 0 < from && from + |a| <= |ids| && forall j | 0 <= j < |a| :: ids[from + j] == a[j].id
    ensures CarriesEndpoints(m, a, RestoredEndpoints(supply, ids, from, a), supply(0)) <==> EndpointsKnown(ids, from, a)
  {
    forall j | 0 <= j < |a|
      ensures CarriesEndpoint(m, a[j], RestoredEndpoint(supply, ids, from + j + 1, a[j]), supply(0))
         <==> Known(ids, from + j + 1, a[j].folderId)
    {
      EndpointCarried(m, supply, ids, from + j + 1, a[j]);
    }
  }

  lemma EndpointCarried(m: map<Id, Id>, supply: Supply, ids: seq<Id>, n: nat, e: Endpoint)
    requires IsFresh(supply) && Distinct(ids) && Positional(m, supply, ids, |ids|)
    requires 0 < n <= |ids| && ids[n - 1] == e.id
    ensures CarriesEndpoint(m, e, RestoredEndpoint(supply, ids, n, e), supply(0)) <==> Known(ids, n, e.folderId)
  {
    AssignedIsPositional(supply, ids, n);
    LookupIsImage(m, Assigned(supply, ids, n), supply, ids, n, e.folderId, supply(n - 1));
    assert ids[n - 1] in m;
  }

  lemma RulesCarried(m: map<Id, Id>, supply: Supply, ids: seq<Id>, from: nat, a: seq<MockRule>)
    requires IsFresh(supply) && Positional(m, supply, ids, |ids|)
    ensures CarriesRules(m, a, RestoredMockRules(supply, m, from, a), supply(0)) <==> RulesKnown(ids, a)
  {
    var b := RestoredMockRules(supply, m, from, a);
    forall i | 0 <= i < |a| ensures Image(m, a[i].endpointId, b[i].endpointId) <==> Known(ids, |ids|, a[i].endpointId) {
      LookupIsImage(m, m, supply, ids, |ids|, a[i].endpointId, NIL);
    }
  }

  lemma ExamplesCarried(m: map<Id, Id>, supply: Supply, ids: seq<Id>, from: nat, a: seq<Example>)
    requires Positional(m, supply, ids, |ids|)
    ensures CarriesExamples(m, a, RestoredExamples(supply, m, from, a)) <==> ExamplesKnown(ids, a)
  {
    var b := RestoredExamples(supply, m, from, a);
    forall i | 0 <= i < |a|
      ensures Image(m, Some(a[i].endpointId), Some(b[i].endpointId)) <==> Known(ids, |ids|, Some(a[i].endpointId))
    {
      LookupIsImage(m, m, supply, ids, |ids|, Some(a[i].endpointId), supply(0));
    }
  }

  /** A map that carries the tree onto the restored one is the one the restore built. */
  lemma CarrierIsPositional(m: map<Id, Id>, supply: Supply, ids: seq<Id>, project: Id, a: seq<Folder>, e: seq<Endpoint>)
    requires Lists(ids, project, a, e) && Covers(m, ids) && Image(m, Some(project), Some(supply(0)))
    requires CarriesFolders(m, a, RestoredFolders(supply, ids, a), supply(0))
    requires CarriesEndpoints(m, e, RestoredEndpoints(supply, ids, 1 + |a|, e), supply(0))
    ensures Positional(m, supply, ids, |ids|)
  {
    forall k | 0 <= k < |ids| ensures ids[k] in m && m[ids[k]] == supply(k) {
      if 1 <= k <= |a| {
        assert CarriesFolder(m, a[k - 1], RestoredFolder(supply, ids, k + 1, a[k - 1]), supply(0));
      } else if k > |a| {
        var j := k - 1 - |a|;
        assert ids[1 + |a| + j] == e[j].id;
        assert CarriesEndpoint(m, e[j], RestoredEndpoint(supply, ids, k + 1, e[j]), supply(0));
      }
    }
  }

  /** Carrying a file onto its restoration, list by list. */
  ghost predicate CarriesTree(m: map<Id, Id>, supply: Supply, ids: seq<Id>, file: Bundle)
    requires |file.folders| + |file.endpoints| < |ids|
  {
    && Image(m, Some(file.project.id), Some(supply(0)))
    && CarriesFolders(m, file.folders, RestoredFolders(supply, ids, file.folders), supply(0))
    && CarriesEndpoints(m, file.endpoints, RestoredEndpoints(supply, ids, 1 + |file.folders|, file.endpoints), supply(0))
  }

  ghost predicate CarriesHolders(m: map<Id, Id>, supply: Supply, n: nat, known: map<Id, Id>, file: Bundle) {
    var responses := n + |file.environments| + |file.mockRules|;
    && CarriesEnvironments(file.environments, RestoredEnvironments(supply, n, file.environments), supply(0))
    && CarriesProtoFiles(file.protoFiles,
                         RestoredProtoFiles(supply, responses + |file.responseExamples| + |file.requestExamples|, file.protoFiles),
                         supply(0))
    && CarriesRules(m, file.mockRules, RestoredMockRules(supply, known, n + |file.environments|, file.mockRules), supply(0))
    && CarriesExamples(m, file.responseExamples, RestoredExamples(supply, known, responses, file.responseExamples))
    && CarriesExamples(m, file.requestExamples,
                       RestoredExamples(supply, known, responses + |file.responseExamples|, file.requestExamples))
  }

  ghost predicate CarriesLists(m: map<Id, Id>, supply: Supply, ids: seq<Id>, known: map<Id, Id>, file: Bundle)
    requires |file.folders| + |file.endpoints| < |ids|
  {
    CarriesTree(m, supply, ids, file) && CarriesHolders(m, supply, |ids|, known, file)
  }

  lemma CarriesByLists(m: map<Id, Id>, supply: Supply, file: Bundle)
    ensures var ids := Ids(file);
      Carries(m, file, Restored(supply, file)) <==> CarriesLists(m, supply, ids, Assigned(supply, ids, |ids|), file)
  {
    TreeByLists(m, supply, file);
    HoldersByLists(m, supply, file);
  }

  lemma TreeByLists(m: map<Id, Id>, supply: Supply, file: Bundle)
    ensures CarriesTreeOf(m, file, Restored(supply, file)) <==> CarriesTree(m, supply, Ids(file), file)
  {
  }

  lemma HoldersByLists(m: map<Id, Id>, supply: Supply, file: Bundle)
    ensures CarriesHoldersOf(m, file, Restored(supply, file))
      <==> CarriesHolders(m, supply, |Ids(file)|, Assigned(supply, Ids(file), |Ids(file)|), file)
  {
  }

  lemma TreeCarried(m: map<Id, Id>, supply: Supply, ids: seq<Id>, file: Bundle)
    requires IsFresh(supply) && Distinct(ids) && Lists(ids, file.project.id, file.folders, file.endpoints)
    requires Positional(m, supply, ids, |ids|)
    ensures CarriesTree(m, supply, ids, file) <==>
      FoldersKnown(ids, file.folders) && EndpointsKnown(ids, 1 + |file.folders|, file.endpoints)
  {
    FoldersCarried(m, supply, ids, file.folders);
    EndpointsCarried(m, supply, ids, 1 + |file.folders|, file.endpoints);
    assert ids[0] in m;
  }

  lemma HoldersCarried(m: map<Id, Id>, supply: Supply, ids: seq<Id>, file: Bundle)
    requires IsFresh(supply) && Positional(m, supply, ids, |ids|)
    ensures CarriesHolders(m, supply, |ids|, m, file) <==>
      && RulesKnown(ids, file.mockRules)
      && ExamplesKnown(ids, file.responseExamples) && ExamplesKnown(ids, file.requestExamples)
  {
    var responses := |ids| + |file.environments| + |file.mockRules|;
    PlainHoldersCarried(supply, |ids|, responses + |file.responseExamples| + |file.requestExamples|, file);
    RulesCarried(m, supply, ids, |ids| + |file.environments|, file.mockRules);
    ExamplesCarried(m, supply, ids, responses, file.responseExamples);
    ExamplesCarried(m, supply, ids, responses + |file.responseExamples|, file.requestExamples);
  }

  /** What refers to the project alone is carried whatever it holds. */
  lemma PlainHoldersCarried(supply: Supply, from: nat, later: nat, file: Bundle)
    ensures CarriesEnvironments(file.environments, RestoredEnvironments(supply, from, file.environments), supply(0))
    ensures CarriesProtoFiles(file.protoFiles, RestoredProtoFiles(supply, later, file.protoFiles), supply(0))
  {
  }

  lemma CarrierIsAssigned(m: map<Id, Id>, m': map<Id, Id>, supply: Supply, ids: seq<Id>, file: Bundle)
    requires Lists(ids, file.project.id, file.folders, file.endpoints) && Positional(m, supply, ids, |ids|)
    requires Covers(m', ids) && CarriesLists(m', supply, ids, m, file)
    ensures m' == m
  {
    CarrierIsPositional(m', supply, ids, file.project.id, file.folders, file.endpoints);
    PositionalIsUnique(m, m', supply, ids);
  }

  /**
   * With distinct identifiers the restored project is the old one under an injective renaming of
   * exactly its project, folder and endpoint identifiers, if and only if every reference is to
   * something listed before its holder (or to the holder itself).
   */
  lemma RestoreIsIsomorphism(supply: Supply, file: Bundle)
    requires IsFresh(supply) && Distinct(Ids(file))
    ensures (exists m :: Injective(m) && Covers(m, Ids(file)) && Carries(m, file, Restored(supply, file)))
       <==> Resolvable(file)
  {
    var ids := Ids(file);
    var m := Assigned(supply, ids, |ids|);
    AssignedIsPositional(supply, ids, |ids|);
    PositionalIsRenaming(m, supply, ids);
    TreeCarried(m, supply, ids, file);
    HoldersCarried(m, supply, ids, file);
    CarriesByLists(m, supply, file);
    forall m' | Covers(m', ids) && Carries(m', file, Restored(supply, file)) ensures m' == m {
      CarriesByLists(m', supply, file);
      CarrierIsAssigned(m, m', supply, ids, file);
    }
  }
}
