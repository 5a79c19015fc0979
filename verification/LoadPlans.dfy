/** Load plans and their validation (initialization.py, LoadTask to validate_plan). */
module LoadPlans {
  import opened Wrappers
  import opened Collections

  const MAX_BIGINT := 0x7fff_ffff_ffff_ffff

  /** count is None for one unbatched statement. */
  datatype LoadTask = LoadTask(
    name: string,
    sql: string,
    count: Option<int>,
    dependsOn: seq<string>,
    maxRowsPerKey: int)

  datatype LoadPlan = LoadPlan(
    schemas: seq<string>,
    schemaSql: string,
    data: seq<LoadTask>,
    indexes: seq<LoadTask>,
    constraints: seq<LoadTask>)

  datatype PlanError =
    | NoSchemasOrDdl
    | SystemSchema
    | DuplicateNames
    | InvalidTask
    | InvalidCount
    | UnknownDependency
    | DependencyCycle

  function Deps(t: LoadTask): set<string> {
    Elements(t.dependsOn)
  }

  function TaskNames(tasks: seq<LoadTask>): (names: seq<string>)
    ensures |names| == |tasks| && forall i :: 0 <= i < |tasks| ==> names[i] == tasks[i].name
  {
    seq(|tasks|, i requires 0 <= i < |tasks| => tasks[i].name)
  }

  function Names(tasks: seq<LoadTask>): set<string> {
    Elements(TaskNames(tasks))
  }

  /** The characters that str.strip removes. */
  predicate IsSpace(c: char) {
    c in " \t\n\r\U{B}\U{C}\U{1C}\U{1D}\U{1E}\U{1F}\U{85}\U{A0}\U{1680}" || '\U{2000}' <= c <= '\U{200A}'
      || c in "\U{2028}\U{2029}\U{202F}\U{205F}\U{3000}"
  }

  predicate Blank(s: string) {
    forall i :: 0 <= i < |s| ==> IsSpace(s[i])
  }

  predicate HasPrefix(s: string, prefix: string) {
    |prefix| <= |s| && s[..|prefix|] == prefix
  }

  predicate UserSchema(s: string) {
    s != "" && !HasPrefix(s, "pg_") && s != "information_schema"
  }

  predicate CountInRange(t: LoadTask) {
    t.count.Some? ==> 0 <= t.count.value <= MAX_BIGINT
  }

  predicate WellFormedTask(t: LoadTask) {
    t.name != "" && !Blank(t.sql) && t.maxRowsPerKey >= 1
  }

  predicate UniqueNames(tasks: seq<LoadTask>) {
    forall i, j :: 0 <= i < j < |tasks| ==> tasks[i].name != tasks[j].name
  }

  predicate KnownDeps(tasks: seq<LoadTask>) {
    forall t :: t in tasks ==> Deps(t) <= Names(tasks)
  }

  predicate WellFormed(tasks: seq<LoadTask>) {
    && UniqueNames(tasks)
    && KnownDeps(tasks)
    && forall t :: t in tasks ==> WellFormedTask(t) && CountInRange(t)
  }

  /** Every dependency has a strictly smaller rank than the task that names it. */
  ghost predicate Ranked(tasks: seq<LoadTask>, rank: map<string, nat>) {
    && rank.Keys == Names(tasks)
    && forall t, d :: t in tasks && d in Deps(t) && d in rank && t.name in rank ==> rank[d] < rank[t.name]
  }

  ghost predicate Acyclic(tasks: seq<LoadTask>) {
    exists rank :: Ranked(tasks, rank)
  }

  ghost predicate Accepted(tasks: seq<LoadTask>) {
    WellFormed(tasks) && Acyclic(tasks)
  }

  lemma UniqueNamesBySize(tasks: seq<LoadTask>)
    ensures |Names(tasks)| <= |tasks|
    ensures |Names(tasks)| == |tasks| <==> UniqueNames(tasks)
  {
    DistinctSize(TaskNames(tasks));
  }

  /** A nonempty set of ranked names has one of least rank. */
  lemma {:induction false} LeastRank(names: set<string>, rank: map<string, nat>) returns (least: string)
    requires names != {} && names <= rank.Keys
    ensures least in names && forall n :: n in names ==> rank[least] <= rank[n]
  {
    var n :| n in names;
    if names == {n} {
      least := n;
    } else {
      var other := LeastRank(names - {n}, rank);
      least := if rank[n] <= rank[other] then n else other;
      assert names == (names - {n}) + {n};
    }
  }

  /** In an accepted phase some undone task has all its dependencies done, while any task is undone. */
  lemma SomethingIsReady(tasks: seq<LoadTask>, done: set<string>) returns (i: nat)
    requires KnownDeps(tasks) && Acyclic(tasks)
    requires done <= Names(tasks) && done != Names(tasks)
    ensures i < |tasks| && tasks[i].name !in done && Deps(tasks[i]) <= done
  {
    var rank :| Ranked(tasks, rank);
    var rest := Names(tasks) - done;
    var missing :| missing in Names(tasks) && missing !in done;
    assert missing in rest;
    var least := LeastRank(rest, rank);
    i :| 0 <= i < |tasks| && TaskNames(tasks)[i] == least;
    forall d | d in Deps(tasks[i]) ensures d in done {
      assert tasks[i] in tasks && rank[d] < rank[least];
    }
  }

  /** With unique names, a name determines its task. */
  lemma NamesIdentify(tasks: seq<LoadTask>)
    requires UniqueNames(tasks)
    ensures forall t, u :: t in tasks && u in tasks && t.name == u.name ==> t == u
  {
    forall t, u | t in tasks && u in tasks && t.name == u.name ensures t == u {
      var i :| 0 <= i < |tasks| && tasks[i] == t;
      var j :| 0 <= j < |tasks| && tasks[j] == u;
      if i < j {
      } else if j < i {
      }
    }
  }

  /** The field checks of one phase, in the order of the source's loop over its tasks. */
  method CheckTasks(tasks: seq<LoadTask>) returns (error: Option<PlanError>)
    ensures error.None? <==> KnownDeps(tasks) && forall t :: t in tasks ==> WellFormedTask(t) && CountInRange(t)
    ensures error.Some? ==> error.value in {InvalidTask, InvalidCount, UnknownDependency}
  {
    var i := 0;
    while i < |tasks|
      invariant 0 <= i <= |tasks|
      invariant forall j :: 0 <= j < i ==>
        WellFormedTask(tasks[j]) && CountInRange(tasks[j]) && Deps(tasks[j]) <= Names(tasks)
    {
      if !WellFormedTask(tasks[i]) {
        return Some(InvalidTask);
      }
      if !CountInRange(tasks[i]) {
        return Some(InvalidCount);
      }
      if !(Deps(tasks[i]) <= Names(tasks)) {
        return Some(UnknownDependency);
      }
      i := i + 1;
    }
    error := None;
  }

  /** The names whose dependencies are all done, minus those already done. */
  function ReadyNames(tasks: seq<LoadTask>, done: set<string>): (ready: set<string>)
    ensures ready <= Names(tasks) && ready !! done
  {
    var ready := (set t | t in tasks && Deps(t) <= done :: t.name) - done;
    assert forall i :: 0 <= i < |tasks| ==> TaskNames(tasks)[i] in Names(tasks);
    ready
  }

  /** The layers found so far: done is closed under dependencies and ranked. */
  ghost predicate Layered(tasks: seq<LoadTask>, done: set<string>, rank: map<string, nat>, layer: nat) {
    && done <= Names(tasks) && rank.Keys == done
    && (forall n :: n in done ==> rank[n] < layer)
    && forall t, d :: t in tasks && t.name in done && d in Deps(t) ==> d in done && rank[d] < rank[t.name]
  }

  lemma NextLayer(tasks: seq<LoadTask>, done: set<string>, rank: map<string, nat>, layer: nat)
    requires UniqueNames(tasks) && Layered(tasks, done, rank, layer)
    ensures var ready := ReadyNames(tasks, done);
      Layered(tasks, done + ready, rank + map n | n in ready :: layer, layer + 1)
  {
    NamesIdentify(tasks);
  }

  // ---------------------------------------------------------------- cycles

  predicate Needs(tasks: seq<LoadTask>, name: string, dependency: string) {
    exists t :: t in tasks && t.name == name && dependency in Deps(t)
  }

  predicate Link(tasks: seq<LoadTask>, path: seq<string>, i: nat)
    requires i + 1 < |path|
  {
    Needs(tasks, path[i], path[i + 1])
  }

  predicate Chain(tasks: seq<LoadTask>, path: seq<string>) {
    forall i: nat :: i + 1 < |path| ==> Link(tasks, path, i)
  }

  /** A task that depends on itself, directly or through others. */
  ghost predicate HasCycle(tasks: seq<LoadTask>) {
    exists path :: |path| >= 2 && Chain(tasks, path) && path[0] == path[|path| - 1]
  }

  lemma {:induction false} RanksFall(tasks: seq<LoadTask>, rank: map<string, nat>, path: seq<string>)
    requires KnownDeps(tasks) && Ranked(tasks, rank) && |path| >= 2 && Chain(tasks, path)
    ensures path[0] in rank && path[|path| - 1] in rank && rank[path[|path| - 1]] < rank[path[0]]
  {
    var front := path[..|path| - 1];
    if |path| > 2 {
      forall i: nat | i + 1 < |front| ensures Link(tasks, front, i) {
        assert Link(tasks, path, i);
      }
      RanksFall(tasks, rank, front);
    }
    assert Link(tasks, path, |path| - 2);
    var t :| t in tasks && t.name == path[|path| - 2] && path[|path| - 1] in Deps(t);
    var i :| 0 <= i < |tasks| && tasks[i] == t;
    assert TaskNames(tasks)[i] == t.name;
  }

  lemma RankedHasNoCycle(tasks: seq<LoadTask>)
    requires KnownDeps(tasks) && Acyclic(tasks)
    ensures !HasCycle(tasks)
  {
    var rank :| Ranked(tasks, rank);
    if path :| |path| >= 2 && Chain(tasks, path) && path[0] == path[|path| - 1] {
      RanksFall(tasks, rank, path);
    }
  }

  predicate WaitsFor(tasks: seq<LoadTask>, n: string, names: set<string>) {
    exists d :: d in names && Needs(tasks, n, d)
  }

  /** Every name in the set waits for another one in it. */
  predicate Stuck(tasks: seq<LoadTask>, names: set<string>) {
    forall n {:trigger WaitsFor(tasks, n, names)} :: n in names ==> WaitsFor(tasks, n, names)
  }

  /** Inside a stuck set one can follow dependencies forever. */
  lemma {:induction false} Walk(tasks: seq<LoadTask>, names: set<string>, length: nat) returns (path: seq<string>)
    requires names != {} && Stuck(tasks, names) && length >= 1
    ensures |path| == length && Chain(tasks, path) && Elements(path) <= names
  {
    if length == 1 {
      var n :| n in names;
      path := [n];
    } else {
      var front := Walk(tasks, names, length - 1);
      var last := front[length - 2];
      assert last in Elements(front);
      assert WaitsFor(tasks, last, names);
      var next :| next in names && Needs(tasks, last, next);
      path := front + [next];
      forall i: nat | i + 1 < |path| ensures Link(tasks, path, i) {
        if i + 2 < |path| {
          assert Link(tasks, front, i);
        }
      }
    }
  }

  /** More names than the set has members repeat one. */
  lemma Revisits(path: seq<string>, names: set<string>) returns (i: nat, j: nat)
    requires Elements(path) <= names && |names| < |path|
    ensures i < j < |path| && path[i] == path[j]
  {
    SubsetSize(Elements(path), names);
    DistinctSize(path);
    i, j :| 0 <= i < j < |path| && path[i] == path[j];
  }

  lemma PartOfChain(tasks: seq<LoadTask>, path: seq<string>, i: nat, j: nat)
    requires Chain(tasks, path) && i < j < |path|
    ensures Chain(tasks, path[i..j + 1])
  {
    var part := path[i..j + 1];
    forall k: nat | k + 1 < |part| ensures Link(tasks, part, k) {
      assert Link(tasks, path, i + k);
      assert part[k] == path[i + k] && part[k + 1] == path[i + k + 1];
    }
  }

  /** A stuck set contains a cycle: a long walk visits some name twice. */
  lemma StuckHasCycle(tasks: seq<LoadTask>, names: set<string>)
    requires names != {} && Stuck(tasks, names)
    ensures HasCycle(tasks)
  {
    var path := Walk(tasks, names, |names| + 1);
    var i, j := Revisits(path, names);
    PartOfChain(tasks, path, i, j);
    var cycle := path[i..j + 1];
    assert cycle[0] == cycle[|cycle| - 1];
  }

  lemma NothingReadyIsStuck(tasks: seq<LoadTask>, done: set<string>)
    requires KnownDeps(tasks) && ReadyNames(tasks, done) == {}
    ensures Stuck(tasks, Names(tasks) - done)
  {
    forall n | n in Names(tasks) - done ensures WaitsFor(tasks, n, Names(tasks) - done) {
      var t :| t in tasks && t.name == n;
      assert t.name !in ReadyNames(tasks, done);
      var d :| d in Deps(t) && d !in done;
      assert Needs(tasks, n, d);
    }
  }

  lemma NothingReady(tasks: seq<LoadTask>, done: set<string>)
    requires KnownDeps(tasks) && done < Names(tasks) && ReadyNames(tasks, done) == {}
    ensures HasCycle(tasks) && !Acyclic(tasks)
  {
    var missing :| missing in Names(tasks) && missing !in done;
    assert missing in Names(tasks) - done;
    NothingReadyIsStuck(tasks, done);
    StuckHasCycle(tasks, Names(tasks) - done);
    if Acyclic(tasks) {
      RankedHasNoCycle(tasks);
    }
  }

  /** Progress of one layer, and what remains when every task is done. */
  lemma LayerSizes(tasks: seq<LoadTask>, done: set<string>, rank: map<string, nat>, layer: nat)
    requires UniqueNames(tasks) && Layered(tasks, done, rank, layer)
    ensures |done| <= |tasks|
    ensures ReadyNames(tasks, done) != {} ==>
      |done| < |done + ReadyNames(tasks, done)| <= |tasks|
    ensures |done| == |tasks| ==> Acyclic(tasks)
    ensures |done| < |tasks| ==> done < Names(tasks)
  {
    UniqueNamesBySize(tasks);
    SubsetSize(done, Names(tasks));
    var ready := ReadyNames(tasks, done);
    SubsetSize(done + ready, Names(tasks));
    SubsetSize(done, done + ready);
    if |done| == |tasks| {
      assert Ranked(tasks, rank);
    }
  }

  /** Grows the done set layer by layer; it covers every task exactly when a ranking exists. */
  method FindLayers(tasks: seq<LoadTask>) returns (acyclic: bool)
    requires UniqueNames(tasks) && KnownDeps(tasks)
    ensures acyclic <==> Acyclic(tasks)
    ensures acyclic <==> !HasCycle(tasks)
  {
    var done: set<string> := {};
    ghost var rank: map<string, nat> := map[];
    ghost var layer := 0;
    while |done| < |tasks|
      invariant |done| <= |tasks| && Layered(tasks, done, rank, layer)
      decreases |tasks| - |done|
    {
      var ready := ReadyNames(tasks, done);
      LayerSizes(tasks, done, rank, layer);
      if ready == {} {
        NothingReady(tasks, done);
        return false;
      }
      NextLayer(tasks, done, rank, layer);
      rank := rank + map n | n in ready :: layer;
      done := done + ready;
      layer := layer + 1;
    }
    LayerSizes(tasks, done, rank, layer);
    RankedHasNoCycle(tasks);
    acyclic := true;
  }

  /** One phase: accepted exactly when it is well formed and has a ranking. */
  method ValidatePhase(tasks: seq<LoadTask>) returns (error: Option<PlanError>)
    ensures error.None? <==> Accepted(tasks)
    ensures error == Some(DuplicateNames) <==> !UniqueNames(tasks)
    ensures error == Some(DependencyCycle) <==> WellFormed(tasks) && HasCycle(tasks)
    ensures WellFormed(tasks) ==> (HasCycle(tasks) <==> !Acyclic(tasks))
  {
    UniqueNamesBySize(tasks);
    if |Names(tasks)| != |tasks| {
      return Some(DuplicateNames);
    }
    error := CheckTasks(tasks);
    if error.Some? {
      return;
    }
    var acyclic := FindLayers(tasks);
    if !acyclic {
      error := Some(DependencyCycle);
    }
  }

  ghost predicate AcceptedPlan(plan: LoadPlan) {
    && plan.schemas != [] && plan.schemaSql != ""
    && (forall s :: s in plan.schemas ==> UserSchema(s))
    && Accepted(plan.data) && Accepted(plan.indexes) && Accepted(plan.constraints)
  }

  method ValidatePlan(plan: LoadPlan) returns (error: Option<PlanError>)
    ensures error.None? <==> AcceptedPlan(plan)
  {
    if plan.schemas == [] || plan.schemaSql == "" {
      return Some(NoSchemasOrDdl);
    }
    if exists s :: s in plan.schemas && !UserSchema(s) {
      return Some(SystemSchema);
    }
    error := ValidatePhase(plan.data);
    if error.None? {
      error := ValidatePhase(plan.indexes);
    }
    if error.None? {
      error := ValidatePhase(plan.constraints);
    }
  }
}
