/**
 The supervision registry: process records, names, links and restarts. The
 functions are the lock-protected sections of `ProcessRegistry`; interleavings
 of any number of tasks are sequences of `Step`s.
 */
module Supervision {
  import opened Prelude

  datatype ProcState = Starting | Running | Stopping | Killed | Crashed | Exited
  datatype Strategy = OneForOne | OneForAll | RestForOne
  datatype RestartPolicy = Permanent | Transient | Temporary

  datatype Record = Record(name: string, path: string, state: ProcState, parent: Option<nat>, children: seq<nat>,
                           policy: RestartPolicy, strategy: Strategy, restartCount: nat)

  datatype Registry = Registry(records: map<nat, Record>, byName: map<string, nat>, nextPid: nat)

  /** What loading a script yields; a path without an entry fails to load. */
  datatype Script = Script(name: string, strategy: Strategy)

  predicate Alive(s: ProcState) { s == Starting || s == Running }
  predicate Terminal(s: ProcState) { s == Killed || s == Crashed || s == Exited }

  // ----- list helpers ----------------------------------------------------

  predicate NoDup(xs: seq<nat>) {
    forall i, j | 0 <= i < j < |xs| :: xs[i] != xs[j]
  }

  /** `[pid for pid in xs if pid not in drop]` */
  function Without(xs: seq<nat>, drop: set<nat>): (r: seq<nat>)
    ensures forall y :: y in r <==> y in xs && y !in drop
    ensures NoDup(xs) ==> NoDup(r)
    ensures (forall y | y in xs :: y !in drop) ==> r == xs
  {
    if xs == [] then []
    else
      var rest := Without(xs[1..], drop);
      if xs[0] in drop then rest else [xs[0]] + rest
  }

  /** Keeps the first occurrence of every element not already seen. */
  function Dedupe(xs: seq<nat>, seen: set<nat>): (r: seq<nat>)
    ensures NoDup(r) && forall y :: y in r <==> y in xs && y !in seen
    ensures NoDup(xs) && (forall y | y in xs :: y !in seen) ==> r == xs
  {
    if xs == [] then []
    else if xs[0] in seen then Dedupe(xs[1..], seen)
    else [xs[0]] + Dedupe(xs[1..], seen + {xs[0]})
  }

  function IndexOf(xs: seq<nat>, x: nat): (i: nat)
    requires x in xs
    ensures i < |xs| && xs[i] == x && x !in xs[..i]
  {
    if xs[0] == x then 0 else 1 + IndexOf(xs[1..], x)
  }

  // ----- locked sections -------------------------------------------------

  function Put(g: Registry, pid: nat, r: Record): Registry {
    g.(records := g.records[pid := r])
  }

  function Link(g: Registry, parent: nat, child: nat): Registry {
    if parent !in g.records || child !in g.records then g
    else
      var g1 := Put(g, child, g.records[child].(parent := Some(parent)));
      var p := g1.records[parent];
      if child in p.children then g1 else Put(g1, parent, p.(children := p.children + [child]))
  }

  function Unlink(g: Registry, child: nat): Registry
    requires child in g.records
  {
    var c := g.records[child];
    if c.parent.None? then g
    else
      var p := c.parent.value;
      var g1 := if p in g.records then Put(g, p, g.records[p].(children := Without(g.records[p].children, {child}))) else g;
      Put(g1, child, g1.records[child].(parent := None))
  }

  predicate ParentRunning(g: Registry, parent: Option<nat>) {
    parent.Some? ==> parent.value in g.records && Alive(g.records[parent.value].state)
  }

  predicate CanSpawn(g: Registry, scripts: map<string, Script>, path: string, parent: Option<nat>) {
    path in scripts && ParentRunning(g, parent) && scripts[path].name !in g.byName
  }

  /** `_run_path_in_process`: allocate a pid, register the name, link to the parent. */
  function Spawn(g: Registry, scripts: map<string, Script>, path: string, parent: Option<nat>, policy: RestartPolicy): Registry
    requires CanSpawn(g, scripts, path, parent)
  {
    var pid := g.nextPid;
    var r := Record(scripts[path].name, path, Starting, parent, [], policy, scripts[path].strategy, 0);
    var g1 := Registry(g.records[pid := r], g.byName[r.name := pid], pid + 1);
    if parent.Some? then Link(g1, parent.value, pid) else g1
  }

  function SetState(g: Registry, pid: nat, s: ProcState): Registry
    requires pid in g.records
  {
    Put(g, pid, g.records[pid].(state := s))
  }

  function Cleanup(g: Registry, pid: nat): Registry
    requires pid in g.records
  {
    g.(byName := g.byName - {g.records[pid].name})
  }

  /** The closing section of `kill`: killed, cleaned up, children forgotten. */
  function KillEnd(g: Registry, pid: nat): Registry
    requires pid in g.records
  {
    var g1 := Cleanup(SetState(g, pid, Killed), pid);
    Put(g1, pid, g1.records[pid].(children := []))
  }

  /** The closing section of `_terminate_children_of_terminal_parent`. */
  function Orphan(g: Registry, pid: nat): Registry
    requires pid in g.records
  {
    var cs := g.records[pid].children;
    var records := map q | q in g.records :: if q in cs then g.records[q].(parent := None) else g.records[q];
    Put(g.(records := records), pid, records[pid].(children := []))
  }

  /** The closing section of `_restart_child`: the replacement takes the old child's slot. */
  function Replace(g: Registry, parent: nat, failed: nat, replacement: nat): Registry
    requires parent in g.records
  {
    var p := g.records[parent];
    var cs := if failed in p.children then p.children[IndexOf(p.children, failed) := replacement]
              else if replacement in p.children then p.children
              else p.children + [replacement];
    Put(g, parent, p.(children := Dedupe(cs, {})))
  }

  // ----- every interleaving ----------------------------------------------

  datatype Step =
    | DoSpawn(path: string, parent: Option<nat>, policy: RestartPolicy)
    | DoFailedSpawn
    | DoState(pid: nat, state: ProcState)
    | DoRestartCount(pid: nat, count: nat)
    | DoCleanup(pid: nat)
    | DoKillEnd(pid: nat)
    | DoUnlink(pid: nat)
    | DoOrphan(pid: nat)
    | DoReplace(supervisor: nat, failed: nat, replacement: nat)

  /**
   When a step can happen. A replacement is still linked to its parent when it
   takes the old slot: nothing unlinks it between its spawn and that section,
   because the registry lock is first-in first-out.
   */
  predicate Enabled(g: Registry, scripts: map<string, Script>, s: Step) {
    match s
    case DoSpawn(path, parent, _) => CanSpawn(g, scripts, path, parent)
    case DoFailedSpawn => true
    case DoState(pid, _) => pid in g.records
    case DoRestartCount(pid, _) => pid in g.records
    case DoCleanup(pid) => pid in g.records
    case DoKillEnd(pid) => pid in g.records
    case DoUnlink(pid) => pid in g.records
    case DoOrphan(pid) => pid in g.records
    case DoReplace(parent, _, f) => parent in g.records && f in g.records && g.records[f].parent == Some(parent)
  }

  function Apply(g: Registry, scripts: map<string, Script>, s: Step): Registry
    requires Enabled(g, scripts, s)
  {
    match s
    case DoSpawn(path, parent, policy) => Spawn(g, scripts, path, parent, policy)
    case DoFailedSpawn => g.(nextPid := g.nextPid + 1)
    case DoState(pid, st) => SetState(g, pid, st)
    case DoRestartCount(pid, n) => Put(g, pid, g.records[pid].(restartCount := n))
    case DoCleanup(pid) => Cleanup(g, pid)
    case DoKillEnd(pid) => KillEnd(g, pid)
    case DoUnlink(pid) => Unlink(g, pid)
    case DoOrphan(pid) => Orphan(g, pid)
    case DoReplace(parent, o, f) => Replace(g, parent, o, f)
  }

  const Empty: Registry := Registry(map[], map[], 100)

  /** Runs a schedule, skipping steps that are not enabled. */
  function RunSteps(g: Registry, scripts: map<string, Script>, steps: seq<Step>): Registry
    decreases |steps|
  {
    if steps == [] then g
    else RunSteps(if Enabled(g, scripts, steps[0]) then Apply(g, scripts, steps[0]) else g, scripts, steps[1..])
  }

  /** A record whose child list is duplicate-free and points back, and whose parent has a smaller pid. */
  predicate Placed(g: Registry, p: nat)
    requires p in g.records
  {
    var r := g.records[p];
    && p < g.nextPid && NoDup(r.children)
    && (forall c | c in r.children :: c in g.records && g.records[c].parent == Some(p))
    && (r.parent.Some? ==> r.parent.value in g.records && r.parent.value < p)
  }

  predicate Forest(g: Registry) {
    forall p | p in g.records :: Placed(g, p)
  }

  predicate NamesMatch(g: Registry) {
    forall n | n in g.byName :: g.byName[n] in g.records && g.records[g.byName[n]].name == n
  }

  /** Records are never dropped or renamed, and a new pid is one never allocated before. */
  predicate PidsKept(g: Registry, h: Registry) {
    && g.nextPid <= h.nextPid
    && (forall p | p in g.records :: p in h.records && h.records[p].name == g.records[p].name && h.records[p].path == g.records[p].path)
    && (forall p | p in h.records :: p in g.records || g.nextPid <= p < h.nextPid)
  }

  /** Rewriting one record keeps the forest when its parent stays and its list members point back. */
  lemma PutKeeps(g: Registry, p: nat, r: Record)
    requires Forest(g) && p in g.records && r.parent == g.records[p].parent && NoDup(r.children)
    requires forall c | c in r.children :: c in g.records && g.records[c].parent == Some(p)
    ensures Forest(Put(g, p, r))
  {
    forall q | q in g.records ensures Placed(Put(g, p, r), q) { assert Placed(g, q); }
  }

  lemma DetachKeeps(g: Registry, c: nat)
    requires Forest(g) && c in g.records && forall p | p in g.records :: c !in g.records[p].children
    ensures Forest(Put(g, c, g.records[c].(parent := None)))
  {
    forall q | q in g.records ensures Placed(Put(g, c, g.records[c].(parent := None)), q) { assert Placed(g, q); }
  }

  lemma UnlinkKeeps(g: Registry, c: nat)
    requires Forest(g) && c in g.records
    ensures Forest(Unlink(g, c))
  {
    hide Forest, Without;
    if g.records[c].parent.Some? {
      var p := g.records[c].parent.value;
      assert p in g.records && p < c by { assert Forest(g); ForestParent(g, c); }
      var r := g.records[p].(children := Without(g.records[p].children, {c}));
      ForestChildren(g, p);
      PutKeeps(g, p, r);
      forall q | q in Put(g, p, r).records ensures c !in Put(g, p, r).records[q].children {
        ForestChildren(g, q);
      }
      DetachKeeps(Put(g, p, r), c);
    }
  }

  lemma ForestParent(g: Registry, c: nat)
    requires Forest(g) && c in g.records
    ensures c < g.nextPid
    ensures g.records[c].parent.Some? ==> g.records[c].parent.value in g.records && g.records[c].parent.value < c
  {
    assert Placed(g, c);
  }

  lemma ForestChildren(g: Registry, p: nat)
    requires Forest(g) && p in g.records
    ensures NoDup(g.records[p].children)
    ensures forall c | c in g.records[p].children :: c in g.records && g.records[c].parent == Some(p) && p < c < g.nextPid
  {
    assert Placed(g, p);
    forall c | c in g.records[p].children ensures p < c < g.nextPid { assert Placed(g, c); }
  }

  lemma NewKeeps(g: Registry, name: string, r: Record)
    requires Forest(g) && r.children == [] && (r.parent.Some? ==> r.parent.value in g.records)
    ensures Forest(Registry(g.records[g.nextPid := r], g.byName[name := g.nextPid], g.nextPid + 1))
  {
    var h := Registry(g.records[g.nextPid := r], g.byName[name := g.nextPid], g.nextPid + 1);
    assert forall q | q in g.records :: Placed(g, q);
    if r.parent.Some? { assert Placed(g, r.parent.value); }
    forall q | q in h.records ensures Placed(h, q) { if q != g.nextPid { assert Placed(g, q); } }
  }

  lemma SpawnKeeps(g: Registry, scripts: map<string, Script>, path: string, parent: Option<nat>, policy: RestartPolicy)
    requires Forest(g) && CanSpawn(g, scripts, path, parent)
    ensures Forest(Spawn(g, scripts, path, parent, policy))
  {
    var pid := g.nextPid;
    var r := Record(scripts[path].name, path, Starting, parent, [], policy, scripts[path].strategy, 0);
    NewKeeps(g, r.name, r);
    hide Forest;
    var g1 := Registry(g.records[pid := r], g.byName[r.name := pid], pid + 1);
    if parent.Some? {
      var p := g1.records[parent.value];
      ForestChildren(g1, parent.value);
      assert Put(g1, pid, r) == g1;
      if pid !in p.children { PutKeeps(g1, parent.value, p.(children := p.children + [pid])); }
    }
  }

  lemma OrphanKeeps(g: Registry, pid: nat)
    requires Forest(g) && pid in g.records
    ensures Forest(Orphan(g, pid))
  {
    forall q | q in g.records ensures Placed(Orphan(g, pid), q) { assert Placed(g, q) && Placed(g, pid); }
  }

  lemma ReplaceKeeps(g: Registry, parent: nat, failed: nat, replacement: nat)
    requires Forest(g) && parent in g.records && replacement in g.records && g.records[replacement].parent == Some(parent)
    ensures Forest(Replace(g, parent, failed, replacement))
  {
    hide Forest, IndexOf, Dedupe;
    ForestChildren(g, parent);
    PutKeeps(g, parent, Replace(g, parent, failed, replacement).records[parent]);
  }

  lemma StepKeepsForest(g: Registry, scripts: map<string, Script>, s: Step)
    requires Forest(g) && Enabled(g, scripts, s)
    ensures Forest(Apply(g, scripts, s))
  {
    hide Forest, Spawn, Unlink, Orphan, Replace;
    match s
    case DoSpawn(path, parent, policy) => SpawnKeeps(g, scripts, path, parent, policy);
    case DoFailedSpawn => FailedKeeps(g);
    case DoState(pid, st) => ForestChildren(g, pid); PutKeeps(g, pid, g.records[pid].(state := st));
    case DoRestartCount(pid, n) => ForestChildren(g, pid); PutKeeps(g, pid, g.records[pid].(restartCount := n));
    case DoCleanup(pid) => CleanupKeeps(g, pid);
    case DoKillEnd(pid) => KillEndKeeps(g, pid);
    case DoUnlink(pid) => UnlinkKeeps(g, pid);
    case DoOrphan(pid) => OrphanKeeps(g, pid);
    case DoReplace(parent, o, f) => ReplaceKeeps(g, parent, o, f);
  }

  lemma FailedKeeps(g: Registry)
    requires Forest(g)
    ensures Forest(g.(nextPid := g.nextPid + 1))
  {
    forall q | q in g.records ensures Placed(g.(nextPid := g.nextPid + 1), q) { assert Placed(g, q); }
  }

  lemma CleanupKeeps(g: Registry, pid: nat)
    requires Forest(g) && pid in g.records
    ensures Forest(Cleanup(g, pid))
  {
    forall q | q in g.records ensures Placed(Cleanup(g, pid), q) { assert Placed(g, q); }
  }

  lemma KillEndKeeps(g: Registry, pid: nat)
    requires Forest(g) && pid in g.records
    ensures Forest(KillEnd(g, pid))
  {
    CleanupKeeps(g, pid);
    hide Forest;
    var r := g.records[pid];
    PutKeeps(Cleanup(g, pid), pid, r.(state := Killed, children := []));
    assert KillEnd(g, pid) == Put(Cleanup(g, pid), pid, r.(state := Killed, children := []));
  }

  /** `h` has the same records up to rewriting, with names and paths kept, and no new name bindings. */
  predicate Rewrites(g: Registry, h: Registry) {
    && g.nextPid == h.nextPid && h.records.Keys == g.records.Keys
    && (forall p | p in g.records :: h.records[p].name == g.records[p].name && h.records[p].path == g.records[p].path)
    && (forall n | n in h.byName :: n in g.byName && h.byName[n] == g.byName[n])
  }

  lemma RewritesKeeps(g: Registry, h: Registry)
    requires NamesMatch(g) && Rewrites(g, h)
    ensures NamesMatch(h) && PidsKept(g, h)
  {
  }

  lemma UnlinkRewrites(g: Registry, c: nat)
    requires c in g.records
    ensures Rewrites(g, Unlink(g, c))
  {
    hide Without;
  }

  lemma LinkRewrites(g: Registry, p: nat, c: nat)
    requires p in g.records && c in g.records
    ensures Rewrites(g, Link(g, p, c))
  {
  }

  lemma SpawnNames(g: Registry, scripts: map<string, Script>, path: string, parent: Option<nat>, policy: RestartPolicy)
    requires Forest(g) && NamesMatch(g) && CanSpawn(g, scripts, path, parent)
    ensures NamesMatch(Spawn(g, scripts, path, parent, policy)) && PidsKept(g, Spawn(g, scripts, path, parent, policy))
  {
    var pid := g.nextPid;
    var r := Record(scripts[path].name, path, Starting, parent, [], policy, scripts[path].strategy, 0);
    var g1 := Registry(g.records[pid := r], g.byName[r.name := pid], pid + 1);
    assert pid !in g.records by { if pid in g.records { ForestParent(g, pid); } }
    hide Forest, Link;
    if parent.Some? {
      LinkRewrites(g1, parent.value, pid);
      RewritesKeeps(g1, Link(g1, parent.value, pid));
    }
  }

  lemma StepKeepsNames(g: Registry, scripts: map<string, Script>, s: Step)
    requires Forest(g) && NamesMatch(g) && Enabled(g, scripts, s)
    ensures NamesMatch(Apply(g, scripts, s)) && PidsKept(g, Apply(g, scripts, s))
  {
    hide Forest, Dedupe, IndexOf, Unlink, Spawn, NamesMatch, PidsKept;
    match s
    case DoSpawn(path, parent, policy) => SpawnNames(g, scripts, path, parent, policy);
    case DoFailedSpawn => FailedNames(g);
    case DoUnlink(pid) => UnlinkRewrites(g, pid); RewritesKeeps(g, Unlink(g, pid));
    case _ => RewritesKeeps(g, Apply(g, scripts, s));
  }

  lemma FailedNames(g: Registry)
    requires NamesMatch(g)
    ensures NamesMatch(g.(nextPid := g.nextPid + 1)) && PidsKept(g, g.(nextPid := g.nextPid + 1))
  {
  }

  /**
   In every reachable state, whatever the interleaving: child lists are
   duplicate-free, disjoint and point back, parents have smaller pids, names point
   to records of that name, and pids are never reused.
   */
  lemma {:induction false} ReachableForest(g: Registry, scripts: map<string, Script>, steps: seq<Step>)
    requires Forest(g) && NamesMatch(g)
    ensures var h := RunSteps(g, scripts, steps); Forest(h) && NamesMatch(h) && PidsKept(g, h)
    decreases |steps|
  {
    if steps != [] {
      var next := g;
      if Enabled(g, scripts, steps[0]) {
        StepKeepsForest(g, scripts, steps[0]);
        StepKeepsNames(g, scripts, steps[0]);
        next := Apply(g, scripts, steps[0]);
      }
      ReachableForest(next, scripts, steps[1..]);
    }
  }

  /** Whatever the interleaving, no two processes list the same child. */
  lemma ChildListsDisjoint(scripts: map<string, Script>, steps: seq<Step>, p: nat, q: nat, c: nat)
    requires var h := RunSteps(Empty, scripts, steps); p in h.records && q in h.records && c in h.records[p].children && c in h.records[q].children
    ensures p == q
  {
    var h := RunSteps(Empty, scripts, steps);
    assert Forest(Empty) && NamesMatch(Empty);
    ReachableForest(Empty, scripts, steps);
    assert h.records[c].parent == Some(p) && h.records[c].parent == Some(q);
  }

  // ----- depth -----------------------------------------------------------

  /** Number of registered ancestors along parent pointers. */
  function Depth(g: Registry, pid: nat): nat
    requires Forest(g) && pid in g.records
    decreases pid
  {
    if g.records[pid].parent.None? then 0 else 1 + Depth(g, g.records[pid].parent.value)
  }

  /** `_tree_depth`: terminates on any parent pointers, and is the true depth on a forest. */
  method TreeDepth(g: Registry, pid: nat) returns (depth: nat)
    requires pid in g.records
    ensures Forest(g) ==> depth == Depth(g, pid)
  {
    depth := 0;
    var seen: set<nat> := {};
    var parent := g.records[pid].parent;
    ghost var last := pid;
    while parent.Some? && parent.value !in seen
      invariant Forest(g) ==> last in g.records && parent == g.records[last].parent && depth + Depth(g, last) == Depth(g, pid)
      invariant Forest(g) ==> forall q | q in seen :: q >= last
      decreases g.records.Keys - seen
    {
      ghost var before := seen;
      seen := seen + {parent.value};
      if parent.value !in g.records { break; }
      assert parent.value in g.records.Keys - before && parent.value !in g.records.Keys - seen;
      depth := depth + 1;
      last := parent.value;
      parent := g.records[parent.value].parent;
    }
  }
}
