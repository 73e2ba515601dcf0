/**
 Whole runs of operations that do not overlap: starting, killing, restarting and
 ending processes, in any order and with every outcome. They keep the registry
 calm, which is what the theorems about kill and recovery start from.
 */
module SupervisionRuns {
  import opened Prelude
  import opened Supervision
  import opened SupervisionKill
  import opened SupervisionRecovery
  import opened SupervisionOrder

  /** `admitted` is the restart budget's answer when a process ends. */
  datatype Op =
    | OpRun(path: string, parent: Option<nat>, policy: RestartPolicy)
    | OpStarted(pid: nat)
    | OpKill(pid: nat)
    | OpKillAndRestart(pid: nat)
    | OpEnd(pid: nat, crashed: bool, admitted: bool)

  /** A live process ends by itself: terminal, its name given up. */
  function End(g: Registry, pid: nat, crashed: bool): (h: Registry)
    requires Forest(g) && pid in g.records
    ensures Forest(h) && pid in h.records
  {
    var st := if crashed then Crashed else Exited;
    StepKeepsForest(g, map[], DoState(pid, st));
    CleanupKeeps(SetState(g, pid, st), pid);
    Cleanup(SetState(g, pid, st), pid)
  }

  function ApplyOp(g: Registry, scripts: map<string, Script>, op: Op): (h: Registry)
    requires Forest(g)
    ensures Forest(h)
  {
    match op
    case OpRun(path, parent, policy) =>
      if CanSpawn(g, scripts, path, parent) then (SpawnKeeps(g, scripts, path, parent, policy); Spawn(g, scripts, path, parent, policy)) else g
    case OpStarted(pid) =>
      if pid in g.records && g.records[pid].state == Starting then (StepKeepsForest(g, scripts, DoState(pid, Running)); SetState(g, pid, Running)) else g
    case OpKill(pid) => KillTree(g, pid)
    case OpKillAndRestart(pid) => KillAndRestart(g, scripts, pid)
    case OpEnd(pid, crashed, admitted) => if Live(g, pid) then HandleTerminal(End(g, pid, crashed), scripts, pid, admitted) else g
  }

  function RunOps(g: Registry, scripts: map<string, Script>, ops: seq<Op>): (h: Registry)
    requires Forest(g)
    ensures Forest(h)
    decreases |ops|
  {
    if ops == [] then g else RunOps(ApplyOp(g, scripts, ops[0]), scripts, ops[1..])
  }

  // ----- one operation ---------------------------------------------------

  lemma SpawnCalm(g: Registry, scripts: map<string, Script>, path: string, parent: Option<nat>, policy: RestartPolicy)
    requires Forest(g) && Calm(g, None) && CanSpawn(g, scripts, path, parent)
    ensures Calm(Spawn(g, scripts, path, parent, policy), None)
  {
    var f := g.nextPid;
    if f in g.records { ForestParent(g, f); }
    if parent.Some? { SpawnEffect(g, scripts, path, parent.value, policy); }
    var h := Spawn(g, scripts, path, parent, policy);
    hide Forest;
    forall q | q in h.records && !Terminal(h.records[q].state) ensures Kept(h, None, q) {
      if q != f { assert Kept(g, None, q); }
    }
  }

  lemma StartedCalm(g: Registry, pid: nat)
    requires Calm(g, None) && pid in g.records && g.records[pid].state == Starting
    ensures Calm(SetState(g, pid, Running), None)
  {
    var h := SetState(g, pid, Running);
    forall q | q in h.records && !Terminal(h.records[q].state) ensures Kept(h, None, q) { assert Kept(g, None, q); }
  }

  lemma KillCalm(g: Registry, pid: nat)
    requires Forest(g) && Calm(g, None)
    ensures Calm(KillTree(g, pid), None) && !Live(KillTree(g, pid), pid)
  {
    KillIsBulk(g, None, pid);
    BulkCalm(g, None, {pid});
    NoLiveDescendant(g, None, pid, pid);
  }

  lemma UnlinkCalm(g: Registry, pid: nat)
    requires Forest(g) && Calm(g, None) && pid in g.records && Terminal(g.records[pid].state)
    ensures Calm(Unlink(g, pid), None)
  {
    hide Forest, Without, Unlink, Calm;
    ForestParent(g, pid);
    if g.records[pid].parent.Some? { UnlinkAt(g, g.records[pid].parent.value, pid); }
    UnlinkNames(g, pid);
    CalmAfter(g, Unlink(g, pid), pid);
  }

  lemma UnlinkNames(g: Registry, pid: nat)
    requires pid in g.records
    ensures Unlink(g, pid).byName == g.byName && (g.records[pid].parent.None? ==> Unlink(g, pid) == g)
  {
    hide Without;
  }

  /** An ended process leaves its parent's list; nothing else happens to names, states and links. */
  lemma CalmAfter(g: Registry, h: Registry, pid: nat)
    requires Calm(g, None) && pid in g.records && Terminal(g.records[pid].state) && h.records.Keys == g.records.Keys && h.byName == g.byName
    requires g.records[pid].parent.None? ==> h == g
    requires g.records[pid].parent.Some? ==>
               var p := g.records[pid].parent.value;
               && p in g.records && p != pid
               && h.records[p] == g.records[p].(children := Without(g.records[p].children, {pid})) && h.records[pid] == g.records[pid].(parent := None)
               && forall q | q in g.records && q != p && q != pid :: h.records[q] == g.records[q]
    ensures Calm(h, None)
  {
    hide Without;
    forall q | q in h.records && !Terminal(h.records[q].state) ensures Kept(h, None, q) { assert Kept(g, None, q); }
  }

  lemma EndCalm(g: Registry, pid: nat, crashed: bool)
    requires Forest(g) && Calm(g, None) && Live(g, pid)
    ensures Calm(End(g, pid, crashed), Some(pid)) && Terminal(End(g, pid, crashed).records[pid].state)
  {
    var h := End(g, pid, crashed);
    assert Kept(g, None, pid);
    hide Forest;
    forall q | q in h.records && !Terminal(h.records[q].state) ensures Kept(h, Some(pid), q) { assert Kept(g, None, q); }
  }

  /** Once its children are killed and orphaned, nobody live depends on the ended process. */
  lemma AbandonCalm(g: Registry, pid: nat)
    requires Forest(g) && Calm(g, Some(pid)) && pid in g.records && Terminal(g.records[pid].state)
    ensures Calm(Abandon(g, pid), None)
  {
    var cs := g.records[pid].children;
    ForestChildren(g, pid); ForestParent(g, pid);
    if cs == [] {
      forall q | Live(g, q) ensures Kept(g, None, q) { assert Kept(g, Some(pid), q); }
    } else {
      KillAllIsBulk(g, Some(pid), cs, pid);
      BulkCalm(g, Some(pid), Members(cs));
      var h := KillAll(g, cs, pid);
      forall q | Live(h, q) ensures h.records[q].parent != Some(pid) { ChildrenGone(g, pid, q); }
      OrphanCalm(h, pid);
    }
  }

  lemma ChildrenGone(g: Registry, pid: nat, q: nat)
    requires Forest(g) && Calm(g, Some(pid)) && pid in g.records
    requires Live(Bulk(g, Doomed(g, Members(g.records[pid].children))), q)
    ensures Bulk(g, Doomed(g, Members(g.records[pid].children))).records[q].parent != Some(pid)
  {
    var t := Members(g.records[pid].children);
    assert q !in Doomed(g, t) && Live(g, q);
    if g.records[q].parent == Some(pid) {
      assert Kept(g, Some(pid), q);
      assert Below(g, q, q) && q in t;
    }
  }

  lemma OrphanCalm(h: Registry, pid: nat)
    requires Forest(h) && Calm(h, Some(pid)) && pid in h.records && forall q | Live(h, q) :: h.records[q].parent != Some(pid)
    ensures Calm(Orphan(h, pid), None)
  {
    var k := Orphan(h, pid);
    ForestChildren(h, pid);
    hide Forest;
    forall q | Live(k, q) ensures Kept(k, None, q) { assert Kept(h, Some(pid), q); }
  }

  /** The restart loop, wherever it stops. */
  lemma {:induction false} RecoverCalm(g: Registry, scripts: map<string, Script>, parent: nat, todo: seq<nat>)
    requires Forest(g) && Calm(g, None) && parent in g.records && forall c | c in todo :: c in g.records
    ensures Calm(Recover(g, scripts, parent, todo), None)
    decreases |todo|
  {
    hide Forest, Calm, KillTree, RestartChild, CanSpawn;
    if todo != [] && Alive(g.records[parent].state) && g.records[todo[0]].parent == Some(parent) {
      var c := todo[0];
      assert c in todo && forall d | d in todo[1..] :: d in todo;
      KillCalm(g, c);
      var g1 := KillTree(g, c);
      if CanSpawn(g1, scripts, g1.records[c].path, Some(parent)) {
        RestartedCalm(g1, scripts, parent, c);
        RecoverCalm(RestartChild(g1, scripts, parent, c), scripts, parent, todo[1..]);
      }
    }
  }

  lemma RestartedCalm(g: Registry, scripts: map<string, Script>, parent: nat, c: nat)
    requires Forest(g) && Calm(g, None) && c in g.records && !Live(g, c) && CanSpawn(g, scripts, g.records[c].path, Some(parent))
    ensures Calm(RestartChild(g, scripts, parent, c), None)
  {
    hide Forest, Calm, RestartChild, Restarted;
    RestartEffect(g, scripts, parent, c);
    RestartCalm(g, scripts, parent, c);
  }

  lemma HandleCalm(g: Registry, scripts: map<string, Script>, pid: nat, admitted: bool)
    requires Forest(g) && Calm(g, Some(pid)) && pid in g.records && Terminal(g.records[pid].state)
    ensures Calm(HandleTerminal(g, scripts, pid, admitted), None)
  {
    hide Forest, Calm, Abandon, Unlink, Recover, CountRestarts, Candidates, Affected;
    AbandonCalm(g, pid);
    AbandonedState(g, pid);
    var g0 := Abandon(g, pid);
    if g0.records[pid].parent.Some? {
      var parent := g0.records[pid].parent.value;
      ForestParent(g0, pid);
      UnlinkCalm(g0, pid);
      var todo := Candidates(g0, Affected(g0.records[parent], pid), g0.records[pid].state == Crashed);
      CountCalm(g0, parent, |todo|);
      RecoverCalm(CountRestarts(g0, parent, |todo|), scripts, parent, todo);
    }
  }

  lemma AbandonedState(g: Registry, pid: nat)
    requires Forest(g) && Calm(g, Some(pid)) && pid in g.records && Terminal(g.records[pid].state)
    ensures Terminal(Abandon(g, pid).records[pid].state)
  {
    if g.records[pid].children != [] {
      ForestChildren(g, pid); ForestParent(g, pid);
      KillAllIsBulk(g, Some(pid), g.records[pid].children, pid);
      assert pid !in Doomed(g, Members(g.records[pid].children));
      hide Forest, Calm, KillAll, Without;
    }
  }

  /** A kill in place: the target keeps its slot, and nobody live is left below it. */
  lemma InPlaceCalm(g: Registry, pid: nat)
    requires Forest(g) && Calm(g, None) && pid in g.records && Live(g, pid)
    ensures Calm(KillInPlace(g, pid), None) && Terminal(KillInPlace(g, pid).records[pid].state)
  {
    hide Forest, Calm, KillInPlace, Bulk, Doomed, BeginKill, KillEnd, Members;
    var t := Members(g.records[pid].children);
    var g1 := BeginKill(g, pid);
    KillAllInPlace(g, pid);
    BeginKeeps(g, None, pid, t);
    BulkCalm(g1, None, t);
    var b := Bulk(g1, Doomed(g, t));
    forall q | Live(b, q) ensures b.records[q].parent != Some(pid) { NoChildLeft(g, pid, q); }
    StillLive(g, pid, Doomed(g, t));
    KillEndCalm(b, pid);
  }

  lemma NoChildLeft(g: Registry, pid: nat, q: nat)
    requires Forest(g) && Calm(g, None) && pid in g.records && Live(g, pid)
    requires Live(Bulk(BeginKill(g, pid), Doomed(g, Members(g.records[pid].children))), q)
    ensures Bulk(BeginKill(g, pid), Doomed(g, Members(g.records[pid].children))).records[q].parent != Some(pid)
  {
    ChildDoomed(g, pid, q);
    hide Without, Doomed, Forest, Calm;
  }

  /** A live child of a live process is below its listed children. */
  lemma ChildDoomed(g: Registry, pid: nat, q: nat)
    requires Forest(g) && Calm(g, None) && pid in g.records
    ensures Live(g, q) && g.records[q].parent == Some(pid) ==> q in Doomed(g, Members(g.records[pid].children))
  {
    if Live(g, q) && g.records[q].parent == Some(pid) {
      assert Kept(g, None, q);
      assert Below(g, q, q);
    }
  }

  lemma StillLive(g: Registry, pid: nat, dead: set<nat>)
    requires Forest(g) && pid in g.records && pid !in dead
    ensures Live(Bulk(BeginKill(g, pid), dead), pid)
  {
    hide Forest, Without;
  }

  lemma KillEndCalm(b: Registry, pid: nat)
    requires Calm(b, None) && Live(b, pid) && forall q | Live(b, q) :: b.records[q].parent != Some(pid)
    ensures Calm(KillEnd(b, pid), None) && Terminal(KillEnd(b, pid).records[pid].state)
  {
    var h := KillEnd(b, pid);
    assert Kept(b, None, pid);
    forall q | q in h.records && !Terminal(h.records[q].state) ensures Kept(h, None, q) { assert Kept(b, None, q) && Live(b, q); }
  }

  lemma RestartInPlaceCalm(g: Registry, scripts: map<string, Script>, pid: nat)
    requires Forest(g) && Calm(g, None) && pid in g.records && Terminal(g.records[pid].state)
    ensures Calm(RestartInPlace(g, scripts, pid), None)
  {
    hide Forest, Calm, Unlink, RestartChild, CanSpawn;
    UnlinkCalm(g, pid);
    var parent := g.records[pid].parent;
    if parent.Some? && CanSpawn(g, scripts, g.records[pid].path, parent) {
      RestartedCalm(g, scripts, parent.value, pid);
      RestartedState(g, scripts, parent.value, pid);
      UnlinkCalm(RestartChild(g, scripts, parent.value, pid), pid);
    }
  }

  lemma RestartedState(g: Registry, scripts: map<string, Script>, parent: nat, c: nat)
    requires Forest(g) && c in g.records && CanSpawn(g, scripts, g.records[c].path, Some(parent))
    ensures RestartChild(g, scripts, parent, c).records[c].state == g.records[c].state
  {
    RestartEffect(g, scripts, parent, c);
    hide Forest, RestartChild, Slot;
  }

  lemma OpCalm(g: Registry, scripts: map<string, Script>, op: Op)
    requires Forest(g) && Calm(g, None)
    ensures Calm(ApplyOp(g, scripts, op), None)
  {
    hide Forest, Calm, Spawn, KillTree, KillInPlace, RestartInPlace, HandleTerminal, End, SetState;
    match op
    case OpRun(path, parent, policy) => if CanSpawn(g, scripts, path, parent) { SpawnCalm(g, scripts, path, parent, policy); }
    case OpStarted(pid) => if pid in g.records && g.records[pid].state == Starting { StartedCalm(g, pid); }
    case OpKill(pid) => KillCalm(g, pid);
    case OpKillAndRestart(pid) =>
      if Live(g, pid) {
        InPlaceCalm(g, pid);
        RestartInPlaceCalm(KillInPlace(g, pid), scripts, pid);
      }
    case OpEnd(pid, crashed, admitted) =>
      if Live(g, pid) {
        EndCalm(g, pid, crashed);
        HandleCalm(End(g, pid, crashed), scripts, pid, admitted);
      }
  }

  lemma {:induction false} OpsCalm(g: Registry, scripts: map<string, Script>, ops: seq<Op>)
    requires Forest(g) && Calm(g, None)
    ensures Calm(RunOps(g, scripts, ops), None)
    decreases |ops|
  {
    hide Forest, Calm, ApplyOp;
    if ops != [] {
      OpCalm(g, scripts, ops[0]);
      OpsCalm(ApplyOp(g, scripts, ops[0]), scripts, ops[1..]);
    }
  }

  /**
   Whole runs stay calm. From the empty registry, after any sequence of starts,
   kills, operator kills with restart and process ends with their recovery,
   admitted by the budget or not, finished or stopped midway: every live process
   owns its name, and its parent, if it has one, is live and lists it.
   */
  lemma RunsStayCalm(scripts: map<string, Script>, ops: seq<Op>)
    ensures Forest(Empty) && Calm(RunOps(Empty, scripts, ops), None)
  {
    OpsCalm(Empty, scripts, ops);
  }

  /** Hence after any such run, a kill leaves no live process below its target. */
  lemma RunThenKill(scripts: map<string, Script>, ops: seq<Op>, pid: nat, q: nat)
    ensures Forest(Empty)
    ensures var g := RunOps(Empty, scripts, ops); Below(g, pid, q) ==> !Live(KillTree(g, pid), q)
  {
    RunsStayCalm(scripts, ops);
    var g := RunOps(Empty, scripts, ops);
    hide RunOps, KillTree, Calm, Forest;
    if Below(g, pid, q) { NoLiveDescendant(g, None, pid, q); }
  }
}
