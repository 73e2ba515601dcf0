/**
 The registry as the program runs it: mutable tables, recursive kill over a
 snapshot of the child list, and the restart loop of the crash handler.
 */
module SupervisionObject {
  import opened Prelude
  import opened Supervision
  import opened SupervisionKill
  import opened SupervisionRecovery
  import Order = SupervisionOrder
  import RestartBudget

  lemma KillAllTurn(g: Registry, xs: seq<nat>, above: nat)
    requires Forest(g) && above <= g.nextPid && xs != [] && forall c | c in xs :: above < c < g.nextPid
    ensures forall c | c in xs[1..] :: c in xs
    ensures KillAll(g, xs, above) == KillAll(KillTree(g, xs[0]), xs[1..], above)
  {
    assert forall c | c in xs[1..] :: c in xs;
    hide KillTree, Forest;
  }

  class ProcessRegistry {
    const scripts: map<string, Script>
    var records: map<nat, Record>
    var byName: map<string, nat>
    var nextPid: nat

    constructor (scripts: map<string, Script>)
      ensures this.scripts == scripts && State() == Empty
    {
      this.scripts, records, byName, nextPid := scripts, map[], map[], 100;
    }

    function State(): Registry
      reads this
    {
      Registry(records, byName, nextPid)
    }

    /**
     `_run_path_in_process`; None when it raises. `registers` says whether mailbox,
     memory and capabilities take the newcomer: when they raise, a pid is used up.
     */
    method RunPath(path: string, parent: Option<nat>, policy: RestartPolicy, registers: bool) returns (pid: Option<nat>)
      modifies this
      ensures pid.Some? <==> CanSpawn(old(State()), scripts, path, parent) && registers
      ensures pid.Some? ==> pid == Some(old(nextPid)) && State() == Spawn(old(State()), scripts, path, parent, policy)
      ensures pid.None? ==> State() == if CanSpawn(old(State()), scripts, path, parent) then Apply(old(State()), scripts, DoFailedSpawn) else old(State())
    {
      if path !in scripts { return None; }
      if parent.Some? && (parent.value !in records || !Alive(records[parent.value].state)) { return None; }
      var name := scripts[path].name;
      if name in byName { return None; }
      pid := Some(nextPid);
      nextPid := nextPid + 1;
      if !registers { return None; }
      records := records[pid.value := Record(name, path, Starting, parent, [], policy, scripts[path].strategy, 0)];
      byName := byName[name := pid.value];
      if parent.Some? { LinkChild(parent.value, pid.value); }
    }

    method LinkChild(parent: nat, child: nat)
      modifies this
      ensures State() == Link(old(State()), parent, child)
    {
      if parent !in records || child !in records { return; }
      records := records[child := records[child].(parent := Some(parent))];
      if child !in records[parent].children {
        records := records[parent := records[parent].(children := records[parent].children + [child])];
      }
    }

    method UnlinkChild(child: nat)
      requires child in records
      modifies this
      ensures State() == Unlink(old(State()), child)
    {
      if records[child].parent.None? { return; }
      var p := records[child].parent.value;
      if p in records {
        records := records[p := records[p].(children := Without(records[p].children, {child}))];
      }
      records := records[child := records[child].(parent := None)];
    }

    /** `kill` up to its closing section: stop, kill the children of the moment, then give name and children up. */
    method StopProcess(pid: nat)
      requires Forest(State()) && Live(State(), pid)
      modifies this
      ensures Forest(State()) && pid in old(records) && State() == Order.KillInPlace(old(State()), pid)
      decreases nextPid - pid, 1
    {
      hide Forest;
      ForestChildren(State(), pid); ForestParent(State(), pid);
      ghost var g, g1 := State(), BeginKill(State(), pid);
      var childPids := records[pid].children;
      records := records[pid := records[pid].(state := Stopping)];
      KillListed(childPids, pid);
      records := records[pid := records[pid].(state := Killed)];
      byName := byName - {records[pid].name};
      records := records[pid := records[pid].(children := [])];
      ghost var g2 := KillAll(g1, childPids, pid);
      assert State() == KillEnd(g2, pid);
      assert State() == Order.KillInPlace(g, pid) by { hide KillAll, BeginKill, KillEnd; }
    }

    /** `kill(pid, auto_restart=False)`; false when it raises. */
    method Kill(pid: nat) returns (ok: bool)
      requires Forest(State())
      modifies this
      ensures Forest(State()) && State() == KillTree(old(State()), pid)
      ensures ok <==> Live(old(State()), pid)
      decreases nextPid - pid, 2
    {
      hide Forest, KillAll, BeginKill, KillEnd;
      if pid !in records || Terminal(records[pid].state) { return false; }
      StopProcess(pid);
      UnlinkKeeps(State(), pid);
      UnlinkChild(pid);
      return true;
    }

    /** `kill(pid)` by an operator, with restart; false when it raises. */
    method KillAndRestart(pid: nat) returns (ok: bool)
      requires Forest(State())
      modifies this
      ensures Forest(State()) && State() == Order.KillAndRestart(old(State()), scripts, pid)
      ensures Live(old(State()), pid) && !ok ==> State() == Order.KillInPlace(old(State()), pid)
      ensures !Live(old(State()), pid) ==> !ok
    {
      hide Forest, Order.KillInPlace, RestartChild, CanSpawn;
      if pid !in records || Terminal(records[pid].state) { return false; }
      StopProcess(pid);
      UnlinkKeeps(State(), pid);
      var parent := records[pid].parent;
      if parent.None? || parent.value !in records || !Alive(records[parent.value].state) {
        UnlinkChild(pid);
        return true;
      }
      var replacement := RestartChildNow(parent.value, pid);
      if replacement.None? { return false; }
      UnlinkKeeps(State(), pid);
      UnlinkChild(pid);
      return true;
    }

    /** Kills the listed processes one after the other, ignoring those already terminal. */
    method KillListed(pids: seq<nat>, above: nat)
      requires Forest(State()) && above <= nextPid && forall c | c in pids :: above < c < nextPid
      modifies this
      ensures Forest(State()) && State() == KillAll(old(State()), pids, above)
      decreases nextPid - above, 0
    {
      hide Forest, KillTree, KillAll;
      assert pids[0..] == pids;
      ghost var g := State();
      for i := 0 to |pids|
        invariant Forest(State()) && nextPid == old(nextPid) && forall c | c in pids[i..] :: c in pids
        invariant KillAll(g, pids, above) == KillAll(State(), pids[i..], above)
      {
        KillAllTurn(State(), pids[i..], above);
        assert pids[i..][0] == pids[i] && pids[i..][1..] == pids[i + 1..] && pids[i] in pids[i..];
        var _ := Kill(pids[i]);
      }
      assert pids[|pids|..] == [];
      KillAllNone(State(), above);
    }

    /** `_restart_child`; None when the replacement could not be started. */
    method RestartChildNow(parent: nat, child: nat) returns (replacement: Option<nat>)
      requires Forest(State()) && parent in records && child in records
      modifies this
      ensures replacement.Some? <==> CanSpawn(old(State()), scripts, old(records)[child].path, Some(parent))
      ensures replacement.Some? ==> replacement == Some(old(nextPid)) && State() == RestartChild(old(State()), scripts, parent, child)
      ensures replacement.None? ==> State() == old(State())
    {
      var was := records[child];
      ghost var g := State();
      replacement := RunPath(was.path, Some(parent), was.policy, true);
      if replacement.None? { return; }
      var f := replacement.value;
      SpawnEffect(g, scripts, was.path, parent, was.policy);
      hide Forest, Spawn, CanSpawn;
      records := records[f := records[f].(restartCount := was.restartCount + 1)];
      assert State() == SpawnReplacement(g, scripts, parent, child);
      var p := records[parent];
      var cs := p.children;
      if child in cs {
        cs := cs[IndexOf(cs, child) := f];
      } else if f !in cs {
        cs := cs + [f];
      }
      records := records[parent := p.(children := Dedupe(cs, {}))];
    }

    /** The restart loop of the crash handler. */
    method RecoverChildren(parent: nat, todo: seq<nat>)
      requires Forest(State()) && parent in records && forall c | c in todo :: c in records
      modifies this
      ensures Forest(State()) && State() == Recover(old(State()), scripts, parent, todo)
    {
      hide Forest, KillTree, RestartChild, CanSpawn;
      ghost var g := State();
      assert todo[0..] == todo;
      for i := 0 to |todo|
        invariant Forest(State()) && parent in records && forall c | c in todo[i..] :: c in records
        invariant Recover(g, scripts, parent, todo) == Recover(State(), scripts, parent, todo[i..])
      {
        assert todo[i..][0] == todo[i] && todo[i..][1..] == todo[i + 1..] && todo[i] in todo[i..];
        assert forall c | c in todo[i + 1..] :: c in todo[i..];
        if !Alive(records[parent].state) || records[todo[i]].parent != Some(parent) { return; }
        var _ := Kill(todo[i]);
        var replacement := RestartChildNow(parent, todo[i]);
        if replacement.None? { return; }
      }
      assert todo[|todo|..] == [];
    }

    method OrphanChildren(pid: nat)
      requires pid in records
      modifies this
      ensures State() == Orphan(old(State()), pid)
    {
      var cs := records[pid].children;
      for i := 0 to |cs|
        invariant byName == old(byName) && nextPid == old(nextPid) && records.Keys == old(records).Keys
        invariant forall q | q in records :: records[q] == if q in cs[..i] then old(records)[q].(parent := None) else old(records)[q]
      {
        if cs[i] in records { records := records[cs[i] := records[cs[i]].(parent := None)]; }
        assert cs[..i + 1] == cs[..i] + [cs[i]];
      }
      assert cs[..|cs|] == cs;
      records := records[pid := records[pid].(children := [])];
      assert State().records == Orphan(old(State()), pid).records;
    }

    /** `_handle_terminal_process`; `budget` is the supervisor's, `now` and `later` are its two clock readings. */
    method HandleTerminalProcess(pid: nat, budget: RestartBudget.Budget, now: real, later: real) returns (admitted: bool, attempts: nat)
      requires Forest(State()) && pid in records
      modifies this, budget
      ensures Forest(State()) && State() == HandleTerminal(old(State()), scripts, pid, admitted)
      ensures attempts == 0 ==> !admitted && budget.history == old(budget.history)
      ensures attempts > 0 ==>
                var recent := RestartBudget.Prune(old(budget.history), now, budget.window);
                && (admitted <==> |recent| + attempts <= budget.maxRestarts)
                && budget.history == recent + if admitted then RestartBudget.Stamps(later, attempts) else []
    {
      hide Forest, KillAll, Orphan, Unlink, Recover, Candidates, Affected, RestartBudget.Prune;
      admitted, attempts := false, 0;
      ghost var g := State();
      if records[pid].children != [] {
        ForestChildren(g, pid); ForestParent(g, pid);
        KillListed(records[pid].children, pid);
        OrphanChildren(pid);
      }
      ghost var g0 := Abandon(g, pid);
      assert State() == g0;
      if records[pid].parent.None? { return; }
      var parent := records[pid].parent.value;
      ForestParent(g0, pid);
      if !Alive(records[parent].state) { return; }
      var todo := Candidates(State(), Affected(records[parent], pid), records[pid].state == Crashed);
      attempts := |todo|;
      if todo != [] { admitted := budget.RestartBudgetAllows(now, attempts); }
      if !admitted {
        UnlinkChild(pid);
        UnlinkKeeps(g0, pid);
        assert budget.history + [] == budget.history;
        return;
      }
      budget.RecordRestartAttempts(later, attempts);
      records := records[parent := records[parent].(restartCount := records[parent].restartCount + |todo|)];
      assert State() == CountRestarts(g0, parent, |todo|);
      RecoverChildren(parent, todo);
    }
  }

  lemma KillAllNone(g: Registry, above: nat)
    requires Forest(g) && above <= g.nextPid
    ensures KillAll(g, [], above) == g
  {
  }
}
