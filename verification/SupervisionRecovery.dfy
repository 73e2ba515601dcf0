/**
 Recovery after a child crashed: which siblings are restarted, in which order,
 and what the supervisor's child list looks like afterwards.
 */
module SupervisionRecovery {
  import opened Prelude
  import opened Supervision
  import opened SupervisionKill

  predicate PolicyAllows(p: RestartPolicy, abnormal: bool) {
    p != Temporary && (p == Transient ==> abnormal)
  }

  function Affected(parent: Record, failed: nat): seq<nat> {
    if failed !in parent.children then [failed]
    else
      match parent.strategy
      case OneForAll => parent.children
      case RestForOne => parent.children[IndexOf(parent.children, failed)..]
      case OneForOne => [failed]
  }

  function Candidates(g: Registry, pids: seq<nat>, abnormal: bool): (r: seq<nat>)
    ensures forall c | c in r :: c in pids && c in g.records
  {
    if pids == [] then []
    else (if pids[0] in g.records && PolicyAllows(g.records[pids[0]].policy, abnormal) then [pids[0]] else []) + Candidates(g, pids[1..], abnormal)
  }

  /** The record a restart of `old` starts from. */
  function Reborn(scripts: map<string, Script>, old_: Record, parent: nat): Record
    requires old_.path in scripts
  {
    Record(scripts[old_.path].name, old_.path, Starting, Some(parent), [], old_.policy, scripts[old_.path].strategy, old_.restartCount + 1)
  }

  /** The first half of `_restart_child`: a spawned replacement that carries the restart count on. */
  function SpawnReplacement(g: Registry, scripts: map<string, Script>, parent: nat, child: nat): (h: Registry)
    requires Forest(g) && child in g.records && CanSpawn(g, scripts, g.records[child].path, Some(parent))
    ensures Forest(h) && g.records.Keys <= h.records.Keys && g.nextPid in h.records && h.records[g.nextPid].parent == Some(parent)
  {
    var old_ := g.records[child];
    SpawnKeeps(g, scripts, old_.path, Some(parent), old_.policy);
    var g1 := Spawn(g, scripts, old_.path, Some(parent), old_.policy);
    StepKeepsForest(g1, scripts, DoRestartCount(g.nextPid, old_.restartCount + 1));
    Put(g1, g.nextPid, g1.records[g.nextPid].(restartCount := old_.restartCount + 1))
  }

  /** `_restart_child`: the replacement takes the old child's slot. */
  function RestartChild(g: Registry, scripts: map<string, Script>, parent: nat, child: nat): (h: Registry)
    requires Forest(g) && child in g.records && CanSpawn(g, scripts, g.records[child].path, Some(parent))
    ensures Forest(h) && g.records.Keys <= h.records.Keys
  {
    var g1 := SpawnReplacement(g, scripts, parent, child);
    ReplaceKeeps(g1, parent, child, g.nextPid);
    Replace(g1, parent, child, g.nextPid)
  }

  /** The restart loop of `_handle_terminal_process`; it stops when the parent dies or a restart fails. */
  function Recover(g: Registry, scripts: map<string, Script>, parent: nat, todo: seq<nat>): (h: Registry)
    requires Forest(g) && parent in g.records && forall c | c in todo :: c in g.records
    ensures Forest(h)
    decreases |todo|
  {
    if todo == [] then g
    else
      assert todo[0] in todo && forall c | c in todo[1..] :: c in todo;
      if !Alive(g.records[parent].state) || g.records[todo[0]].parent != Some(parent) then g
      else
        var g1 := KillTree(g, todo[0]);
        if !CanSpawn(g1, scripts, g1.records[todo[0]].path, Some(parent)) then g1
        else Recover(RestartChild(g1, scripts, parent, todo[0]), scripts, parent, todo[1..])
  }

  /** `_terminate_children_of_terminal_parent` */
  function Abandon(g: Registry, pid: nat): (h: Registry)
    requires Forest(g) && pid in g.records
    ensures Forest(h) && h.nextPid == g.nextPid && h.records.Keys == g.records.Keys
  {
    if g.records[pid].children == [] then g
    else
      ForestChildren(g, pid); ForestParent(g, pid);
      var g1 := KillAll(g, g.records[pid].children, pid);
      OrphanKeeps(g1, pid);
      Orphan(g1, pid)
  }

  /** `_handle_terminal_process` without interleaving; `admitted` is the restart budget's answer. */
  function HandleTerminal(g: Registry, scripts: map<string, Script>, pid: nat, admitted: bool): (h: Registry)
    requires Forest(g) && pid in g.records
    ensures Forest(h)
  {
    var g0 := Abandon(g, pid);
    var r := g0.records[pid];
    if r.parent.None? then g0
    else
      var parent := r.parent.value;
      ForestParent(g0, pid);
      if !Alive(g0.records[parent].state) then g0
      else
        var todo := Candidates(g0, Affected(g0.records[parent], pid), r.state == Crashed);
        UnlinkKeeps(g0, pid);
        if todo == [] || !admitted then Unlink(g0, pid)
        else
          var g1 := CountRestarts(g0, parent, |todo|);
          Recover(g1, scripts, parent, todo)
  }

  /** `_record_restart_attempts` on the parent's record. */
  function CountRestarts(g: Registry, parent: nat, n: nat): (h: Registry)
    requires Forest(g) && parent in g.records
    ensures Forest(h) && h.records.Keys == g.records.Keys
  {
    ForestChildren(g, parent);
    PutKeeps(g, parent, g.records[parent].(restartCount := g.records[parent].restartCount + n));
    Put(g, parent, g.records[parent].(restartCount := g.records[parent].restartCount + n))
  }

  // ----- one restart -----------------------------------------------------

  /** The supervisor's list after one child is restarted as `replacement`: a crashed child keeps its slot, a killed one moves last. */
  function NextList(xs: seq<nat>, c: nat, crashed: bool, replacement: nat): seq<nat> {
    if crashed && c in xs then xs[IndexOf(xs, c) := replacement] else Without(xs, {c}) + [replacement]
  }

  lemma {:induction false} DedupeAppend(xs: seq<nat>, y: nat, seen: set<nat>)
    requires y in xs || y in seen
    ensures Dedupe(xs + [y], seen) == Dedupe(xs, seen)
    decreases |xs|
  {
    if xs == [] {
      assert xs + [y] == [y] && [y][1..] == [];
    } else {
      assert (xs + [y])[1..] == xs[1..] + [y];
      DedupeAppend(xs[1..], y, if xs[0] in seen then seen else seen + {xs[0]});
    }
  }

  lemma {:induction false} IndexOfAppend(xs: seq<nat>, y: nat, x: nat)
    requires x in xs
    ensures IndexOf(xs + [y], x) == IndexOf(xs, x)
    decreases |xs|
  {
    assert (xs + [y])[1..] == xs[1..] + [y];
    if xs[0] != x { IndexOfAppend(xs[1..], y, x); }
  }

  lemma SlotTaken(xs: seq<nat>, c: nat, fresh_: nat)
    requires NoDup(xs) && c in xs && fresh_ !in xs
    ensures Dedupe((xs + [fresh_])[IndexOf(xs + [fresh_], c) := fresh_], {}) == xs[IndexOf(xs, c) := fresh_]
  {
    IndexOfAppend(xs, fresh_, c);
    var i := IndexOf(xs, c);
    var ys := xs[i := fresh_];
    assert ys[i] == fresh_;
    assert (xs + [fresh_])[i := fresh_] == ys + [fresh_];
    DedupeAppend(ys, fresh_, {});
  }

  lemma {:induction false} WithoutAgree(xs: seq<nat>, a: set<nat>, b: set<nat>)
    requires forall x | x in xs :: x in a <==> x in b
    ensures Without(xs, a) == Without(xs, b)
  {
    if xs != [] {
      assert xs[0] in xs && forall x | x in xs[1..] :: x in xs;
      WithoutAgree(xs[1..], a, b);
    }
  }

  /** Nothing below one child is a sibling of it, or a child of a sibling. */
  lemma SiblingsApart(g: Registry, parent: nat, c: nat, d: nat)
    requires Forest(g) && parent in g.records && c in g.records[parent].children && d in g.records[parent].children && c != d
    ensures !Below(g, c, d) && !Below(g, c, parent)
    ensures forall e | e in g.records[d].children :: !Below(g, c, e)
  {
    ForestChildren(g, parent); ForestChildren(g, d);
    if Below(g, c, parent) { BelowBounds(g, c, parent); }
    assert !Below(g, c, d);
    assert forall e | e in g.records[d].children :: e in g.records && g.records[e].parent == Some(d);
  }

  /** Killing one live child touches its own subtree and its slot in the parent's list. */
  lemma KillOneChild(g: Registry, parent: nat, c: nat)
    requires Forest(g) && Calm(g, None) && parent in g.records && c in g.records[parent].children && Live(g, c)
    ensures var g1 := KillTree(g, c);
            && Calm(g1, None)
            && g1.records[parent] == g.records[parent].(children := Without(g.records[parent].children, {c}))
            && g1.records[c] == Struck(g.records[c], c, {c})
            && g.records[c].name !in g1.byName && g1.byName.Keys <= g.byName.Keys
            && forall d | d in g.records[parent].children && d != c :: g1.records[d] == g.records[d]
  {
    KillIsBulk(g, None, c);
    BulkCalm(g, None, {c});
    var dead := Doomed(g, {c});
    ForestChildren(g, parent);
    DoomedSelf(g, c);
    StruckParent(g, parent, c, dead);
    forall d | d in g.records[parent].children && d != c ensures Struck(g.records[d], d, dead) == g.records[d] {
      StruckSibling(g, parent, c, d, dead);
    }
    BulkNames(g, dead, c);
    hide Doomed, Calm, Live, Forest, Struck, Without, KillTree;
  }

  lemma DoomedSelf(g: Registry, c: nat)
    requires Forest(g) && Live(g, c)
    ensures c in Doomed(g, {c})
  {
    assert Below(g, c, c);
  }

  lemma StruckParent(g: Registry, parent: nat, c: nat, dead: set<nat>)
    requires Forest(g) && parent in g.records && c in g.records[parent].children && Live(g, c) && dead == Doomed(g, {c})
    ensures Struck(g.records[parent], parent, dead) == g.records[parent].(children := Without(g.records[parent].children, {c}))
    ensures Struck(g.records[c], c, dead) == Struck(g.records[c], c, {c})
  {
    ForestChildren(g, parent);
    DoomedSelf(g, c);
    OlderSurvives(g, {c}, parent, parent);
    var xs := g.records[parent].children;
    forall x | x in xs ensures x in dead <==> x in {c} { if x != c { SiblingsApart(g, parent, c, x); } }
    WithoutAgree(xs, dead, {c});
  }

  lemma StruckSibling(g: Registry, parent: nat, c: nat, d: nat, dead: set<nat>)
    requires Forest(g) && parent in g.records && c in g.records[parent].children && d in g.records[parent].children && c != d
    requires d in g.records && dead == Doomed(g, {c})
    ensures Struck(g.records[d], d, dead) == g.records[d]
  {
    SiblingsApart(g, parent, c, d);
    assert d !in dead && forall e | e in g.records[d].children :: e !in dead;
  }

  lemma BulkNames(g: Registry, dead: set<nat>, c: nat)
    requires c in dead && c in g.records
    ensures g.records[c].name !in Bulk(g, dead).byName && Bulk(g, dead).byName.Keys <= g.byName.Keys
  {
    assert NamedIn(g, dead, g.records[c].name);
  }

  function Slot(xs: seq<nat>, c: nat, replacement: nat): seq<nat> {
    if c in xs then xs[IndexOf(xs, c) := replacement] else xs + [replacement]
  }

  /** A restart rewrites the parent's list, adds the reborn record and binds its name; nothing else changes. */
  function Restarted(g: Registry, scripts: map<string, Script>, parent: nat, c: nat): Registry
    requires c in g.records && CanSpawn(g, scripts, g.records[c].path, Some(parent))
  {
    var r := Reborn(scripts, g.records[c], parent);
    var p := g.records[parent].(children := Slot(g.records[parent].children, c, g.nextPid));
    Registry(g.records[g.nextPid := r][parent := p], g.byName[r.name := g.nextPid], g.nextPid + 1)
  }

  lemma SpawnEffect(g: Registry, scripts: map<string, Script>, path: string, parent: nat, policy: RestartPolicy)
    requires Forest(g) && CanSpawn(g, scripts, path, Some(parent))
    ensures g.nextPid !in g.records && g.nextPid !in g.records[parent].children && parent != g.nextPid
    ensures var r := Record(scripts[path].name, path, Starting, Some(parent), [], policy, scripts[path].strategy, 0);
            Spawn(g, scripts, path, Some(parent), policy) ==
              Registry(g.records[g.nextPid := r][parent := g.records[parent].(children := g.records[parent].children + [g.nextPid])],
                       g.byName[r.name := g.nextPid], g.nextPid + 1)
  {
    ForestParent(g, parent); ForestChildren(g, parent);
    if g.nextPid in g.records { ForestParent(g, g.nextPid); }
    hide Forest;
    var f := g.nextPid;
    var r := Record(scripts[path].name, path, Starting, Some(parent), [], policy, scripts[path].strategy, 0);
    var g1 := Registry(g.records[f := r], g.byName[r.name := f], f + 1);
    assert Put(g1, f, r) == g1;
  }

  lemma ReplaceEffect(xs: seq<nat>, c: nat, f: nat)
    requires NoDup(xs) && f !in xs && c != f
    ensures var ys := xs + [f];
            Dedupe(if c in ys then ys[IndexOf(ys, c) := f] else ys, {}) == Slot(xs, c, f)
  {
    if c in xs { SlotTaken(xs, c, f); } else { assert NoDup(xs + [f]); }
  }

  lemma RestartEffect(g: Registry, scripts: map<string, Script>, parent: nat, c: nat)
    requires Forest(g) && c in g.records && CanSpawn(g, scripts, g.records[c].path, Some(parent))
    ensures RestartChild(g, scripts, parent, c) == Restarted(g, scripts, parent, c) && g.nextPid !in g.records && parent != g.nextPid
  {
    var f, xs := g.nextPid, g.records[parent].children;
    SpawnedIs(g, scripts, parent, c);
    ForestChildren(g, parent);
    SpawnEffect(g, scripts, g.records[c].path, parent, g.records[c].policy);
    hide Forest, SpawnReplacement, Spawn, CanSpawn, NoDup, IndexOf;
    var h := SpawnReplacement(g, scripts, parent, c);
    ReplaceSlot(h, parent, c, f, xs);
    hide Slot, Replace;
    var p := g.records[parent];
    PutTwice(g.records[f := Reborn(scripts, g.records[c], parent)], parent, p.(children := xs + [f]), p.(children := Slot(xs, c, f)));
    assert h.records[parent] == p.(children := xs + [f]);
    hide Reborn;
  }

  lemma PutTwice<V>(m: map<nat, V>, p: nat, a: V, b: V)
    ensures m[p := a][p := b] == m[p := b]
  {
  }

  lemma SpawnedIs(g: Registry, scripts: map<string, Script>, parent: nat, c: nat)
    requires Forest(g) && c in g.records && CanSpawn(g, scripts, g.records[c].path, Some(parent))
    ensures var r := Reborn(scripts, g.records[c], parent);
            SpawnReplacement(g, scripts, parent, c) ==
              Registry(g.records[g.nextPid := r][parent := g.records[parent].(children := g.records[parent].children + [g.nextPid])],
                       g.byName[r.name := g.nextPid], g.nextPid + 1)
  {
    SpawnEffect(g, scripts, g.records[c].path, parent, g.records[c].policy);
    hide Forest, Spawn, CanSpawn;
  }

  lemma ReplaceSlot(g: Registry, parent: nat, c: nat, f: nat, xs: seq<nat>)
    requires parent in g.records && g.records[parent].children == xs + [f] && NoDup(xs) && f !in xs && c != f
    ensures Replace(g, parent, c, f) == Put(g, parent, g.records[parent].(children := Slot(xs, c, f)))
  {
    ReplaceEffect(xs, c, f);
    hide Dedupe, Slot, IndexOf, NoDup;
  }

  /** A listed child that can be restarted: its script still has its name; the crashed one has given its name up, the others run. */
  predicate Ready(g: Registry, scripts: map<string, Script>, parent: nat, failed: nat, c: nat) {
    && parent in g.records && c in g.records && c in g.records[parent].children
    && g.records[c].path in scripts && scripts[g.records[c].path].name == g.records[c].name
    && if c == failed then Terminal(g.records[c].state) && g.records[c].name !in g.byName else Live(g, c)
  }

  predicate Supervising(g: Registry, parent: nat) {
    Forest(g) && Calm(g, None) && parent in g.records && Alive(g.records[parent].state)
  }

  /** A restart leaves the registry calm when no live process is left in the child's slot. */
  lemma RestartCalm(g: Registry, scripts: map<string, Script>, parent: nat, c: nat)
    requires Supervising(g, parent) && c in g.records && CanSpawn(g, scripts, g.records[c].path, Some(parent))
    requires Terminal(g.records[c].state)
    requires parent != g.nextPid && g.nextPid !in g.records
    ensures Calm(Restarted(g, scripts, parent, c), None)
  {
    var h, f, xs := Restarted(g, scripts, parent, c), g.nextPid, g.records[parent].children;
    SlotHas(xs, c, f);
    hide IndexOf, Slot;
    forall q | q in h.records && !Terminal(h.records[q].state) ensures Kept(h, None, q) {
      if q != f { assert Kept(g, None, q); }
    }
  }

  lemma SlotHas(xs: seq<nat>, c: nat, f: nat)
    ensures f in Slot(xs, c, f) && forall x | x in xs && x != c :: x in Slot(xs, c, f)
  {
    var ys := Slot(xs, c, f);
    if c in xs {
      var i := IndexOf(xs, c);
      assert ys[i] == f;
      forall x | x in xs && x != c ensures x in ys {
        var j :| 0 <= j < |xs| && xs[j] == x;
        assert ys[j] == x;
      }
    } else {
      assert ys[|xs|] == f;
    }
  }

  /** After the kill the child's name is free and the rest of the supervisor's family is as before. */
  lemma KilledReady(g: Registry, scripts: map<string, Script>, parent: nat, failed: nat, c: nat)
    requires Supervising(g, parent) && Ready(g, scripts, parent, failed, c)
    ensures var g1, xs := KillTree(g, c), g.records[parent].children;
            && Supervising(g1, parent) && CanSpawn(g1, scripts, g.records[c].path, Some(parent))
            && Terminal(g1.records[c].state) && g1.records[c] == g.records[c].(state := g1.records[c].state, parent := g1.records[c].parent, children := g1.records[c].children)
            && g1.records[parent] == g.records[parent].(children := if c == failed then xs else Without(xs, {c}))
            && (forall d | d in xs && d != c :: d in g1.records && g1.records[d] == g.records[d])
            && g1.byName.Keys <= g.byName.Keys
  {
    ForestChildren(g, parent);
    if c != failed { KillOneChild(g, parent, c); }
    hide Forest, Calm, Without;
  }

  /** One turn of the restart loop on a child that is ready. */
  lemma RestartStep(g: Registry, scripts: map<string, Script>, parent: nat, failed: nat, c: nat)
    requires Supervising(g, parent) && Ready(g, scripts, parent, failed, c)
    ensures var g1 := KillTree(g, c);
            && g1.records[c].path == g.records[c].path && CanSpawn(g1, scripts, g1.records[c].path, Some(parent))
            && var k := RestartChild(g1, scripts, parent, c);
            && Supervising(k, parent) && k.nextPid == g.nextPid + 1 && g.nextPid in k.records
            && k.records[parent] == g.records[parent].(children := NextList(g.records[parent].children, c, c == failed, g.nextPid))
            && k.records[g.nextPid] == Reborn(scripts, g.records[c], parent)
            && (forall d | d in g.records[parent].children && d != c :: d in k.records && k.records[d] == g.records[d])
            && forall n | n in k.byName :: n in g.byName || n == g.records[c].name
  {
    hide Forest, Calm, KillTree, IndexOf, Without, Restarted, RestartChild;
    KilledReady(g, scripts, parent, failed, c);
    var g1, xs, f := KillTree(g, c), g.records[parent].children, g.nextPid;
    RestartEffect(g1, scripts, parent, c);
    RestartCalm(g1, scripts, parent, c);
    RestartedAt(g1, scripts, parent, c);
    var k := RestartChild(g1, scripts, parent, c);
    ForestChildren(g, parent);
    forall d | d in xs && d != c ensures d in k.records && k.records[d] == g.records[d] {
      assert d != f && d != parent;
    }
  }

  lemma RestartedAt(g: Registry, scripts: map<string, Script>, parent: nat, c: nat)
    requires c in g.records && CanSpawn(g, scripts, g.records[c].path, Some(parent)) && parent != g.nextPid
    ensures var k := Restarted(g, scripts, parent, c);
            && k.nextPid == g.nextPid + 1 && k.records.Keys == g.records.Keys + {g.nextPid, parent}
            && k.records[parent] == g.records[parent].(children := Slot(g.records[parent].children, c, g.nextPid))
            && k.records[g.nextPid] == Reborn(scripts, g.records[c], parent)
            && (forall d | d in g.records && d != g.nextPid && d != parent :: k.records[d] == g.records[d])
            && k.byName.Keys == g.byName.Keys + {scripts[g.records[c].path].name}
  {
    hide Slot;
  }

  // ----- the whole recovery ----------------------------------------------

  /** The supervisor's list after restarting `todo` in order, with pids from `f` on. */
  function Lists(xs: seq<nat>, todo: seq<nat>, failed: nat, f: nat): seq<nat>
    decreases |todo|
  {
    if todo == [] then xs else Lists(NextList(xs, todo[0], todo[0] == failed, f), todo[1..], failed, f + 1)
  }

  /** `f` is the replacement of `c`. */
  predicate RebornAs(g: Registry, k: Registry, scripts: map<string, Script>, parent: nat, c: nat, f: nat) {
    f in k.records && c in g.records && g.records[c].path in scripts && k.records[f] == Reborn(scripts, g.records[c], parent)
  }

  predicate Untouched(g: Registry, k: Registry, d: nat) {
    d in g.records && d in k.records && k.records[d] == g.records[d]
  }

  /** Every child in `todo` has its replacement, the other listed children are untouched. */
  ghost predicate Replaced(g: Registry, k: Registry, scripts: map<string, Script>, parent: nat, todo: seq<nat>, failed: nat) {
    && Supervising(k, parent) && parent in g.records && k.nextPid == g.nextPid + |todo|
    && k.records[parent] == g.records[parent].(children := Lists(g.records[parent].children, todo, failed, g.nextPid))
    && (forall i | 0 <= i < |todo| :: RebornAs(g, k, scripts, parent, todo[i], g.nextPid + i))
    && forall d | d in g.records[parent].children && d !in todo :: Untouched(g, k, d)
  }

  lemma NextListHas(xs: seq<nat>, c: nat, crashed: bool, f: nat)
    ensures f in NextList(xs, c, crashed, f) && forall x | x in xs && x != c :: x in NextList(xs, c, crashed, f)
  {
    if crashed && c in xs {
      SlotHas(xs, c, f);
    } else {
      assert (Without(xs, {c}) + [f])[|Without(xs, {c})|] == f;
    }
  }

  lemma StillReady(g: Registry, k: Registry, scripts: map<string, Script>, parent: nat, failed: nat, c: nat, d: nat)
    requires Supervising(g, parent) && Ready(g, scripts, parent, failed, c) && Ready(g, scripts, parent, failed, d) && c != d
    requires parent in k.records && d in k.records && k.records[d] == g.records[d] && d in k.records[parent].children
    requires forall n | n in k.byName :: n in g.byName || n == g.records[c].name
    ensures Ready(k, scripts, parent, failed, d)
  {
    if d == failed { assert Kept(g, None, c); }
  }

  lemma {:induction false} RecoverAll(g: Registry, scripts: map<string, Script>, parent: nat, todo: seq<nat>, failed: nat)
    requires Supervising(g, parent) && NoDup(todo) && (forall c | c in todo :: c in g.records)
    requires forall c | c in todo :: Ready(g, scripts, parent, failed, c)
    ensures Replaced(g, Recover(g, scripts, parent, todo), scripts, parent, todo, failed)
    decreases |todo|
  {
    if todo == [] {
      hide Forest, Calm;
      ForestChildren(g, parent);
    } else {
      ReadyListed(g, scripts, parent, failed, todo);
      hide Supervising, Ready, Replaced, Recover, RestartChild, KillTree, Lists, NextList, Reborn, CanSpawn, NoDup, RebornAs, Untouched, Forest, Calm;
      var c, rest := todo[0], todo[1..];
      RestReady(g, scripts, parent, todo, failed);
      var k := RestartChild(KillTree(g, c), scripts, parent, c);
      RestNoDup(todo);
      RecoverAll(k, scripts, parent, rest, failed);
      RecoverTurn(g, scripts, parent, todo, failed);
      ReplacedTurn(g, k, Recover(k, scripts, parent, rest), scripts, parent, todo, failed);
    }
  }

  lemma ReadyListed(g: Registry, scripts: map<string, Script>, parent: nat, failed: nat, todo: seq<nat>)
    requires Supervising(g, parent) && forall c | c in todo :: Ready(g, scripts, parent, failed, c)
    ensures Forest(g) && parent in g.records && (forall c | c in todo :: c in g.records[parent].children)
    ensures forall c | c in g.records[parent].children :: c < g.nextPid
  {
    ForestChildren(g, parent);
  }

  /** One turn leaves the rest of the loop's children ready. */
  lemma RestReady(g: Registry, scripts: map<string, Script>, parent: nat, todo: seq<nat>, failed: nat)
    requires Supervising(g, parent) && NoDup(todo) && todo != [] && forall c | c in todo :: Ready(g, scripts, parent, failed, c)
    ensures todo[0] in todo && todo[0] in g.records && g.records[todo[0]].parent == Some(parent)
    ensures var g1 := KillTree(g, todo[0]);
            && CanSpawn(g1, scripts, g1.records[todo[0]].path, Some(parent))
            && var k := RestartChild(g1, scripts, parent, todo[0]);
            && Supervising(k, parent) && k.nextPid == g.nextPid + 1
            && k.records[parent] == g.records[parent].(children := NextList(g.records[parent].children, todo[0], todo[0] == failed, g.nextPid))
            && RebornAs(g, k, scripts, parent, todo[0], g.nextPid)
            && (forall d | d in g.records[parent].children && d != todo[0] :: Untouched(g, k, d))
            && forall d | d in todo[1..] :: d in k.records && Ready(k, scripts, parent, failed, d)
  {
    var c, rest := todo[0], todo[1..];
    assert c in todo && forall d | d in rest :: d in todo;
    assert c !in rest;
    hide NoDup, KillTree, RestartChild, Reborn, NextList, CanSpawn, Forest, Calm;
    ForestChildren(g, parent);
    RestartStep(g, scripts, parent, failed, c);
    NextListHas(g.records[parent].children, c, c == failed, g.nextPid);
    var k := RestartChild(KillTree(g, c), scripts, parent, c);
    forall d | d in rest ensures d in k.records && Ready(k, scripts, parent, failed, d) { StillReady(g, k, scripts, parent, failed, c, d); }
  }

  lemma RestNoDup(xs: seq<nat>)
    requires NoDup(xs) && xs != []
    ensures NoDup(xs[1..])
  {
  }

  lemma RecoverTurn(g: Registry, scripts: map<string, Script>, parent: nat, todo: seq<nat>, failed: nat)
    requires Supervising(g, parent) && todo != [] && (forall c | c in todo :: c in g.records) && g.records[todo[0]].parent == Some(parent)
    requires var g1 := KillTree(g, todo[0]); CanSpawn(g1, scripts, g1.records[todo[0]].path, Some(parent))
    requires forall c | c in todo[1..] :: c in RestartChild(KillTree(g, todo[0]), scripts, parent, todo[0]).records
    ensures Recover(g, scripts, parent, todo) == Recover(RestartChild(KillTree(g, todo[0]), scripts, parent, todo[0]), scripts, parent, todo[1..])
  {
    ForestChildren(g, parent);
    assert todo[0] in todo && forall c | c in todo[1..] :: c in todo;
    hide Forest, Calm, KillTree, RestartChild, CanSpawn;
  }

  lemma ReplacedTurn(g: Registry, k: Registry, h: Registry, scripts: map<string, Script>, parent: nat, todo: seq<nat>, failed: nat)
    requires parent in g.records && NoDup(todo) && todo != [] && (forall c | c in todo :: c in g.records[parent].children)
    requires forall c | c in g.records[parent].children :: c < g.nextPid
    requires parent in k.records && k.nextPid == g.nextPid + 1
    requires k.records[parent] == g.records[parent].(children := NextList(g.records[parent].children, todo[0], todo[0] == failed, g.nextPid))
    requires RebornAs(g, k, scripts, parent, todo[0], g.nextPid)
    requires forall d | d in g.records[parent].children && d != todo[0] :: Untouched(g, k, d)
    requires Replaced(k, h, scripts, parent, todo[1..], failed)
    ensures Replaced(g, h, scripts, parent, todo, failed)
  {
    hide Supervising, NextList, Lists, RebornAs, Untouched;
    var c, rest, f := todo[0], todo[1..], g.nextPid;
    var xs := g.records[parent].children;
    assert forall d | d in rest :: d in todo;
    NextListHas(xs, c, c == failed, f);
    ListsTurn(xs, todo, failed, f);
    assert f !in rest && c !in rest;
    hide NoDup;
    forall i | 0 <= i < |todo| ensures RebornAs(g, h, scripts, parent, todo[i], f + i) {
      if i > 0 {
        var j: nat := i - 1;
        assert RebornAs(k, h, scripts, parent, rest[j], k.nextPid + j);
        RebornEarlier(g, k, h, scripts, parent, rest[j], f + i);
      } else {
        assert Untouched(k, h, f);
        RebornLater(g, k, h, scripts, parent, c, f);
      }
    }
    forall d | d in xs && d !in todo ensures Untouched(g, h, d) { UntouchedTwice(g, k, h, d); }
  }

  lemma RebornEarlier(g: Registry, k: Registry, h: Registry, scripts: map<string, Script>, parent: nat, c: nat, f: nat)
    requires Untouched(g, k, c) && RebornAs(k, h, scripts, parent, c, f)
    ensures RebornAs(g, h, scripts, parent, c, f)
  {
  }

  lemma RebornLater(g: Registry, k: Registry, h: Registry, scripts: map<string, Script>, parent: nat, c: nat, f: nat)
    requires RebornAs(g, k, scripts, parent, c, f) && Untouched(k, h, f)
    ensures RebornAs(g, h, scripts, parent, c, f)
  {
  }

  lemma UntouchedTwice(g: Registry, k: Registry, h: Registry, d: nat)
    requires Untouched(g, k, d) && Untouched(k, h, d)
    ensures Untouched(g, h, d)
  {
  }

  lemma ListsTurn(xs: seq<nat>, todo: seq<nat>, failed: nat, f: nat)
    requires todo != []
    ensures Lists(xs, todo, failed, f) == Lists(NextList(xs, todo[0], todo[0] == failed, f), todo[1..], failed, f + 1)
  {
  }
}
