/**
 Who owns a name. Overlapping kills, each of which drops the name of its target
 when it closes, can take the name of a process that registered it in between.
 This says exactly which steps do, in any interleaving.
 */
module SupervisionNames {
  import opened Prelude
  import opened Supervision
  import opened SupervisionKill

  predicate Bound(g: Registry, q: nat)
    requires q in g.records
  {
    g.records[q].name in g.byName && g.byName[g.records[q].name] == q
  }

  /** Every live process owns its name. */
  predicate OwnsNames(g: Registry) {
    forall q | q in g.records && !Terminal(g.records[q].state) :: Bound(g, q)
  }

  /**
   The guard of a step. A cleanup needs that nobody live holds the name it drops,
   the close of a kill that nobody live other than its target does, and a process
   that ended may come to life only while the name is still its own.
   */
  predicate NameSafe(g: Registry, s: Step) {
    match s
    case DoCleanup(pid) => pid in g.records && (g.records[pid].name in g.byName ==> !Live(g, g.byName[g.records[pid].name]))
    case DoKillEnd(pid) =>
      && pid in g.records
      && (g.records[pid].name in g.byName ==> g.byName[g.records[pid].name] == pid || !Live(g, g.byName[g.records[pid].name]))
    case DoState(pid, st) => pid in g.records && (Terminal(st) || Bound(g, pid))
    case _ => true
  }

  /** Same states and same names, whoever is linked to whom. */
  predicate SameOwners(g: Registry, h: Registry) {
    && h.records.Keys == g.records.Keys && h.byName == g.byName
    && forall q | q in g.records :: h.records[q].state == g.records[q].state && h.records[q].name == g.records[q].name
  }

  lemma SameOwnersKeep(g: Registry, h: Registry)
    requires SameOwners(g, h)
    ensures OwnsNames(h) <==> OwnsNames(g)
  {
    assert forall q | q in g.records :: Bound(h, q) <==> Bound(g, q);
  }

  lemma UnlinkOwners(g: Registry, c: nat)
    requires c in g.records
    ensures SameOwners(g, Unlink(g, c))
  {
    hide Without;
  }

  lemma ReplaceOwners(g: Registry, parent: nat, o: nat, f: nat)
    requires parent in g.records
    ensures SameOwners(g, Replace(g, parent, o, f))
  {
    hide Dedupe, IndexOf;
  }

  lemma OrphanOwners(g: Registry, pid: nat)
    requires pid in g.records
    ensures SameOwners(g, Orphan(g, pid))
  {
  }

  lemma LinkOwners(g: Registry, p: nat, c: nat)
    requires p in g.records && c in g.records
    ensures SameOwners(g, Link(g, p, c))
  {
  }

  lemma SpawnOwns(g: Registry, scripts: map<string, Script>, path: string, parent: Option<nat>, policy: RestartPolicy)
    requires Forest(g) && OwnsNames(g) && CanSpawn(g, scripts, path, parent)
    ensures OwnsNames(Spawn(g, scripts, path, parent, policy))
  {
    if g.nextPid in g.records { ForestParent(g, g.nextPid); }
    hide Forest, Link;
    var r := Record(scripts[path].name, path, Starting, parent, [], policy, scripts[path].strategy, 0);
    var g1 := Registry(g.records[g.nextPid := r], g.byName[r.name := g.nextPid], g.nextPid + 1);
    forall q | q in g1.records && !Terminal(g1.records[q].state) ensures Bound(g1, q) {
      if q != g.nextPid { assert Bound(g, q); }
    }
    if parent.Some? {
      LinkOwners(g1, parent.value, g.nextPid);
      SameOwnersKeep(g1, Link(g1, parent.value, g.nextPid));
    }
  }

  lemma CleanupOwns(g: Registry, pid: nat)
    requires NamesMatch(g) && OwnsNames(g) && pid in g.records
    ensures OwnsNames(Cleanup(g, pid)) <==> NameSafe(g, DoCleanup(pid))
  {
    var h, n := Cleanup(g, pid), g.records[pid].name;
    if n in g.byName && Live(g, g.byName[n]) {
      assert !Bound(h, g.byName[n]);
    } else {
      forall q | q in h.records && !Terminal(h.records[q].state) ensures Bound(h, q) { assert Bound(g, q); }
    }
  }

  lemma KillEndOwns(g: Registry, pid: nat)
    requires NamesMatch(g) && OwnsNames(g) && pid in g.records
    ensures OwnsNames(KillEnd(g, pid)) <==> NameSafe(g, DoKillEnd(pid))
  {
    var h, n := KillEnd(g, pid), g.records[pid].name;
    if n in g.byName && g.byName[n] != pid && Live(g, g.byName[n]) {
      assert !Bound(h, g.byName[n]);
    } else {
      forall q | q in h.records && !Terminal(h.records[q].state) ensures Bound(h, q) { assert Bound(g, q); }
    }
  }

  lemma StateOwns(g: Registry, pid: nat, st: ProcState)
    requires OwnsNames(g) && pid in g.records
    ensures OwnsNames(SetState(g, pid, st)) <==> NameSafe(g, DoState(pid, st))
  {
    var h := SetState(g, pid, st);
    if NameSafe(g, DoState(pid, st)) {
      forall q | q in h.records && !Terminal(h.records[q].state) ensures Bound(h, q) { if q != pid { assert Bound(g, q); } }
    } else {
      assert !Bound(h, pid);
    }
  }

  /** A step keeps every live process the owner of its name exactly when its guard holds. */
  lemma StepOwnsIff(g: Registry, scripts: map<string, Script>, s: Step)
    requires Forest(g) && NamesMatch(g) && OwnsNames(g) && Enabled(g, scripts, s)
    ensures OwnsNames(Apply(g, scripts, s)) <==> NameSafe(g, s)
  {
    hide Forest, NamesMatch, OwnsNames, Spawn, Unlink, Orphan, Replace, KillEnd, Cleanup, SetState;
    match s
    case DoSpawn(path, parent, policy) => SpawnOwns(g, scripts, path, parent, policy);
    case DoFailedSpawn => SameOwnersKeep(g, g.(nextPid := g.nextPid + 1));
    case DoState(pid, st) => StateOwns(g, pid, st);
    case DoRestartCount(pid, n) => SameOwnersKeep(g, Put(g, pid, g.records[pid].(restartCount := n)));
    case DoCleanup(pid) => CleanupOwns(g, pid);
    case DoKillEnd(pid) => KillEndOwns(g, pid);
    case DoUnlink(pid) => UnlinkOwners(g, pid); SameOwnersKeep(g, Unlink(g, pid));
    case DoOrphan(pid) => OrphanOwners(g, pid); SameOwnersKeep(g, Orphan(g, pid));
    case DoReplace(parent, o, f) => ReplaceOwners(g, parent, o, f); SameOwnersKeep(g, Replace(g, parent, o, f));
  }

  function After(g: Registry, scripts: map<string, Script>, s: Step): Registry {
    if Enabled(g, scripts, s) then Apply(g, scripts, s) else g
  }

  /** Every live process owns its name before, between and after the steps of a schedule. */
  predicate OwnsThroughout(g: Registry, scripts: map<string, Script>, steps: seq<Step>)
    decreases |steps|
  {
    OwnsNames(g) && (steps != [] ==> OwnsThroughout(After(g, scripts, steps[0]), scripts, steps[1..]))
  }

  /** Every step of the schedule that happens meets its guard when it happens. */
  predicate SafeThroughout(g: Registry, scripts: map<string, Script>, steps: seq<Step>)
    decreases |steps|
  {
    steps != [] ==>
      && (Enabled(g, scripts, steps[0]) ==> NameSafe(g, steps[0]))
      && SafeThroughout(After(g, scripts, steps[0]), scripts, steps[1..])
  }

  /**
   Names over whole schedules: in any interleaving of any number of tasks, live
   processes own their names at every point if and only if no cleanup or close of
   a kill happens while somebody else alive holds the name it drops (and no ended
   process comes back to life without its name).
   */
  lemma {:induction false} NamesOwnedIff(g: Registry, scripts: map<string, Script>, steps: seq<Step>)
    requires Forest(g) && NamesMatch(g) && OwnsNames(g)
    ensures OwnsThroughout(g, scripts, steps) <==> SafeThroughout(g, scripts, steps)
    decreases |steps|
  {
    hide Forest, NamesMatch, OwnsNames, NameSafe, Apply, Enabled, PidsKept;
    if steps != [] {
      var next := After(g, scripts, steps[0]);
      if Enabled(g, scripts, steps[0]) {
        StepOwnsIff(g, scripts, steps[0]);
        StepKeepsForest(g, scripts, steps[0]);
        StepKeepsNames(g, scripts, steps[0]);
      }
      if OwnsNames(next) { NamesOwnedIff(next, scripts, steps[1..]); } else { assert !OwnsThroughout(next, scripts, steps[1..]); }
    } else {
      assert OwnsThroughout(g, scripts, []);
    }
  }

  /** From the empty registry on. */
  lemma NamesOwnedFromStart(scripts: map<string, Script>, steps: seq<Step>)
    ensures OwnsThroughout(Empty, scripts, steps) <==> SafeThroughout(Empty, scripts, steps)
  {
    NamesOwnedIff(Empty, scripts, steps);
  }
}
