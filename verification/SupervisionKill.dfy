/**
 Recursive kill. The recursion follows child lists; its effect is stated over
 parent pointers, as one simultaneous update of every live process below the target.
 */
module SupervisionKill {
  import opened Prelude
  import opened Supervision

  /** The opening section of `kill`. */
  function BeginKill(g: Registry, pid: nat): (h: Registry)
    requires Forest(g) && pid in g.records
    ensures Forest(h) && h.nextPid == g.nextPid && h.records.Keys == g.records.Keys
  {
    StepKeepsForest(g, map[], DoState(pid, Stopping));
    SetState(g, pid, Stopping)
  }

  /** The closing section of a kill without restart. */
  function FinishKill(g: Registry, pid: nat): (h: Registry)
    requires Forest(g) && pid in g.records
    ensures Forest(h) && h.nextPid == g.nextPid && h.records.Keys == g.records.Keys
  {
    KillEndKeeps(g, pid);
    UnlinkKeeps(KillEnd(g, pid), pid);
    UnlinkRewrites(KillEnd(g, pid), pid);
    assert KillEnd(g, pid).records.Keys == g.records.Keys;
    Unlink(KillEnd(g, pid), pid)
  }

  /** `kill(pid, auto_restart=False)` run without interleaving; a terminal target is left alone. */
  function KillTree(g: Registry, pid: nat): (h: Registry)
    requires Forest(g)
    ensures Forest(h) && h.nextPid == g.nextPid && h.records.Keys == g.records.Keys
    decreases g.nextPid - pid, 1
  {
    if pid !in g.records || Terminal(g.records[pid].state) then g
    else
      ForestChildren(g, pid);
      ForestParent(g, pid);
      FinishKill(KillAll(BeginKill(g, pid), g.records[pid].children, pid), pid)
  }

  /** Kills the listed processes, all younger than `above`, in order. */
  function KillAll(g: Registry, pids: seq<nat>, above: nat): (h: Registry)
    requires Forest(g) && above <= g.nextPid && forall c | c in pids :: above < c < g.nextPid
    ensures Forest(h) && h.nextPid == g.nextPid && h.records.Keys == g.records.Keys
    decreases g.nextPid - above, 0, |pids|
  {
    if pids == [] then g
    else
      assert pids[0] in pids && forall c | c in pids[1..] :: c in pids;
      KillAll(KillTree(g, pids[0]), pids[1..], above)
  }

  function Members(xs: seq<nat>): set<nat> { set x | x in xs }

  // ----- what a kill does ------------------------------------------------

  /** `q` is `a` or reaches it along parent pointers. */
  predicate Below(g: Registry, a: nat, q: nat)
    requires Forest(g)
    decreases q
  {
    q == a || (q in g.records && g.records[q].parent.Some? && (ForestParent(g, q); Below(g, a, g.records[q].parent.value)))
  }

  predicate Live(g: Registry, q: nat) {
    q in g.records && !Terminal(g.records[q].state)
  }

  /**
   Every live process owns its name, and its parent, if it has one, is live and
   lists it. While `gone` is being handled as crashed, its children may outlive it.
   */
  predicate Calm(g: Registry, gone: Option<nat>) {
    forall q | q in g.records && !Terminal(g.records[q].state) :: Kept(g, gone, q)
  }

  predicate Kept(g: Registry, gone: Option<nat>, q: nat)
    requires q in g.records
  {
    var r := g.records[q];
    && r.name in g.byName && g.byName[r.name] == q
    && (r.parent.Some? ==>
          && r.parent.value in g.records && q in g.records[r.parent.value].children
          && (Live(g, r.parent.value) || gone == r.parent))
  }

  /** Every target is younger than the crashed process, if there is one. */
  predicate Younger(gone: Option<nat>, targets: set<nat>) {
    gone.Some? ==> forall a | a in targets :: gone.value < a
  }

  /** What killing `dead` makes of record `q`: reset if it dies, else its dead children leave its list. */
  function Struck(r: Record, q: nat, dead: set<nat>): Record {
    if q in dead then r.(state := Killed, parent := None, children := [])
    else r.(children := Without(r.children, dead))
  }

  predicate NamedIn(g: Registry, dead: set<nat>, n: string) {
    exists q | q in dead :: q in g.records && g.records[q].name == n
  }

  /** Kills a set of processes at once: no recursion, no order. */
  function Bulk(g: Registry, dead: set<nat>): (h: Registry)
    ensures h.records.Keys == g.records.Keys && h.nextPid == g.nextPid
  {
    Registry(map q | q in g.records :: Struck(g.records[q], q, dead), map n | n in g.byName && !NamedIn(g, dead, n) :: g.byName[n], g.nextPid)
  }

  /** Every live process below one of the targets. */
  function Doomed(g: Registry, targets: set<nat>): set<nat>
    requires Forest(g)
  {
    set q | q in g.records && !Terminal(g.records[q].state) && exists a | a in targets :: Below(g, a, q)
  }

  lemma {:induction false} WithoutTwice(xs: seq<nat>, a: set<nat>, b: set<nat>)
    ensures Without(Without(xs, a), b) == Without(xs, a + b)
  {
    if xs != [] { WithoutTwice(xs[1..], a, b); }
  }

  lemma BulkTwice(g: Registry, a: set<nat>, b: set<nat>)
    ensures Bulk(Bulk(g, a), b) == Bulk(g, a + b)
  {
    var l, r := Bulk(Bulk(g, a), b), Bulk(g, a + b);
    forall q | q in g.records ensures l.records[q] == r.records[q] {
      WithoutTwice(g.records[q].children, a, b);
    }
    hide Without;
    assert l.records == r.records;
    forall n ensures NamedIn(Bulk(g, a), b, n) == NamedIn(g, b, n) { }
    forall n ensures NamedIn(g, a + b, n) == (NamedIn(g, a, n) || NamedIn(g, b, n)) { }
    hide NamedIn, Struck;
    assert l.byName == r.byName;
  }

  // ----- reaching along parent pointers ----------------------------------

  lemma {:induction false} BelowBounds(g: Registry, a: nat, q: nat)
    requires Forest(g) && Below(g, a, q)
    ensures a <= q
    decreases q
  {
    if q != a { ForestParent(g, q); BelowBounds(g, a, g.records[q].parent.value); }
  }

  lemma {:induction false} BelowTrans(g: Registry, a: nat, b: nat, q: nat)
    requires Forest(g) && Below(g, a, b) && Below(g, b, q)
    ensures Below(g, a, q)
    decreases q
  {
    if q != b { ForestParent(g, q); BelowTrans(g, a, b, g.records[q].parent.value); }
  }

  /** A live process strictly below another is below one of its listed children. */
  lemma {:induction false} BelowChild(g: Registry, gone: Option<nat>, a: nat, q: nat)
    requires Forest(g) && Calm(g, gone) && Live(g, q) && Below(g, a, q) && q != a && Younger(gone, {a})
    ensures a in g.records && exists c | c in g.records[a].children :: Below(g, c, q)
    decreases q
  {
    var p := g.records[q].parent.value;
    ForestParent(g, q);
    BelowBounds(g, a, p);
    assert Kept(g, gone, q);
    if p == a {
      assert Below(g, q, q);
    } else {
      BelowChild(g, gone, a, p);
      var c :| c in g.records[a].children && Below(g, c, p);
      assert Below(g, c, q);
    }
  }

  lemma DoomedChildren(g: Registry, gone: Option<nat>, pid: nat)
    requires Forest(g) && Calm(g, gone) && Live(g, pid) && Younger(gone, {pid})
    ensures Doomed(g, {pid}) == {pid} + Doomed(g, Members(g.records[pid].children))
  {
    var cs := Members(g.records[pid].children);
    ForestChildren(g, pid);
    forall q | q in Doomed(g, {pid}) && q != pid ensures q in Doomed(g, cs) {
      BelowChild(g, gone, pid, q);
    }
    forall q | q in Doomed(g, cs) ensures q in Doomed(g, {pid}) {
      var c :| c in cs && Below(g, c, q);
      assert Below(g, pid, c) by { assert Below(g, pid, pid); }
      BelowTrans(g, pid, c, q);
    }
    assert Below(g, pid, pid);
  }

  /** A live process that survives has a parent that survives. */
  lemma SurvivorParent(g: Registry, gone: Option<nat>, t: set<nat>, q: nat)
    requires Forest(g) && Calm(g, gone) && Live(g, q) && q !in Doomed(g, t) && g.records[q].parent.Some?
    ensures var p := g.records[q].parent.value;
            && p in g.records && p < q && p !in Doomed(g, t) && q in g.records[p].children && (Live(g, p) || gone == Some(p))
  {
    var p := g.records[q].parent.value;
    ForestParent(g, q);
    assert Kept(g, gone, q);
    assert forall a | a in t && Below(g, a, p) :: Below(g, a, q);
  }

  lemma {:induction false} BelowAfter(g: Registry, gone: Option<nat>, t: set<nat>, a: nat, q: nat)
    requires Forest(g) && Calm(g, gone) && Live(g, q) && q !in Doomed(g, t) && Forest(Bulk(g, Doomed(g, t))) && Younger(gone, {a})
    ensures Below(Bulk(g, Doomed(g, t)), a, q) == Below(g, a, q)
    decreases q
  {
    hide Without;
    if q != a && g.records[q].parent.Some? {
      SurvivorParent(g, gone, t, q);
      var h, p := Bulk(g, Doomed(g, t)), g.records[q].parent.value;
      if Live(g, p) {
        BelowAfter(g, gone, t, a, p);
      } else {
        assert !Below(g, a, p) by { if Below(g, a, p) { BelowBounds(g, a, p); } }
        assert !Below(h, a, p) by { if Below(h, a, p) { BelowBounds(h, a, p); } }
      }
    }
  }

  lemma DoomedAfter(g: Registry, gone: Option<nat>, t: set<nat>, u: set<nat>)
    requires Forest(g) && Calm(g, gone) && Forest(Bulk(g, Doomed(g, t))) && Younger(gone, u)
    ensures Doomed(g, t) + Doomed(Bulk(g, Doomed(g, t)), u) == Doomed(g, t + u)
  {
    hide Without;
    var h := Bulk(g, Doomed(g, t));
    forall q | Live(g, q) && q !in Doomed(g, t) ensures q in Doomed(h, u) <==> q in Doomed(g, t + u) {
      forall a | a in u { BelowAfter(g, gone, t, a, q); }
    }
  }

  lemma BulkCalm(g: Registry, gone: Option<nat>, t: set<nat>)
    requires Forest(g) && Calm(g, gone)
    ensures Calm(Bulk(g, Doomed(g, t)), gone)
  {
    var h := Bulk(g, Doomed(g, t));
    forall q | q in h.records && !Terminal(h.records[q].state) ensures Kept(h, gone, q) {
      assert q !in Doomed(g, t) && Live(g, q) && Kept(g, gone, q);
      var n := g.records[q].name;
      assert !NamedIn(g, Doomed(g, t), n) by {
        assert forall d | d in Doomed(g, t) :: d in g.records && Kept(g, gone, d);
      }
      if g.records[q].parent.Some? { SurvivorParent(g, gone, t, q); }
    }
  }

  // ----- the recursion does it -------------------------------------------

  lemma {:induction false} BelowSame(g: Registry, h: Registry, a: nat, q: nat)
    requires Forest(g) && Forest(h) && g.records.Keys == h.records.Keys
    requires forall x | x in g.records :: h.records[x].parent == g.records[x].parent
    ensures Below(h, a, q) == Below(g, a, q)
    decreases q
  {
    if q != a && q in g.records && g.records[q].parent.Some? {
      ForestParent(g, q);
      BelowSame(g, h, a, g.records[q].parent.value);
    }
  }

  lemma BeginKeeps(g: Registry, gone: Option<nat>, pid: nat, t: set<nat>)
    requires Forest(g) && Calm(g, gone) && Live(g, pid)
    ensures Calm(BeginKill(g, pid), gone) && Doomed(BeginKill(g, pid), t) == Doomed(g, t)
  {
    var h := BeginKill(g, pid);
    forall q | q in h.records && !Terminal(h.records[q].state) ensures Kept(h, gone, q) { assert Kept(g, gone, q); }
    forall a, q { BelowSame(g, h, a, q); }
  }

  lemma FinishIsStrike(g: Registry, pid: nat, dead: set<nat>)
    requires Forest(g) && Live(g, pid) && pid !in dead && Forest(Bulk(BeginKill(g, pid), dead))
    requires g.records[pid].parent.Some? ==> g.records[pid].parent.value !in dead
    ensures FinishKill(Bulk(BeginKill(g, pid), dead), pid) == Bulk(g, {pid} + dead)
  {
    var b := Bulk(BeginKill(g, pid), dead);
    var l, r := FinishKill(b, pid), Bulk(g, {pid} + dead);
    forall q | q in g.records ensures l.records[q] == r.records[q] { FinishRecord(g, pid, dead, q); }
    FinishNames(b, pid);
    StrikeNames(g, pid, dead);
    assert b.records[pid].name == g.records[pid].name by { BulkAt(g, pid, dead, pid); }
    hide FinishKill, Bulk, BeginKill, Forest;
    assert l.records == r.records;
  }

  lemma StrikeNames(g: Registry, pid: nat, dead: set<nat>)
    requires Forest(g) && pid in g.records
    ensures Bulk(BeginKill(g, pid), dead).byName - {g.records[pid].name} == Bulk(g, {pid} + dead).byName
  {
    BeginNames(g, pid);
    hide BeginKill, Struck, Forest;
    forall n ensures NamedIn(g, {pid} + dead, n) == (n == g.records[pid].name || NamedIn(BeginKill(g, pid), dead, n)) { }
    hide NamedIn;
    assert Bulk(BeginKill(g, pid), dead).byName - {g.records[pid].name} == Bulk(g, {pid} + dead).byName;
  }

  lemma BeginNames(g: Registry, pid: nat)
    requires Forest(g) && pid in g.records
    ensures BeginKill(g, pid).byName == g.byName && BeginKill(g, pid).records.Keys == g.records.Keys
    ensures forall q | q in g.records :: BeginKill(g, pid).records[q].name == g.records[q].name
  {
  }

  lemma FinishNames(b: Registry, pid: nat)
    requires Forest(b) && pid in b.records
    ensures FinishKill(b, pid).byName == b.byName - {b.records[pid].name} && FinishKill(b, pid).nextPid == b.nextPid
  {
    hide Without;
  }

  lemma FinishAt(b: Registry, pid: nat, q: nat)
    requires Forest(b) && pid in b.records && q in b.records
    ensures FinishKill(b, pid).records[q] ==
            if q == pid then b.records[q].(state := Killed, parent := None, children := [])
            else if b.records[pid].parent == Some(q) then b.records[q].(children := Without(b.records[q].children, {pid}))
            else b.records[q]
  {
    ForestParent(b, pid);
    hide Without, Forest;
  }

  lemma BulkAt(g: Registry, pid: nat, dead: set<nat>, q: nat)
    requires Forest(g) && pid in g.records && q in g.records
    ensures Bulk(BeginKill(g, pid), dead).records[q] ==
            Struck(if q == pid then g.records[q].(state := Stopping) else g.records[q], q, dead)
  {
    hide Without, Forest;
  }

  lemma FinishRecord(g: Registry, pid: nat, dead: set<nat>, q: nat)
    requires Forest(g) && Live(g, pid) && pid !in dead && Forest(Bulk(BeginKill(g, pid), dead)) && q in g.records
    requires g.records[pid].parent.Some? ==> g.records[pid].parent.value !in dead
    ensures FinishKill(Bulk(BeginKill(g, pid), dead), pid).records[q] == Struck(g.records[q], q, {pid} + dead)
  {
    ForestParent(g, pid);
    ForestChildren(g, q);
    var xs := g.records[q].children;
    WithoutTwice(xs, dead, {pid});
    assert dead + {pid} == {pid} + dead;
    assert pid !in xs ==> Without(xs, dead) == Without(xs, {pid} + dead) by {
      assert pid !in xs ==> Without(Without(xs, dead), {pid}) == Without(xs, dead);
    }
    hide Without, Forest, FinishKill, Bulk, BeginKill;
    FinishAt(Bulk(BeginKill(g, pid), dead), pid, q);
    BulkAt(g, pid, dead, q);
    BulkAt(g, pid, dead, pid);
  }

  lemma {:induction false} BelowLive(g: Registry, gone: Option<nat>, a: nat, q: nat)
    requires Forest(g) && Calm(g, gone) && Live(g, q) && Below(g, a, q) && Younger(gone, {a})
    ensures Live(g, a)
    decreases q
  {
    if q != a {
      ForestParent(g, q);
      assert Kept(g, gone, q);
      BelowBounds(g, a, g.records[q].parent.value);
      BelowLive(g, gone, a, g.records[q].parent.value);
    }
  }

  lemma BulkNone(g: Registry)
    ensures Bulk(g, {}) == g
  {
    forall q | q in g.records ensures Struck(g.records[q], q, {}) == g.records[q] { }
    assert Bulk(g, {}).records == g.records && Bulk(g, {}).byName == g.byName;
  }

  lemma NothingDoomed(g: Registry, gone: Option<nat>, pid: nat)
    requires Forest(g) && Calm(g, gone) && !Live(g, pid) && Younger(gone, {pid})
    ensures Bulk(g, Doomed(g, {pid})) == g
  {
    forall q | Live(g, q) ensures !Below(g, pid, q) { if Below(g, pid, q) { BelowLive(g, gone, pid, q); } }
    assert Doomed(g, {pid}) == {};
    BulkNone(g);
  }

  /** Processes no younger than `pid` survive when only younger ones are targeted. */
  lemma OlderSurvives(g: Registry, t: set<nat>, pid: nat, q: nat)
    requires Forest(g) && q <= pid && forall a | a in t :: pid < a
    ensures q !in Doomed(g, t)
  {
    forall a | a in t ensures !Below(g, a, q) { if Below(g, a, q) { BelowBounds(g, a, q); } }
  }

  /**
   What recursive kill does. Between crash handlers, killing a live process kills
   exactly the live processes below it, forgets their links and names, and drops
   the target from its parent's list; every other record is untouched.
   */
  lemma {:induction false} KillIsBulk(g: Registry, gone: Option<nat>, pid: nat)
    requires Forest(g) && Calm(g, gone) && Younger(gone, {pid})
    ensures KillTree(g, pid) == Bulk(g, Doomed(g, {pid}))
    decreases g.nextPid - pid, 1
  {
    if pid !in g.records || Terminal(g.records[pid].state) {
      NothingDoomed(g, gone, pid);
    } else {
      ForestParent(g, pid); ForestChildren(g, pid);
      var cs := g.records[pid].children;
      var t := Members(cs);
      BeginKeeps(g, gone, pid, t);
      var g1 := BeginKill(g, pid);
      KillAllIsBulk(g1, gone, cs, pid);
      DoomedChildren(g, gone, pid);
      OlderSurvives(g, t, pid, pid);
      if g.records[pid].parent.Some? { OlderSurvives(g, t, pid, g.records[pid].parent.value); }
      FinishIsStrike(g, pid, Doomed(g, t));
    }
  }

  lemma MembersSplit(xs: seq<nat>)
    requires xs != []
    ensures {xs[0]} + Members(xs[1..]) == Members(xs)
  {
    assert xs == [xs[0]] + xs[1..];
  }

  lemma {:induction false} KillAllIsBulk(g: Registry, gone: Option<nat>, pids: seq<nat>, above: nat)
    requires Forest(g) && Calm(g, gone) && above <= g.nextPid && (forall c | c in pids :: above < c < g.nextPid)
    requires gone.Some? ==> gone.value <= above
    ensures KillAll(g, pids, above) == Bulk(g, Doomed(g, Members(pids)))
    decreases g.nextPid - above, 0, |pids|
  {
    if pids == [] {
      BulkNone(g);
      assert Doomed(g, Members(pids)) == {};
    } else {
      hide Doomed, Bulk, KillTree, Forest, Calm, Members;
      assert pids[0] in pids && forall c | c in pids[1..] :: c in pids;
      KillIsBulk(g, gone, pids[0]);
      var h := KillTree(g, pids[0]);
      BulkCalm(g, gone, {pids[0]});
      KillAllIsBulk(h, gone, pids[1..], above);
      var t, u := {pids[0]}, Members(pids[1..]);
      DoomedAfter(g, gone, t, u);
      BulkTwice(g, Doomed(g, t), Doomed(h, u));
      assert t + u == Members(pids) by { MembersSplit(pids); }
    }
  }

  /** Hence a kill run without an interleaved crash leaves no live descendant, and the registry calm. */
  lemma NoLiveDescendant(g: Registry, gone: Option<nat>, pid: nat, q: nat)
    requires Forest(g) && Calm(g, gone) && Below(g, pid, q) && Younger(gone, {pid})
    ensures !Live(KillTree(g, pid), q) && Calm(KillTree(g, pid), gone)
  {
    KillIsBulk(g, gone, pid);
    BulkCalm(g, gone, {pid});
    hide Without;
    assert Live(g, q) ==> q in Doomed(g, {pid});
  }

  /**
   Why calm has to say who owns a name: two overlapping kills of one process
   close one after the other, and the second also drops the name of a process
   that registered it in between.
   */
  lemma OverlappingKillsDropName(scripts: map<string, Script>, path: string)
    requires path in scripts
    ensures var h := RunSteps(Empty, scripts, [DoSpawn(path, None, Permanent), DoState(100, Stopping), DoState(100, Stopping), DoKillEnd(100),
                                               DoSpawn(path, None, Permanent), DoKillEnd(100)]);
            Live(h, 101) && h.records[101].name !in h.byName
  {
    var n := scripts[path].name;
    var g1 := Spawn(Empty, scripts, path, None, Permanent);
    var g2 := SetState(SetState(g1, 100, Stopping), 100, Stopping);
    var g3 := KillEnd(g2, 100);
    var g4 := Spawn(g3, scripts, path, None, Permanent);
    var s5, s4 := [DoKillEnd(100)], [DoSpawn(path, None, Permanent), DoKillEnd(100)];
    var s3 := [DoKillEnd(100)] + s4;
    var s2 := [DoState(100, Stopping)] + s3;
    var s1 := [DoState(100, Stopping)] + s2;
    assert s4[1..] == s5 && s3[1..] == s4 && s2[1..] == s3 && s1[1..] == s2 && s5[1..] == [];
    assert ([DoSpawn(path, None, Permanent)] + s1)[1..] == s1;
    assert RunSteps(g4, scripts, s5) == KillEnd(g4, 100);
    assert RunSteps(g3, scripts, s4) == KillEnd(g4, 100);
    assert RunSteps(g2, scripts, s3) == KillEnd(g4, 100);
    assert RunSteps(SetState(g1, 100, Stopping), scripts, s2) == KillEnd(g4, 100);
    assert RunSteps(g1, scripts, s1) == KillEnd(g4, 100);
    assert RunSteps(Empty, scripts, [DoSpawn(path, None, Permanent)] + s1) == KillEnd(g4, 100);
    assert [DoSpawn(path, None, Permanent)] + s1 == [DoSpawn(path, None, Permanent), DoState(100, Stopping), DoState(100, Stopping), DoKillEnd(100),
                                               DoSpawn(path, None, Permanent), DoKillEnd(100)];
  }
}
