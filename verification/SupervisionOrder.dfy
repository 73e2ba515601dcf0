/**
 What a whole recovery does to the supervisor's child list under each strategy,
 and the crash handler from start to end.
 */
module SupervisionOrder {
  import opened Prelude
  import opened Supervision
  import opened SupervisionKill
  import opened SupervisionRecovery

  /** `n` consecutive pids from `f` on. */
  function Pids(f: nat, n: nat): (r: seq<nat>)
    ensures |r| == n && forall i | 0 <= i < n :: r[i] == f + i
  {
    seq(n, i => f + i)
  }

  lemma {:induction false} WithoutMiddle(a: seq<nat>, b: nat, rest: seq<nat>)
    requires b !in a && b !in rest
    ensures Without(a + [b] + rest, {b}) == a + rest
  {
    hide Without, NoDup;
    var xs := a + [b] + rest;
    WithoutTurn(xs, {b});
    if a == [] {
      assert xs[0] == b && xs[1..] == rest && a + rest == rest;
    } else {
      assert xs[1..] == a[1..] + [b] + rest && xs[0] == a[0] && a[0] in a;
      WithoutMiddle(a[1..], b, rest);
      assert a + rest == [a[0]] + (a[1..] + rest);
    }
  }

  lemma WithoutTurn(xs: seq<nat>, drop: set<nat>)
    requires xs != []
    ensures Without(xs, drop) == (if xs[0] in drop then [] else [xs[0]]) + Without(xs[1..], drop)
  {
  }

  /** A killed child's replacement goes last. */
  lemma MovesLast(a: seq<nat>, b: nat, rest: seq<nat>, f: nat)
    requires b !in a && b !in rest
    ensures NextList(a + [b] + rest, b, false, f) == a + (rest + [f])
  {
    WithoutMiddle(a, b, rest);
    assert a + rest + [f] == a + (rest + [f]);
  }

  lemma ListsNone(xs: seq<nat>, failed: nat, f: nat)
    ensures Lists(xs, [], failed, f) == xs
  {
  }

  /** Killing and restarting a block moves its replacements to the end, in order. */
  lemma {:induction false} BlockMoves(a: seq<nat>, block: seq<nat>, c: seq<nat>, failed: nat, f: nat)
    requires failed !in block && NoDup(block)
    requires forall b | b in block :: b !in a && b !in c && b < f
    ensures Lists(a + block + c, block, failed, f) == a + c + Pids(f, |block|)
    decreases |block|
  {
    hide Lists, NextList;
    if block == [] {
      ListsNone(a + block + c, failed, f);
      assert a + block + c == a + c && a + c + Pids(f, 0) == a + c;
    } else {
      var b, rest := block[0], block[1..];
      RestNoDup(block);
      BlockParts(block);
      hide NoDup;
      assert a + block + c == a + [b] + (rest + c);
      MovesLast(a, b, rest + c, f);
      ListsTurn(a + block + c, block, failed, f);
      assert a + (rest + c + [f]) == a + rest + (c + [f]);
      BlockMoves(a, rest, c + [f], failed, f + 1);
      PidsTurn(f, |block|);
      assert a + (c + [f]) + Pids(f + 1, |rest|) == a + c + ([f] + Pids(f + 1, |rest|));
    }
  }

  lemma BlockParts(block: seq<nat>)
    requires NoDup(block) && block != []
    ensures block[0] in block && (forall x | x in block[1..] :: x in block) && block[0] !in block[1..]
    ensures block == [block[0]] + block[1..]
  {
  }

  lemma PidsTurn(f: nat, n: nat)
    requires n > 0
    ensures Pids(f, n) == [f] + Pids(f + 1, n - 1)
  {
  }

  lemma {:induction false} ListsConcat(xs: seq<nat>, s: seq<nat>, t: seq<nat>, failed: nat, f: nat)
    ensures Lists(xs, s + t, failed, f) == Lists(Lists(xs, s, failed, f), t, failed, f + |s|)
    decreases |s|
  {
    hide Lists, NextList;
    if s == [] {
      ListsNone(xs, failed, f);
      assert s + t == t;
    } else {
      assert (s + t)[1..] == s[1..] + t && (s + t)[0] == s[0];
      ListsTurn(xs, s + t, failed, f);
      ListsTurn(xs, s, failed, f);
      ListsConcat(NextList(xs, s[0], s[0] == failed, f), s[1..], t, failed, f + 1);
    }
  }

  lemma {:induction false} IndexAt(a: seq<nat>, x: nat, c: seq<nat>)
    requires x !in a
    ensures IndexOf(a + [x] + c, x) == |a|
  {
    var xs := a + [x] + c;
    assert xs[|a|] == x;
    if a != [] {
      assert xs[1..] == a[1..] + [x] + c;
      IndexAt(a[1..], x, c);
    }
  }

  /** The crashed child's replacement stands in its place. */
  lemma SlotReplaced(a: seq<nat>, failed: nat, c: seq<nat>, f: nat)
    requires failed !in a
    ensures Lists(a + [failed] + c, [failed], failed, f) == a + [f] + c
  {
    hide Lists, IndexOf;
    var xs := a + [failed] + c;
    IndexAt(a, failed, c);
    assert xs[|a|] == failed && xs[|a| := f] == a + [f] + c;
    assert [failed][1..] == [];
    ListsTurn(xs, [failed], failed, f);
    ListsNone(a + [f] + c, failed, f + 1);
  }

  /** The supervisor's list `before + [failed] + after` once every affected child is restarted with pids from `f` on. */
  function Recovered(strategy: Strategy, before: seq<nat>, failed: nat, after: seq<nat>, f: nat): seq<nat> {
    match strategy
    case OneForOne => before + [f] + after
    case RestForOne => before + Pids(f, 1 + |after|)
    case OneForAll => [f + |before|] + Pids(f, |before|) + Pids(f + |before| + 1, |after|)
  }

  lemma SplitFacts(before: seq<nat>, failed: nat, after: seq<nat>)
    requires NoDup(before + [failed] + after)
    ensures NoDup(before) && NoDup(after) && failed !in before && failed !in after
    ensures (forall x | x in before :: x !in after) && forall x | x in after :: x !in before
  {
    var xs := before + [failed] + after;
    forall i | 0 <= i < |before| ensures xs[i] == before[i] { }
    assert xs[|before|] == failed;
    forall i | 0 <= i < |after| ensures xs[|before| + 1 + i] == after[i] { }
  }

  lemma ListsByStrategy(parent: Record, before: seq<nat>, failed: nat, after: seq<nat>, f: nat)
    requires parent.children == before + [failed] + after && NoDup(parent.children) && forall c | c in parent.children :: c < f
    ensures Lists(parent.children, Affected(parent, failed), failed, f) == Recovered(parent.strategy, before, failed, after, f)
  {
    var xs := parent.children;
    SplitFacts(before, failed, after);
    IndexAt(before, failed, after);
    assert xs[|before|] == failed && failed in xs && xs[|before|..] == [failed] + after;
    hide Lists, NoDup, IndexOf;
    assert forall x | x in before :: x in xs;
    assert forall x | x in after :: x in xs;
    match parent.strategy
    case OneForOne => SlotReplaced(before, failed, after, f);
    case RestForOne => RestLists(before, failed, after, f);
    case OneForAll => AllLists(before, failed, after, f);
  }

  lemma RestLists(before: seq<nat>, failed: nat, after: seq<nat>, f: nat)
    requires NoDup(before + [failed] + after) && (forall c | c in before :: c < f) && forall c | c in after :: c < f
    ensures Lists(before + [failed] + after, [failed] + after, failed, f) == before + Pids(f, 1 + |after|)
  {
    hide Lists, NoDup;
    SplitFacts(before, failed, after);
    var xs := before + [failed] + after;
    ListsConcat(xs, [failed], after, failed, f);
    SlotReplaced(before, failed, after, f);
    assert before + [f] + after == (before + [f]) + after + [];
    BlockMoves(before + [f], after, [], failed, f + 1);
    PidsTurn(f, 1 + |after|);
    assert before + [f] + [] + Pids(f + 1, |after|) == before + ([f] + Pids(f + 1, |after|));
  }

  lemma AllLists(before: seq<nat>, failed: nat, after: seq<nat>, f: nat)
    requires NoDup(before + [failed] + after) && (forall c | c in before :: c < f) && (forall c | c in after :: c < f) && failed < f
    ensures Lists(before + [failed] + after, before + [failed] + after, failed, f) == Recovered(OneForAll, before, failed, after, f)
  {
    hide Lists, NoDup;
    SplitFacts(before, failed, after);
    var n := |before|;
    var xs, tail := before + [failed] + after, [failed] + after;
    assert xs == before + tail && xs == [] + before + tail;
    ListsConcat(xs, before, tail, failed, f);
    BlockMoves([], before, tail, failed, f);
    assert [] + tail + Pids(f, n) == [] + [failed] + (after + Pids(f, n));
    TailLists(failed, after, Pids(f, n), f + n);
  }

  /** After the older siblings moved to the end: the crashed child, then its younger siblings. */
  lemma TailLists(failed: nat, after: seq<nat>, moved: seq<nat>, f: nat)
    requires NoDup(after) && failed !in after && failed !in moved && failed < f && forall c | c in after :: c !in moved && c < f
    ensures Lists([] + [failed] + (after + moved), [failed] + after, failed, f) == [f] + moved + Pids(f + 1, |after|)
  {
    hide Lists, NoDup;
    ListsConcat([] + [failed] + (after + moved), [failed], after, failed, f);
    SlotReplaced([], failed, after + moved, f);
    assert [] + [f] + (after + moved) == [f] + after + moved;
    BlockMoves([f], after, moved, failed, f + 1);
  }

  /** one_for_all keeps the original positions exactly when the crashed child was the first. */
  lemma OneForAllKeepsOrder(before: seq<nat>, failed: nat, after: seq<nat>, f: nat)
    ensures Recovered(OneForAll, before, failed, after, f) == Pids(f, |before| + 1 + |after|) <==> before == []
  {
    var r := Recovered(OneForAll, before, failed, after, f);
    if before == [] {
      assert r == Pids(f, 1 + |after|);
    } else {
      assert r[0] == f + |before| && Pids(f, |before| + 1 + |after|)[0] == f;
    }
  }

  // ----- the crash handler -----------------------------------------------

  /** Nothing below a child of `pid` is a sibling of `pid`, a sibling's child, or the supervisor. */
  lemma NiecesApart(g: Registry, parent: nat, pid: nat, c: nat, d: nat)
    requires Forest(g) && parent in g.records && pid in g.records[parent].children && c in g.records[pid].children
    requires d in g.records[parent].children && d != pid
    ensures !Below(g, c, d) && !Below(g, c, parent) && !Below(g, c, pid)
    ensures forall e | e in g.records[d].children :: !Below(g, c, e)
  {
    ForestChildren(g, parent); ForestChildren(g, pid); ForestChildren(g, d);
    if Below(g, c, parent) { BelowBounds(g, c, parent); }
    if Below(g, c, pid) { BelowBounds(g, c, pid); }
    assert g.records[c].parent == Some(pid) && g.records[d].parent == Some(parent);
    assert !Below(g, c, d);
    forall e | e in g.records[d].children ensures !Below(g, c, e) {
      assert g.records[e].parent == Some(d);
    }
  }

  lemma FamilyUnstruck(g: Registry, parent: nat, pid: nat, t: set<nat>)
    requires Forest(g) && parent in g.records && pid in g.records[parent].children && pid in g.records && Terminal(g.records[pid].state)
    requires t == Members(g.records[pid].children)
    ensures Struck(g.records[parent], parent, Doomed(g, t)) == g.records[parent]
    ensures forall d | d in g.records[parent].children && d != pid :: d in g.records && Struck(g.records[d], d, Doomed(g, t)) == g.records[d]
  {
    var dead := Doomed(g, t);
    ForestChildren(g, parent); ForestChildren(g, pid);
    forall d | d in g.records[parent].children && d != pid
      ensures d !in dead && Struck(g.records[d], d, dead) == g.records[d]
    {
      forall c | c in t { NiecesApart(g, parent, pid, c, d); }
      assert d !in dead && forall e | e in g.records[d].children :: e !in dead;
    }
    OlderSurvives(g, t, pid, parent);
  }

  /** Killing the crashed child's own children leaves the supervisor's family alone. */
  lemma AbandonKilled(g: Registry, parent: nat, pid: nat)
    requires Forest(g) && Calm(g, Some(pid)) && parent in g.records && pid in g.records[parent].children && Terminal(g.records[pid].state)
    requires g.records[pid].children != [] && pid < g.nextPid && forall c | c in g.records[pid].children :: pid < c < g.nextPid
    ensures var h := KillAll(g, g.records[pid].children, pid);
            && Calm(h, Some(pid)) && h.byName.Keys <= g.byName.Keys
            && h.records[parent] == g.records[parent]
            && h.records[pid] == g.records[pid].(children := h.records[pid].children)
            && (forall d | d in g.records[parent].children && d != pid :: d in h.records && h.records[d] == g.records[d])
            && (forall q | Live(h, q) :: h.records[q].parent != Some(pid))
            && forall c | c in h.records[pid].children :: c in g.records[pid].children
  {
    var cs := g.records[pid].children;
    var t := Members(cs);
    KillAllIsBulk(g, Some(pid), cs, pid);
    BulkCalm(g, Some(pid), t);
    var dead := Doomed(g, t);
    FamilyUnstruck(g, parent, pid, t);
    var h := KillAll(g, cs, pid);
    forall q | Live(h, q) ensures h.records[q].parent != Some(pid) {
      if g.records[q].parent == Some(pid) {
        assert Kept(g, Some(pid), q);
        assert Below(g, q, q) && q in t;
      }
    }
  }

  /** What the handler starts its recovery from: calm, childless, and the supervisor's family as it was. */
  predicate Cleared(g: Registry, h: Registry, parent: nat, pid: nat) {
    && Forest(h) && Calm(h, None) && h.nextPid == g.nextPid && h.byName.Keys <= g.byName.Keys
    && parent in g.records && parent in h.records && pid in g.records && pid in h.records
    && h.records[parent] == g.records[parent] && h.records[pid] == g.records[pid].(children := [])
    && forall d | d in g.records[parent].children && d != pid :: Untouched(g, h, d)
  }

  lemma AbandonClears(g: Registry, parent: nat, pid: nat)
    requires Forest(g) && Calm(g, Some(pid)) && parent in g.records && pid in g.records && pid in g.records[parent].children
    requires Terminal(g.records[pid].state)
    ensures Cleared(g, Abandon(g, pid), parent, pid)
  {
    ForestChildren(g, parent); ForestChildren(g, pid);
    var cs := g.records[pid].children;
    if cs == [] {
      forall q | Live(g, q) ensures Kept(g, None, q) { assert Kept(g, Some(pid), q); }
      assert g.records[pid] == g.records[pid].(children := []);
    } else {
      AbandonKilled(g, parent, pid);
      var h := KillAll(g, cs, pid);
      OrphanClears(g, h, parent, pid);
    }
  }

  lemma OrphanClears(g: Registry, h: Registry, parent: nat, pid: nat)
    requires Forest(g) && Forest(h) && Calm(h, Some(pid)) && h.nextPid == g.nextPid && h.byName.Keys <= g.byName.Keys
    requires parent in g.records && parent in h.records && pid in h.records && pid in g.records && pid in g.records[parent].children
    requires h.records[parent] == g.records[parent] && h.records[pid] == g.records[pid].(children := h.records[pid].children)
    requires forall d | d in g.records[parent].children && d != pid :: Untouched(g, h, d)
    requires forall q | Live(h, q) :: h.records[q].parent != Some(pid)
    ensures Cleared(g, Orphan(h, pid), parent, pid)
  {
    OrphanKeeps(h, pid);
    ForestChildren(g, parent); ForestChildren(h, pid); ForestChildren(h, parent);
    var k := Orphan(h, pid);
    assert forall c | c in h.records[pid].children :: h.records[c].parent == Some(pid);
    hide Forest;
    forall q | Live(k, q) ensures Kept(k, None, q) { assert Kept(h, Some(pid), q); }
    forall d | d in g.records[parent].children && d != pid ensures Untouched(g, k, d) {
      assert Untouched(g, h, d) && h.records[d].parent == Some(parent);
    }
  }

  lemma {:induction false} AllCandidates(g: Registry, pids: seq<nat>, abnormal: bool)
    requires forall c | c in pids :: c in g.records && PolicyAllows(g.records[c].policy, abnormal)
    ensures Candidates(g, pids, abnormal) == pids
  {
    if pids != [] {
      assert pids[0] in pids && forall c | c in pids[1..] :: c in pids;
      AllCandidates(g, pids[1..], abnormal);
      assert [pids[0]] + pids[1..] == pids;
    }
  }

  /** A supervisor whose child `pid` just ended: the child gave its name up, nothing else is wrong. */
  predicate Ended(g: Registry, parent: nat, pid: nat, before: seq<nat>, after: seq<nat>) {
    && Forest(g) && Calm(g, Some(pid)) && parent in g.records && Alive(g.records[parent].state)
    && g.records[parent].children == before + [pid] + after
    && pid in g.records && Terminal(g.records[pid].state) && g.records[pid].name !in g.byName
  }

  /** An affected child that the supervisor may restart from an unchanged script. */
  predicate Restartable(g: Registry, scripts: map<string, Script>, pid: nat, c: nat) {
    && pid in g.records && c in g.records && (c != pid ==> Live(g, c))
    && PolicyAllows(g.records[c].policy, g.records[pid].state == Crashed)
    && g.records[c].path in scripts && scripts[g.records[c].path].name == g.records[c].name
  }

  lemma AffectedListed(r: Record, pid: nat)
    requires NoDup(r.children) && pid in r.children
    ensures NoDup(Affected(r, pid)) && pid in Affected(r, pid) && forall c | c in Affected(r, pid) :: c in r.children
  {
    var xs, i := r.children, IndexOf(r.children, pid);
    assert xs[i..][0] == pid;
    assert forall c | c in xs[i..] :: c in xs;
  }

  /** Recovery from the cleared registry. */
  lemma HandlerRecovers(g: Registry, scripts: map<string, Script>, parent: nat, pid: nat, before: seq<nat>, after: seq<nat>)
    requires Ended(g, parent, pid, before, after)
    requires forall c | c in Affected(g.records[parent], pid) :: Restartable(g, scripts, pid, c)
    ensures var todo := Affected(g.records[parent], pid);
            Replaced(CountRestarts(Abandon(g, pid), parent, |todo|), HandleTerminal(g, scripts, pid, true), scripts, parent, todo, pid)
  {
    var xs := g.records[parent].children;
    assert xs[|before|] == pid;
    ForestChildren(g, parent); ForestParent(g, pid);
    AbandonClears(g, parent, pid);
    var g0 := Abandon(g, pid);
    var todo := Affected(g.records[parent], pid);
    AffectedListed(g.records[parent], pid);
    hide Forest, Calm, Abandon, IndexOf;
    forall c | c in todo ensures c in g0.records && g0.records[c].policy == g.records[c].policy {
      if c != pid { assert Untouched(g, g0, c); }
    }
    AllCandidates(g0, todo, g.records[pid].state == Crashed);
    var g1 := CountRestarts(g0, parent, |todo|);
    CountCalm(g0, parent, |todo|);
    forall c | c in todo ensures c in g1.records && Ready(g1, scripts, parent, pid, c) {
      assert Restartable(g, scripts, pid, c);
      if c != pid { assert Untouched(g, g0, c); }
    }
    RecoverAll(g1, scripts, parent, todo, pid);
    assert HandleTerminal(g, scripts, pid, true) == Recover(g1, scripts, parent, todo) by { hide Replaced, Recover; }
  }

  lemma CountCalm(g: Registry, parent: nat, n: nat)
    requires Forest(g) && Calm(g, None) && parent in g.records
    ensures Calm(CountRestarts(g, parent, n), None)
    ensures forall q | q in g.records && q != parent :: CountRestarts(g, parent, n).records[q] == g.records[q]
    ensures CountRestarts(g, parent, n).records[parent] == g.records[parent].(restartCount := g.records[parent].restartCount + n)
    ensures CountRestarts(g, parent, n).byName == g.byName && CountRestarts(g, parent, n).nextPid == g.nextPid
  {
    var h := CountRestarts(g, parent, n);
    forall q | q in h.records && !Terminal(h.records[q].state) ensures Kept(h, None, q) { assert Kept(g, None, q); }
  }

  lemma RecoveredMembers(strategy: Strategy, before: seq<nat>, pid: nat, after: seq<nat>, f: nat, x: nat)
    requires NoDup(before + [pid] + after) && x in Recovered(strategy, before, pid, after, f) && x < f
    ensures strategy != OneForAll && x in before + [pid] + after && x != pid && (strategy == RestForOne ==> x in before)
  {
    SplitFacts(before, pid, after);
  }

  /**
   Recovery conserves children. When a child ends, the other affected children
   run and all of them are eligible, then after the handler each affected child
   has one replacement that carries on its path, policy and count, no affected
   old pid stays in the supervisor's list, every other child is untouched and the
   registry is calm again. one_for_one and rest_for_one keep every position;
   one_for_all puts the crashed child's replacement first.
   */
  lemma RecoveryConserves(g: Registry, scripts: map<string, Script>, parent: nat, pid: nat, before: seq<nat>, after: seq<nat>)
    requires Ended(g, parent, pid, before, after)
    requires forall c | c in Affected(g.records[parent], pid) :: Restartable(g, scripts, pid, c)
    ensures
      var todo, k := Affected(g.records[parent], pid), HandleTerminal(g, scripts, pid, true);
      && Supervising(k, parent) && k.nextPid == g.nextPid + |todo|
      && k.records[parent].children == Recovered(g.records[parent].strategy, before, pid, after, g.nextPid)
      && k.records[parent].restartCount == g.records[parent].restartCount + |todo|
      && (forall i | 0 <= i < |todo| :: RebornAs(g, k, scripts, parent, todo[i], g.nextPid + i))
      && (forall c | c in todo :: c !in k.records[parent].children)
      && forall d | d in g.records[parent].children && d !in todo :: Untouched(g, k, d)
  {
    var r := g.records[parent];
    var todo, k, n := Affected(r, pid), HandleTerminal(g, scripts, pid, true), g.nextPid;
    assert r.children[|before|] == pid;
    EndedListed(g, parent, pid, before, after);
    hide *;
    PreparedIs(g, parent, pid, |todo|);
    HandlerRecovers(g, scripts, parent, pid, before, after);
    AffectedListed(r, pid);
    ListsByStrategy(r, before, pid, after, n);
    RecoveredFamily(g, CountRestarts(Abandon(g, pid), parent, |todo|), k, scripts, parent, todo, pid);
    forall c | c in todo ensures c !in k.records[parent].children { AffectedGone(r, before, pid, after, n, c); }
  }

  lemma EndedListed(g: Registry, parent: nat, pid: nat, before: seq<nat>, after: seq<nat>)
    requires Ended(g, parent, pid, before, after)
    ensures Forest(g) && Calm(g, Some(pid)) && parent in g.records && pid in g.records && pid in g.records[parent].children
    ensures g.records[parent].children == before + [pid] + after && NoDup(g.records[parent].children) && Terminal(g.records[pid].state)
    ensures forall c | c in g.records[parent].children :: c < g.nextPid && c != parent
  {
    assert g.records[parent].children[|before|] == pid;
    ForestChildren(g, parent);
  }

  /** The supervisor's family when the recovery starts. */
  lemma PreparedIs(g: Registry, parent: nat, pid: nat, n: nat)
    requires Forest(g) && Calm(g, Some(pid)) && parent in g.records && pid in g.records && pid in g.records[parent].children && Terminal(g.records[pid].state)
    requires forall c | c in g.records[parent].children :: c != parent
    ensures parent in Abandon(g, pid).records
    ensures var g1 := CountRestarts(Abandon(g, pid), parent, n);
            && g1.nextPid == g.nextPid && parent in g1.records && pid in g1.records
            && g1.records[parent] == g.records[parent].(restartCount := g.records[parent].restartCount + n)
            && g1.records[pid] == g.records[pid].(children := [])
            && forall d | d in g.records[parent].children && d != pid :: Untouched(g, g1, d)
  {
    AbandonClears(g, parent, pid);
    CountCalm(Abandon(g, pid), parent, n);
    hide Forest, Calm, Abandon, CountRestarts;
    forall d | d in g.records[parent].children && d != pid ensures Untouched(g, CountRestarts(Abandon(g, pid), parent, n), d) {
      assert Untouched(g, Abandon(g, pid), d);
    }
  }

  lemma RecoveredFamily(g: Registry, g1: Registry, k: Registry, scripts: map<string, Script>, parent: nat, todo: seq<nat>, pid: nat)
    requires Replaced(g1, k, scripts, parent, todo, pid) && parent in g.records && pid in g.records && pid in todo
    requires g1.nextPid == g.nextPid && parent in g1.records && pid in g1.records && (forall c | c in todo :: c in g.records[parent].children)
    requires g1.records[parent] == g.records[parent].(restartCount := g.records[parent].restartCount + |todo|)
    requires g1.records[pid] == g.records[pid].(children := [])
    requires forall d | d in g.records[parent].children && d != pid :: Untouched(g, g1, d)
    ensures Supervising(k, parent) && k.nextPid == g.nextPid + |todo|
    ensures k.records[parent].children == Lists(g.records[parent].children, todo, pid, g.nextPid)
    ensures k.records[parent].restartCount == g.records[parent].restartCount + |todo|
    ensures forall i | 0 <= i < |todo| :: RebornAs(g, k, scripts, parent, todo[i], g.nextPid + i)
    ensures forall d | d in g.records[parent].children && d !in todo :: Untouched(g, k, d)
  {
    hide Supervising, Lists;
    forall i | 0 <= i < |todo| ensures RebornAs(g, k, scripts, parent, todo[i], g.nextPid + i) {
      assert RebornAs(g1, k, scripts, parent, todo[i], g1.nextPid + i);
      if todo[i] != pid { assert Untouched(g, g1, todo[i]); }
    }
    forall d | d in g.records[parent].children && d !in todo ensures Untouched(g, k, d) {
      assert Untouched(g, g1, d) && Untouched(g1, k, d);
    }
  }

  lemma AffectedGone(r: Record, before: seq<nat>, pid: nat, after: seq<nat>, f: nat, c: nat)
    requires r.children == before + [pid] + after && NoDup(r.children) && c in Affected(r, pid) && c < f
    ensures c !in Recovered(r.strategy, before, pid, after, f)
  {
    SplitFacts(before, pid, after);
    IndexAt(before, pid, after);
    assert r.children[|before|] == pid;
    assert r.children[|before|..] == [pid] + after;
    if c in Recovered(r.strategy, before, pid, after, f) { RecoveredMembers(r.strategy, before, pid, after, f, c); }
  }

  /** Without a budget the ended child only leaves the list: nothing is restarted or killed among its siblings. */
  lemma NotAdmittedDrops(g: Registry, scripts: map<string, Script>, parent: nat, pid: nat, before: seq<nat>, after: seq<nat>)
    requires Ended(g, parent, pid, before, after)
    ensures
      var k := HandleTerminal(g, scripts, pid, false);
      && k.nextPid == g.nextPid && k.records[parent].children == before + after
      && forall d | d in before + after :: Untouched(g, k, d)
  {
    var xs := g.records[parent].children;
    assert xs[|before|] == pid;
    ForestChildren(g, parent); ForestParent(g, pid);
    AbandonClears(g, parent, pid);
    SplitFacts(before, pid, after);
    WithoutMiddle(before, pid, after);
    hide Forest, Calm, Abandon, Without, NoDup, Candidates, IndexOf;
    forall d | d in before + after ensures d in xs && d != pid && d != parent && Untouched(g, Abandon(g, pid), d) {
      assert d in xs by { if d in before { var i :| 0 <= i < |before| && before[i] == d; assert xs[i] == d; }
                          else { var i :| 0 <= i < |after| && after[i] == d; assert xs[|before| + 1 + i] == d; } }
    }
  }

  // ----- operator kill ---------------------------------------------------

  /** `kill(pid)` up to its closing section: the subtree is dead, the target keeps its slot in its parent's list. */
  function KillInPlace(g: Registry, pid: nat): (h: Registry)
    requires Forest(g) && pid in g.records
    ensures Forest(h) && h.nextPid == g.nextPid && h.records.Keys == g.records.Keys
  {
    ForestChildren(g, pid);
    ForestParent(g, pid);
    var g1 := KillAll(BeginKill(g, pid), g.records[pid].children, pid);
    KillEndKeeps(g1, pid);
    KillEnd(g1, pid)
  }

  /** The rest of `kill(pid)`: the replacement takes the slot; a restart that fails raises and leaves the dead child linked. */
  function RestartInPlace(g: Registry, scripts: map<string, Script>, pid: nat): (h: Registry)
    requires Forest(g) && pid in g.records
    ensures Forest(h)
  {
    var parent := g.records[pid].parent;
    UnlinkKeeps(g, pid);
    if parent.None? || !ParentRunning(g, parent) then Unlink(g, pid)
    else if !CanSpawn(g, scripts, g.records[pid].path, parent) then g
    else
      var g1 := RestartChild(g, scripts, parent.value, pid);
      UnlinkKeeps(g1, pid);
      Unlink(g1, pid)
  }

  /** `kill(pid)` by an operator; a terminal target is refused. */
  function KillAndRestart(g: Registry, scripts: map<string, Script>, pid: nat): (h: Registry)
    requires Forest(g)
    ensures Forest(h)
  {
    if Live(g, pid) then RestartInPlace(KillInPlace(g, pid), scripts, pid) else g
  }

  lemma KillAllInPlace(g: Registry, pid: nat)
    requires Forest(g) && Calm(g, None) && Live(g, pid)
    ensures var dead := Doomed(g, Members(g.records[pid].children));
            && KillInPlace(g, pid) == KillEnd(Bulk(BeginKill(g, pid), dead), pid)
            && Doomed(g, {pid}) == {pid} + dead && pid !in dead && dead <= g.records.Keys
  {
    ForestChildren(g, pid);
    ForestParent(g, pid);
    var cs := g.records[pid].children;
    BeginKeeps(g, None, pid, Members(cs));
    KillAllIsBulk(BeginKill(g, pid), None, cs, pid);
    DoomedChildren(g, None, pid);
    OlderSurvives(g, Members(cs), pid, pid);
    DoomedKnown(g, Members(cs));
    hide Forest, Calm, Doomed, KillAll, Bulk, KillEnd, BeginKill;
  }

  lemma DoomedKnown(g: Registry, t: set<nat>)
    requires Forest(g)
    ensures Doomed(g, t) <= g.records.Keys
  {
  }

  lemma ParentInPlace(g: Registry, parent: nat, pid: nat)
    requires Forest(g) && Live(g, pid) && parent in g.records && pid in g.records[parent].children
    ensures var dead := Doomed(g, Members(g.records[pid].children));
            parent !in dead && Without(g.records[parent].children, dead) == g.records[parent].children
  {
    ForestChildren(g, parent); ForestChildren(g, pid);
    var t := Members(g.records[pid].children);
    OlderSurvives(g, t, pid, parent);
    OlderSurvives(g, t, pid, pid);
    forall d | d in g.records[parent].children && d != pid ensures d !in Doomed(g, t) {
      forall c | c in t { NiecesApart(g, parent, pid, c, d); }
    }
    hide Forest, Below;
  }

  lemma KillEndAt(g: Registry, pid: nat)
    requires pid in g.records
    ensures KillEnd(g, pid).byName == g.byName - {g.records[pid].name}
    ensures forall q | q in g.records ::
              KillEnd(g, pid).records[q] == if q == pid then g.records[q].(state := Killed, children := []) else g.records[q]
  {
  }

  /** What the kill in place makes of record `q`: the target keeps its parent, its other victims lose theirs. */
  lemma InPlaceAt(g: Registry, pid: nat, dead: set<nat>, q: nat)
    requires Forest(g) && pid in g.records && pid !in dead && q in g.records
    requires KillInPlace(g, pid) == KillEnd(Bulk(BeginKill(g, pid), dead), pid)
    ensures KillInPlace(g, pid).records[q] ==
            if q == pid then g.records[pid].(state := Killed, children := []) else Struck(g.records[q], q, dead)
  {
    hide *;
    BulkAt(g, pid, dead, q);
    KillEndAt(Bulk(BeginKill(g, pid), dead), pid);
    StruckState(g.records[pid], pid, dead);
  }

  lemma StruckState(r: Record, q: nat, dead: set<nat>)
    requires q !in dead
    ensures Struck(r.(state := Stopping), q, dead).(state := Killed, children := []) == r.(state := Killed, children := [])
  {
  }

  lemma InPlaceName(g: Registry, pid: nat)
    requires Forest(g) && Calm(g, None) && pid in g.records && Live(g, pid)
    ensures g.records[pid].name !in KillInPlace(g, pid).byName
  {
    hide *;
    KillAllInPlace(g, pid);
    var dead := Doomed(g, Members(g.records[pid].children));
    var b := Bulk(BeginKill(g, pid), dead);
    KillEndAt(b, pid);
    BeginNames(g, pid);
    BulkKeepsNames(BeginKill(g, pid), dead, pid);
  }

  lemma BulkKeepsNames(g: Registry, dead: set<nat>, q: nat)
    requires q in g.records
    ensures Bulk(g, dead).records[q].name == g.records[q].name
  {
  }

  lemma KilledInPlace(g: Registry, parent: nat, pid: nat)
    requires Supervising(g, parent) && Live(g, pid) && pid in g.records[parent].children
    ensures var h := KillInPlace(g, pid);
            && h.records[parent] == g.records[parent]
            && h.records[pid] == g.records[pid].(state := Killed, children := [])
            && g.records[pid].name !in h.byName && Doomed(g, {pid}) <= h.records.Keys
            && forall q | q in Doomed(g, {pid}) :: Terminal(h.records[q].state)
  {
    hide Forest, Calm, Doomed, KillAll, Bulk, KillEnd, BeginKill, KillInPlace, Below, Without, Members;
    ForestChildren(g, parent);
    KillAllInPlace(g, pid);
    InPlaceName(g, pid);
    ParentInPlace(g, parent, pid);
    var dead := Doomed(g, Members(g.records[pid].children));
    forall q | q in g.records
      ensures KillInPlace(g, pid).records[q] ==
              if q == pid then g.records[pid].(state := Killed, children := []) else Struck(g.records[q], q, dead)
    {
      InPlaceAt(g, pid, dead, q);
    }
  }

  /**
   Operator kill. Killing a live child of a running supervisor leaves its whole
   subtree dead and puts one replacement in its very slot; it never consults the
   restart budget.
   */
  lemma OperatorKillKeepsSlot(g: Registry, scripts: map<string, Script>, parent: nat, pid: nat)
    requires Supervising(g, parent) && Live(g, pid) && pid in g.records[parent].children
    requires g.records[pid].path in scripts && scripts[g.records[pid].path].name == g.records[pid].name
    ensures var k := KillAndRestart(g, scripts, pid);
            && k.nextPid == g.nextPid + 1 && g.nextPid in k.records && parent in k.records
            && k.records[parent] == g.records[parent].(children := g.records[parent].children[IndexOf(g.records[parent].children, pid) := g.nextPid])
            && k.records[g.nextPid] == Reborn(scripts, g.records[pid], parent)
            && forall q | q in Doomed(g, {pid}) :: q in k.records && Terminal(k.records[q].state)
  {
    hide Forest, Calm, KillInPlace, RestartInPlace, Doomed, IndexOf, NoDup, Reborn;
    ForestChildren(g, parent);
    KilledInPlace(g, parent, pid);
    RestartedInPlace(KillInPlace(g, pid), scripts, parent, pid);
    SameReborn(scripts, g.records[pid], KillInPlace(g, pid).records[pid], parent);
  }

  lemma SameReborn(scripts: map<string, Script>, r: Record, s: Record, parent: nat)
    requires r.path in scripts && s == r.(state := Killed, children := [])
    ensures Reborn(scripts, s, parent) == Reborn(scripts, r, parent)
  {
  }

  lemma RestartedInPlace(h: Registry, scripts: map<string, Script>, parent: nat, pid: nat)
    requires Forest(h) && parent in h.records && Alive(h.records[parent].state) && pid in h.records[parent].children
    requires pid in h.records && h.records[pid].state == Killed && h.records[pid].name !in h.byName
    requires h.records[pid].path in scripts && scripts[h.records[pid].path].name == h.records[pid].name
    ensures var k, xs := RestartInPlace(h, scripts, pid), h.records[parent].children;
            && k.nextPid == h.nextPid + 1 && k.records.Keys == h.records.Keys + {h.nextPid}
            && k.records[parent] == h.records[parent].(children := xs[IndexOf(xs, pid) := h.nextPid])
            && k.records[h.nextPid] == Reborn(scripts, h.records[pid], parent)
            && (forall q | q in h.records && q != parent && q != pid :: k.records[q] == h.records[q])
            && k.records[pid].state == Killed
  {
    ForestChildren(h, parent);
    RestartEffect(h, scripts, parent, pid);
    RestartedAt(h, scripts, parent, pid);
    var xs := h.records[parent].children;
    SlotGone(xs, pid, h.nextPid);
    var k1 := RestartChild(h, scripts, parent, pid);
    UnlinkAt(k1, parent, pid);
    hide Forest, IndexOf, Without, RestartChild, Restarted, Reborn, Unlink;
    assert k1.records[parent].children == xs[IndexOf(xs, pid) := h.nextPid];
  }

  lemma UnlinkAt(g: Registry, parent: nat, c: nat)
    requires c in g.records && parent in g.records && c != parent && g.records[c].parent == Some(parent)
    ensures var k := Unlink(g, c);
            && k.nextPid == g.nextPid && k.records.Keys == g.records.Keys
            && k.records[parent] == g.records[parent].(children := Without(g.records[parent].children, {c}))
            && k.records[c] == g.records[c].(parent := None)
            && forall q | q in g.records && q != parent && q != c :: k.records[q] == g.records[q]
  {
    hide Without;
  }

  lemma SlotGone(xs: seq<nat>, c: nat, f: nat)
    requires NoDup(xs) && c in xs && c != f
    ensures Without(xs[IndexOf(xs, c) := f], {c}) == xs[IndexOf(xs, c) := f]
  {
    var ys := xs[IndexOf(xs, c) := f];
    assert c !in ys;
  }
}
