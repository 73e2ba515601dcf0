/**
 The tiered memory store: hot records per agent under a token budget, a bounded
 warm list, and a cold index that mirrors an append-only log. It is proved to
 behave as one flat set of records.
 */
module MemoryStore {
  import opened Prelude
  import opened LlmTypes

  datatype Tier = Hot | Warm | Cold

  datatype Record = Record(id: string, owner: Option<nat>, name: string, timestamp: real, content: Json, tokens: nat, importance: real,
                           tags: seq<string>, source: Json, tier: Tier, lastAccessed: real)

  datatype AgentState = AgentState(budget: nat, hot: seq<Record>, warm: seq<Record>)

  /** `order` is the dictionary order of `agents`; `cold` is the cold index in dictionary order. */
  datatype Store = Store(agents: map<string, AgentState>, order: seq<string>, cold: seq<Record>, log: seq<Record>)

  const DEFAULT_BUDGET := 8000

  /** What identifies a record whatever tier it is in and whenever it was last touched. */
  function Core(r: Record): Record { r.(tier := Cold, lastAccessed := 0.0) }

  function Tokens(rs: seq<Record>): nat {
    if rs == [] then 0 else rs[0].tokens + Tokens(rs[1..])
  }

  predicate HasId(rs: seq<Record>, id: string) { exists r | r in rs :: r.id == id }

  predicate DistinctIds(rs: seq<Record>) {
    forall i, j | 0 <= i < j < |rs| :: rs[i].id != rs[j].id
  }

  // ----- eviction --------------------------------------------------------

  /** (importance, last_accessed, timestamp), compared in that order. */
  predicate RankLe(a: Record, b: Record) {
    a.importance < b.importance
    || (a.importance == b.importance && (a.lastAccessed < b.lastAccessed || (a.lastAccessed == b.lastAccessed && a.timestamp <= b.timestamp)))
  }

  /** Index of the first record of lowest rank, as `min` finds it. */
  function Lowest(rs: seq<Record>): (i: nat)
    requires rs != []
    ensures i < |rs| && forall r | r in rs :: RankLe(rs[i], r)
  {
    if |rs| == 1 then 0
    else
      var j := Lowest(rs[1..]);
      assert rs == [rs[0]] + rs[1..];
      if RankLe(rs[0], rs[1..][j]) then 0 else j + 1
  }

  function RemoveAt(rs: seq<Record>, i: nat): seq<Record>
    requires i < |rs|
  {
    rs[..i] + rs[i + 1..]
  }

  /** `warm[-limit:]` when the list grew past the limit. */
  function Trim(rs: seq<Record>, limit: nat): seq<Record> {
    if |rs| > limit then rs[|rs| - limit..] else rs
  }

  /** `index[r.id] = r`: an existing key keeps its place. */
  function Upsert(rs: seq<Record>, r: Record): seq<Record> {
    if rs == [] then [r]
    else if rs[0].id == r.id then [r] + rs[1..]
    else [rs[0]] + Upsert(rs[1..], r)
  }

  datatype Tiers = Tiers(hot: seq<Record>, warm: seq<Record>, cold: seq<Record>, log: seq<Record>)

  /** One turn of the eviction loop: the lowest record becomes warm, and a cold copy is indexed and logged. */
  function EvictOne(t: Tiers, warmLimit: nat): Tiers
    requires t.hot != []
  {
    var i := Lowest(t.hot);
    var c := t.hot[i].(tier := Cold);
    Tiers(RemoveAt(t.hot, i), Trim(t.warm + [t.hot[i].(tier := Warm)], warmLimit), Upsert(t.cold, c), t.log + [c])
  }

  /** `_evict_if_needed`: loop while over budget, with an early exit at the target. */
  function Evict(t: Tiers, budget: nat, target: nat, warmLimit: nat): Tiers
    decreases |t.hot|
  {
    if Tokens(t.hot) <= budget || t.hot == [] then t
    else
      var t' := EvictOne(t, warmLimit);
      if Tokens(t'.hot) <= target then t' else Evict(t', budget, target, warmLimit)
  }

  /** `max(int(budget * 0.7), 1)` */
  function TargetTokens(budget: nat): nat {
    if budget * 7 / 10 < 1 then 1 else budget * 7 / 10
  }

  /**
   The early exit never fires before the loop's own guard: with any target up to
   the budget the loop stops at the first point within budget.
   */
  lemma {:induction false} TargetNeverMatters(t: Tiers, budget: nat, target: nat, warmLimit: nat)
    requires target <= budget
    ensures Evict(t, budget, target, warmLimit) == Evict(t, budget, budget, warmLimit)
    decreases |t.hot|
  {
    if Tokens(t.hot) > budget && t.hot != [] {
      TargetNeverMatters(EvictOne(t, warmLimit), budget, target, warmLimit);
    }
  }

  lemma TargetWithinBudget(budget: nat)
    requires budget > 0
    ensures 0 < TargetTokens(budget) <= budget
  {
  }

  lemma {:induction false} TokensConcat(a: seq<Record>, b: seq<Record>)
    ensures Tokens(a + b) == Tokens(a) + Tokens(b)
  {
    if a == [] {
      assert a + b == b;
    } else {
      assert (a + b)[1..] == a[1..] + b;
      TokensConcat(a[1..], b);
    }
  }

  lemma RemovedTokens(rs: seq<Record>, i: nat)
    requires i < |rs|
    ensures Tokens(RemoveAt(rs, i)) + rs[i].tokens == Tokens(rs)
  {
    TokensConcat(rs[..i], rs[i..]);
    assert rs[..i] + rs[i..] == rs;
    TokensConcat(rs[..i], rs[i + 1..]);
    assert rs[i..][0] == rs[i] && rs[i..][1..] == rs[i + 1..];
  }

  /** The records a pass evicts, in order. */
  function Evicted(t: Tiers, budget: nat, target: nat, warmLimit: nat): seq<Record>
    decreases |t.hot|
  {
    if Tokens(t.hot) <= budget || t.hot == [] then []
    else
      var t' := EvictOne(t, warmLimit);
      [t.hot[Lowest(t.hot)]] + if Tokens(t'.hot) <= target then [] else Evicted(t', budget, target, warmLimit)
  }

  /** Kept and evicted records together are the hot records of before. */
  predicate Splits(before: seq<Record>, kept: seq<Record>, out: seq<Record>) {
    multiset(before) == multiset(kept) + multiset(out)
  }

  lemma RemoveSplits(rs: seq<Record>, i: nat)
    requires i < |rs|
    ensures Splits(rs, RemoveAt(rs, i), [rs[i]])
  {
    assert rs == rs[..i] + ([rs[i]] + rs[i + 1..]);
  }

  lemma EvictTurn(t: Tiers, budget: nat, target: nat, warmLimit: nat)
    requires Tokens(t.hot) > budget && t.hot != [] && target <= budget
    ensures Evict(t, budget, target, warmLimit) == Evict(EvictOne(t, warmLimit), budget, target, warmLimit)
    ensures Evicted(t, budget, target, warmLimit) == [t.hot[Lowest(t.hot)]] + Evicted(EvictOne(t, warmLimit), budget, target, warmLimit)
  {
    hide EvictOne, RankLe;
  }

  lemma SplitsCons(before: seq<Record>, mid: seq<Record>, x: Record, kept: seq<Record>, out: seq<Record>)
    requires Splits(before, mid, [x]) && Splits(mid, kept, out)
    ensures Splits(before, kept, [x] + out) && forall k | k in kept :: k in before
  {
    assert multiset([x] + out) == multiset([x]) + multiset(out);
    forall k | k in kept ensures k in before { assert k in multiset(kept); assert k in multiset(before); }
  }

  /** `kept` is within budget, nothing is lost, no evicted record ranks above a kept one, and the last eviction was needed. */
  predicate GoodPass(before: seq<Record>, kept: seq<Record>, out: seq<Record>, budget: nat) {
    && Tokens(kept) <= budget && Splits(before, kept, out)
    && (forall e, k | e in out && k in kept :: RankLe(e, k))
    && (out != [] ==> Tokens(kept) + out[|out| - 1].tokens > budget)
  }

  lemma PassCons(before: seq<Record>, mid: seq<Record>, x: Record, kept: seq<Record>, out: seq<Record>, budget: nat)
    requires Splits(before, mid, [x]) && GoodPass(mid, kept, out, budget) && (forall r | r in before :: RankLe(x, r))
    requires Tokens(mid) + x.tokens == Tokens(before) && Tokens(before) > budget && (out == [] ==> kept == mid)
    ensures GoodPass(before, kept, [x] + out, budget)
  {
    hide Splits, Tokens, RankLe;
    SplitsCons(before, mid, x, kept, out);
    var all := [x] + out;
    assert out != [] ==> all[|all| - 1] == out[|out| - 1];
    forall e, k | e in all && k in kept ensures RankLe(e, k) { assert e == x || e in out; }
  }

  /**
   An eviction pass ends within budget, loses nothing, never evicts a record
   ranked above a kept one, and evicts no more than needed: before its last
   eviction the budget was still exceeded.
   */
  lemma {:induction false} EvictionPass(t: Tiers, budget: nat, target: nat, warmLimit: nat)
    requires target <= budget
    ensures var u, out := Evict(t, budget, target, warmLimit), Evicted(t, budget, target, warmLimit);
            GoodPass(t.hot, u.hot, out, budget) && (out == [] ==> u == t)
    decreases |t.hot|
  {
    if Tokens(t.hot) > budget && t.hot != [] {
      var i, t' := Lowest(t.hot), EvictOne(t, warmLimit);
      RemovedTokens(t.hot, i);
      RemoveSplits(t.hot, i);
      assert t'.hot == RemoveAt(t.hot, i) && |t'.hot| < |t.hot|;
      hide *;
      EvictionPass(t', budget, target, warmLimit);
      EvictTurn(t, budget, target, warmLimit);
      PassCons(t.hot, t'.hot, t.hot[i], Evict(t', budget, target, warmLimit).hot, Evicted(t', budget, target, warmLimit), budget);
    } else {
      assert Splits(t.hot, t.hot, []);
    }
  }
}
