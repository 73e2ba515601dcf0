/**
 The whole store under append, recall and forget: tier placement, the log, and
 the flat store it refines.
 */
module MemoryTiers {
  import opened Prelude
  import opened LlmTypes
  import opened MemoryStore

  predicate HasCore(rs: seq<Record>, c: Record) { exists r | r in rs :: Core(r) == c }

  /** `record.last_accessed = now` on the records with one of the given ids. */
  function Touch(rs: seq<Record>, ids: set<string>, now: real): (ts: seq<Record>)
    ensures |ts| == |rs| && forall i | 0 <= i < |rs| :: ts[i] == if rs[i].id in ids then rs[i].(lastAccessed := now) else rs[i]
  {
    seq(|rs|, i requires 0 <= i < |rs| => if rs[i].id in ids then rs[i].(lastAccessed := now) else rs[i])
  }

  /** `[r for r in rs if r.memory_id != id]` */
  function Drop(rs: seq<Record>, id: string): (r: seq<Record>)
    ensures forall x :: x in r <==> x in rs && x.id != id
    ensures DistinctIds(rs) ==> DistinctIds(r)
  {
    if rs == [] then []
    else
      var rest := Drop(rs[1..], id);
      if rs[0].id == id then rest else [rs[0]] + rest
  }

  // ----- the log ---------------------------------------------------------

  function AsCold(r: Record): Record { r.(tier := Cold) }

  predicate AllCold(rs: seq<Record>) { forall r | r in rs :: r.tier == Cold }

  /** Reading the log line by line into the cold index; whatever tier a line names, the record becomes cold. */
  function Replay(log: seq<Record>): (rs: seq<Record>)
    ensures AllCold(rs)
    decreases |log|
  {
    if log == [] then []
    else
      UpsertCold(Replay(log[..|log| - 1]), AsCold(log[|log| - 1]));
      Upsert(Replay(log[..|log| - 1]), AsCold(log[|log| - 1]))
  }

  lemma {:induction false} UpsertCold(rs: seq<Record>, r: Record)
    requires AllCold(rs) && r.tier == Cold
    ensures AllCold(Upsert(rs, r))
    decreases |rs|
  {
    if rs != [] {
      assert rs[0] in rs && forall x | x in rs[1..] :: x in rs;
      UpsertCold(rs[1..], r);
    }
  }

  lemma {:induction false} UpsertHas(rs: seq<Record>, r: Record, id: string)
    ensures HasId(Upsert(rs, r), id) <==> HasId(rs, id) || id == r.id
    decreases |rs|
  {
    if rs != [] {
      UpsertHas(rs[1..], r, id);
      HasSplit(rs, id);
      HasSplit(Upsert(rs, r), id);
      assert rs[0].id != r.id ==> Upsert(rs, r)[1..] == Upsert(rs[1..], r);
      assert rs[0].id == r.id ==> Upsert(rs, r)[1..] == rs[1..];
    } else {
      HasSplit([r], id);
    }
  }

  lemma HasSplit(rs: seq<Record>, id: string)
    requires rs != []
    ensures HasId(rs, id) <==> rs[0].id == id || HasId(rs[1..], id)
  {
    assert rs == [rs[0]] + rs[1..];
  }

  lemma {:induction false} UpsertDistinct(rs: seq<Record>, r: Record)
    requires DistinctIds(rs)
    ensures DistinctIds(Upsert(rs, r))
    decreases |rs|
  {
    if rs != [] {
      UpsertDistinct(rs[1..], r);
      UpsertHas(rs[1..], r, rs[0].id);
      assert !HasId(rs[1..], rs[0].id);
      if rs[0].id != r.id { ConsDistinct(rs[0], Upsert(rs[1..], r)); } else { ConsDistinct(r, rs[1..]); }
    }
  }

  lemma ConsDistinct(r: Record, rs: seq<Record>)
    requires DistinctIds(rs) && !HasId(rs, r.id)
    ensures DistinctIds([r] + rs)
  {
    assert forall i | 0 <= i < |rs| :: rs[i] in rs;
  }

  /** Whatever a log holds, its replay has every id once. */
  lemma {:induction false} ReplayIds(log: seq<Record>)
    ensures DistinctIds(Replay(log))
    decreases |log|
  {
    if log != [] {
      ReplayIds(log[..|log| - 1]);
      UpsertDistinct(Replay(log[..|log| - 1]), AsCold(log[|log| - 1]));
    }
  }

  function Blur(rs: seq<Record>): (b: seq<Record>)
    ensures |b| == |rs| && forall i | 0 <= i < |rs| :: b[i] == rs[i].(lastAccessed := 0.0)
  {
    seq(|rs|, i requires 0 <= i < |rs| => rs[i].(lastAccessed := 0.0))
  }

  lemma {:induction false} UpsertFresh(rs: seq<Record>, r: Record)
    requires !HasId(rs, r.id)
    ensures Upsert(rs, r) == rs + [r]
    decreases |rs|
  {
    if rs != [] {
      assert rs[0] in rs && forall x | x in rs[1..] :: x in rs;
      UpsertFresh(rs[1..], r);
    }
  }

  lemma ReplayAppend(log: seq<Record>, r: Record)
    ensures Replay(log + [r]) == Upsert(Replay(log), AsCold(r))
  {
    assert (log + [r])[..|log|] == log;
  }

  lemma {:induction false} ReplayDistinct(rs: seq<Record>)
    requires DistinctIds(rs) && AllCold(rs)
    ensures Replay(rs) == rs
    decreases |rs|
  {
    if rs != [] {
      var n := |rs| - 1;
      assert rs == rs[..n] + [rs[n]] && rs[n] in rs && AsCold(rs[n]) == rs[n];
      assert AllCold(rs[..n]) by { assert forall x | x in rs[..n] :: x in rs; }
      ReplayDistinct(rs[..n]);
      UpsertFresh(rs[..n], rs[n]);
    }
  }

  /** The log replays to the cold index, except for access times; the index holds cold records only. */
  predicate LogMatches(cold: seq<Record>, log: seq<Record>) {
    Blur(Replay(log)) == Blur(cold) && AllCold(cold)
  }

  lemma BlurIds(a: seq<Record>, b: seq<Record>, id: string)
    requires Blur(a) == Blur(b)
    ensures HasId(a, id) <==> HasId(b, id)
  {
    assert forall i | 0 <= i < |a| :: Blur(a)[i].id == a[i].id && Blur(b)[i].id == b[i].id;
    if HasId(a, id) { var i :| 0 <= i < |a| && a[i].id == id; assert b[i].id == id && b[i] in b; }
    if HasId(b, id) { var i :| 0 <= i < |b| && b[i].id == id; assert a[i].id == id && a[i] in a; }
  }

  lemma LogAppend(cold: seq<Record>, log: seq<Record>, r: Record)
    requires LogMatches(cold, log) && !HasId(cold, r.id) && r.tier == Cold
    ensures LogMatches(Upsert(cold, r), log + [r])
  {
    assert AsCold(r) == r;
    UpsertCold(cold, r);
    ReplayAppend(log, r);
    BlurIds(cold, Replay(log), r.id);
    UpsertFresh(cold, r);
    UpsertFresh(Replay(log), r);
    hide Replay, Upsert;
    assert Blur(Replay(log) + [r]) == Blur(Replay(log)) + Blur([r]);
    assert Blur(cold + [r]) == Blur(cold) + Blur([r]);
  }

  // ----- the invariant ---------------------------------------------------

  /** An agent's hot records carry its name, are distinct and not cold; its warm ones are copies of cold ones. */
  predicate AgentShape(a: AgentState, name: string, cold: seq<Record>) {
    && (forall r | r in a.hot :: r.name == name && !HasId(cold, r.id))
    && DistinctIds(a.hot) && DistinctIds(a.warm)
    && (forall w | w in a.warm :: w.name == name && HasCore(cold, Core(w)))
  }

  /** Hot records of different agents have different ids. */
  predicate Apart(a: AgentState, b: AgentState) {
    forall r, q | r in a.hot && q in b.hot :: r.id != q.id
  }

  predicate Shaped(s: Store) {
    && s.agents.Keys == (set n | n in s.order)
    && DistinctIds(s.cold) && LogMatches(s.cold, s.log)
    && (forall n | n in s.agents :: AgentShape(s.agents[n], n, s.cold))
    && forall n, m | n in s.agents && m in s.agents && n != m :: Apart(s.agents[n], s.agents[m])
  }

  predicate WithinBudget(a: AgentState) { a.budget > 0 && Tokens(a.hot) <= a.budget }

  predicate Tiered(s: Store) {
    Shaped(s) && forall n | n in s.agents :: WithinBudget(s.agents[n])
  }

  /** A record is in the flat store when it is hot or cold. */
  predicate InFlat(s: Store, c: Record) {
    (c.name in s.agents && HasCore(s.agents[c.name].hot, c)) || HasCore(s.cold, c)
  }

  ghost predicate Refines(s: Store, flat: set<Record>) {
    forall c: Record :: c in flat <==> InFlat(s, c)
  }

  // ----- operations ------------------------------------------------------

  /** `register_agent` for a name that is not registered yet. */
  function RegisteredAs(s: Store, name: string, budget: nat): Store {
    if name in s.agents then s
    else s.(agents := s.agents[name := AgentState(budget, [], [])], order := s.order + [name])
  }

  /** `_state`: an unknown agent is registered with the default budget. */
  function Registered(s: Store, name: string): Store { RegisteredAs(s, name, DEFAULT_BUDGET) }

  function TiersOf(s: Store, name: string): Tiers
    requires name in s.agents
  {
    Tiers(s.agents[name].hot, s.agents[name].warm, s.cold, s.log)
  }

  function WithTiers(s: Store, name: string, t: Tiers): Store
    requires name in s.agents
  {
    Store(s.agents[name := AgentState(s.agents[name].budget, t.hot, t.warm)], s.order, t.cold, t.log)
  }

  /** `append_context_frame` for a record that was just built. */
  function Append(s: Store, warmLimit: nat, r: Record): Store {
    var s1 := Registered(s, r.name);
    var t := TiersOf(s1, r.name);
    var b := s1.agents[r.name].budget;
    WithTiers(s1, r.name, Evict(t.(hot := t.hot + [r]), b, TargetTokens(b), warmLimit))
  }

  /** A new id clashes with no hot and no cold record. */
  predicate FreshId(s: Store, id: string) {
    && (forall n | n in s.agents :: !HasId(s.agents[n].hot, id))
    && !HasId(s.cold, id)
  }

  function Dropped(a: AgentState, id: string): AgentState {
    AgentState(a.budget, Drop(a.hot, id), Drop(a.warm, id))
  }

  /** `forget`: the id leaves every tier, and the log is rewritten when it was cold. */
  function Forget(s: Store, id: string): Store {
    var agents := map n | n in s.agents :: Dropped(s.agents[n], id);
    if HasId(s.cold, id) then Store(agents, s.order, Drop(s.cold, id), Drop(s.cold, id))
    else Store(agents, s.order, s.cold, s.log)
  }

  // ----- eviction keeps the tiers ----------------------------------------

  lemma RemovedMembers(rs: seq<Record>, i: nat)
    requires i < |rs| && DistinctIds(rs)
    ensures DistinctIds(RemoveAt(rs, i)) && forall r :: r in RemoveAt(rs, i) <==> r in rs && r != rs[i]
  {
    var out := RemoveAt(rs, i);
    forall r ensures r in out <==> r in rs && r != rs[i] {
      if r in rs && r != rs[i] {
        var k :| 0 <= k < |rs| && rs[k] == r;
        assert out[if k < i then k else k - 1] == r;
      }
    }
  }

  lemma UpsertMembers(rs: seq<Record>, r: Record)
    requires !HasId(rs, r.id) && DistinctIds(rs)
    ensures DistinctIds(Upsert(rs, r)) && forall x :: x in Upsert(rs, r) <==> x in rs || x == r
  {
    UpsertFresh(rs, r);
    hide Upsert;
    forall i | 0 <= i < |rs| ensures rs[i].id != r.id { assert rs[i] in rs; }
  }

  lemma TrimMembers(rs: seq<Record>, limit: nat)
    ensures forall r | r in Trim(rs, limit) :: r in rs
    ensures DistinctIds(rs) ==> DistinctIds(Trim(rs, limit))
  {
  }

  /** One eviction moves one record from hot to cold: the tiers stay in shape and the flat store does not change. */
  lemma EvictOneShape(a: AgentState, name: string, s: Store, warmLimit: nat)
    requires AgentShape(a, name, s.cold) && DistinctIds(s.cold) && LogMatches(s.cold, s.log) && a.hot != []
    ensures var t := EvictOne(Tiers(a.hot, a.warm, s.cold, s.log), warmLimit);
            && AgentShape(AgentState(a.budget, t.hot, t.warm), name, t.cold)
            && DistinctIds(t.cold) && LogMatches(t.cold, t.log)
            && (forall r :: r in t.hot <==> r in a.hot && r != a.hot[Lowest(a.hot)])
            && (forall x :: x in t.cold <==> x in s.cold || x == a.hot[Lowest(a.hot)].(tier := Cold))
  {
    var i := Lowest(a.hot);
    var x := a.hot[i];
    var c := x.(tier := Cold);
    assert x in a.hot;
    RemovedMembers(a.hot, i);
    UpsertMembers(s.cold, c);
    LogAppend(s.cold, s.log, c);
    assert DistinctIds(a.warm + [x.(tier := Warm)]) by {
      forall i | 0 <= i < |a.warm| ensures a.warm[i].id != x.id {
        assert a.warm[i] in a.warm;
        var q :| q in s.cold && Core(q) == Core(a.warm[i]);
        assert q.id == a.warm[i].id;
      }
    }
    TrimMembers(a.warm + [x.(tier := Warm)], warmLimit);
    hide Upsert, RemoveAt, Trim, LogMatches, DistinctIds, Lowest;
    var t := EvictOne(Tiers(a.hot, a.warm, s.cold, s.log), warmLimit);
    forall r | r in t.hot ensures r.name == name && !HasId(t.cold, r.id) {
      DistinctMembers(a.hot, r, x);
    }
    assert DistinctIds(t.warm);
    forall w | w in t.warm ensures w.name == name && HasCore(t.cold, Core(w)) {
      if w in a.warm {
        var q :| q in s.cold && Core(q) == Core(w);
        assert q in t.cold;
      } else {
        assert w == x.(tier := Warm) && Core(c) == Core(w) && c in t.cold;
      }
    }
  }

  lemma DistinctMembers(rs: seq<Record>, a: Record, b: Record)
    requires DistinctIds(rs) && a in rs && b in rs && a != b
    ensures a.id != b.id
  {
  }

  /** Replacing one agent's tiers keeps the shape when its hot list only shrinks. */
  lemma WithShaped(s: Store, name: string, t: Tiers)
    requires Shaped(s) && name in s.agents && (forall r | r in t.hot :: r in s.agents[name].hot)
    requires AgentShape(AgentState(s.agents[name].budget, t.hot, t.warm), name, t.cold)
    requires DistinctIds(t.cold) && LogMatches(t.cold, t.log)
    requires forall n | n in s.agents && n != name :: AgentShape(s.agents[n], n, t.cold)
    ensures Shaped(WithTiers(s, name, t))
  {
    hide AgentShape, DistinctIds, LogMatches, Apart;
    var s' := WithTiers(s, name, t);
    forall n, m | n in s.agents && m in s.agents && n != m ensures Apart(s'.agents[n], s'.agents[m]) {
      ApartShrinks(s.agents[n], s.agents[m], s'.agents[n], s'.agents[m]);
    }
  }

  lemma EvictOneShaped(s: Store, name: string, warmLimit: nat)
    requires Shaped(s) && name in s.agents && s.agents[name].hot != []
    ensures Shaped(WithTiers(s, name, EvictOne(TiersOf(s, name), warmLimit)))
  {
    var a := s.agents[name];
    EvictOneShape(a, name, s, warmLimit);
    var x := a.hot[Lowest(a.hot)];
    assert x in a.hot;
    var t := EvictOne(TiersOf(s, name), warmLimit);
    hide EvictOne, Lowest, DistinctIds, LogMatches, AgentShape, Apart;
    forall n | n in s.agents && n != name ensures AgentShape(s.agents[n], n, t.cold) { OtherShape(s, name, n, x, t.cold); }
    hide Shaped;
    WithShaped(s, name, t);
  }

  lemma ApartShrinks(a: AgentState, b: AgentState, a': AgentState, b': AgentState)
    requires Apart(a, b) && (forall r | r in a'.hot :: r in a.hot) && forall r | r in b'.hot :: r in b.hot
    ensures Apart(a', b')
  {
  }

  lemma EvictOneFlat(s: Store, name: string, warmLimit: nat, c: Record)
    requires Shaped(s) && name in s.agents && s.agents[name].hot != []
    ensures InFlat(WithTiers(s, name, EvictOne(TiersOf(s, name), warmLimit)), c) <==> InFlat(s, c)
  {
    var a := s.agents[name];
    EvictOneShape(a, name, s, warmLimit);
    var x := a.hot[Lowest(a.hot)];
    assert x in a.hot && x.name == name;
    var s' := WithTiers(s, name, EvictOne(TiersOf(s, name), warmLimit));
    hide EvictOne, Lowest, Shaped, AgentShape, HasCore;
    MovedFlat(a.hot, s.cold, s'.agents[name].hot, s'.cold, x, c);
  }

  lemma OtherShape(s: Store, name: string, n: string, x: Record, cold: seq<Record>)
    requires name in s.agents && n in s.agents && n != name && x in s.agents[name].hot
    requires AgentShape(s.agents[n], n, s.cold) && Apart(s.agents[n], s.agents[name])
    requires forall r :: r in cold <==> r in s.cold || r == x.(tier := Cold)
    ensures AgentShape(s.agents[n], n, cold)
  {
    forall w | w in s.agents[n].warm ensures HasCore(cold, Core(w)) {
      var q :| q in s.cold && Core(q) == Core(w);
      assert q in cold;
    }
  }

  /** Moving one record from hot to cold. */
  lemma MovedFlat(hot: seq<Record>, cold: seq<Record>, hot': seq<Record>, cold': seq<Record>, x: Record, c: Record)
    requires x in hot
    requires forall r :: r in hot' <==> r in hot && r != x
    requires forall r :: r in cold' <==> r in cold || r == x.(tier := Cold)
    ensures HasCore(hot', c) || HasCore(cold', c) <==> HasCore(hot, c) || HasCore(cold, c)
    ensures c.name != x.name ==> (HasCore(cold', c) <==> HasCore(cold, c))
  {
    var y := x.(tier := Cold);
    assert Core(y) == Core(x) && y in cold';
    if r :| r in hot && Core(r) == c { assert r in hot' || r == x; }
    if r :| r in cold && Core(r) == c { assert r in cold'; }
  }

  /** Both stores hold the same records. */
  ghost predicate SameFlat(s: Store, s': Store) {
    forall c: Record :: InFlat(s', c) <==> InFlat(s, c)
  }

  lemma SameFlatTwice(a: Store, b: Store, c: Store)
    requires SameFlat(a, b) && SameFlat(b, c)
    ensures SameFlat(a, c)
  {
  }

  lemma EvictOneKeeps(s: Store, name: string, warmLimit: nat)
    requires Shaped(s) && name in s.agents && s.agents[name].hot != []
    ensures var s' := WithTiers(s, name, EvictOne(TiersOf(s, name), warmLimit));
            Shaped(s') && SameFlat(s, s') && |s'.agents[name].hot| < |s.agents[name].hot|
  {
    EvictOneShaped(s, name, warmLimit);
    var s' := WithTiers(s, name, EvictOne(TiersOf(s, name), warmLimit));
    forall c: Record ensures InFlat(s', c) <==> InFlat(s, c) { EvictOneFlat(s, name, warmLimit, c); }
  }

  lemma EvictUnfolds(t: Tiers, budget: nat, target: nat, warmLimit: nat)
    ensures Evict(t, budget, target, warmLimit) ==
            if Tokens(t.hot) <= budget || t.hot == [] then t
            else if Tokens(EvictOne(t, warmLimit).hot) <= target then EvictOne(t, warmLimit)
            else Evict(EvictOne(t, warmLimit), budget, target, warmLimit)
  {
  }

  lemma {:induction false} EvictKeeps(s: Store, name: string, target: nat, warmLimit: nat)
    requires Shaped(s) && name in s.agents
    ensures var s' := WithTiers(s, name, Evict(TiersOf(s, name), s.agents[name].budget, target, warmLimit));
            Shaped(s') && SameFlat(s, s')
    decreases |s.agents[name].hot|
  {
    var t, b := TiersOf(s, name), s.agents[name].budget;
    assert t.hot == s.agents[name].hot;
    hide Shaped, SameFlat, EvictOne, Evict, Tokens, WithTiers, TiersOf;
    EvictUnfolds(t, b, target, warmLimit);
    WithSelf(s, name);
    if Tokens(t.hot) > b && t.hot != [] {
      EvictOneKeeps(s, name, warmLimit);
      var t' := EvictOne(t, warmLimit);
      WithTwice(s, name, t', Evict(t', b, target, warmLimit));
      if Tokens(t'.hot) > target {
        var s1 := WithTiers(s, name, t');
        EvictKeeps(s1, name, target, warmLimit);
        SameFlatTwice(s, s1, WithTiers(s1, name, Evict(t', b, target, warmLimit)));
      }
    } else {
      SameFlatSelf(s);
    }
  }

  lemma SameFlatSelf(s: Store)
    ensures SameFlat(s, s)
  {
  }

  lemma WithSelf(s: Store, name: string)
    requires name in s.agents
    ensures WithTiers(s, name, TiersOf(s, name)) == s
  {
  }

  lemma WithTwice(s: Store, name: string, t: Tiers, u: Tiers)
    requires name in s.agents
    ensures var s1 := WithTiers(s, name, t);
            name in s1.agents && TiersOf(s1, name) == t && s1.agents[name].budget == s.agents[name].budget && |s1.agents[name].hot| == |t.hot|
            && WithTiers(s1, name, u) == WithTiers(s, name, u)
  {
  }

  // ----- append ----------------------------------------------------------

  lemma RegisteredKeeps(s: Store, name: string, budget: nat)
    requires Tiered(s) && budget > 0
    ensures var s1 := RegisteredAs(s, name, budget); Tiered(s1) && name in s1.agents && SameFlat(s, s1)
  {
    if name !in s.agents {
      hide LogMatches, DistinctIds, AgentShape, WithinBudget, HasCore;
      var s1, blank := RegisteredAs(s, name, budget), AgentState(budget, [], []);
      BlankAgent(name, budget, s.cold);
      assert s1.agents.Keys == (set n | n in s1.order) by { assert s1.order == s.order + [name]; }
      forall n, m | n in s1.agents && m in s1.agents && n != m ensures Apart(s1.agents[n], s1.agents[m]) {
        if n in s.agents && m in s.agents { assert Apart(s.agents[n], s.agents[m]); }
      }
      hide Apart;
      forall c: Record ensures InFlat(s1, c) <==> InFlat(s, c) { NoCore(c); }
    } else {
      SameFlatSelf(s);
    }
  }

  lemma BlankAgent(name: string, budget: nat, cold: seq<Record>)
    requires budget > 0
    ensures AgentShape(AgentState(budget, [], []), name, cold) && WithinBudget(AgentState(budget, [], []))
  {
  }

  lemma NoCore(c: Record)
    ensures !HasCore([], c)
  {
  }

  lemma FreshRegistered(s: Store, name: string, id: string)
    requires FreshId(s, id)
    ensures FreshId(Registered(s, name), id)
  {
  }

  /** Pushing a fresh record on an agent's hot list, before any eviction. */
  lemma PushKeeps(s: Store, r: Record)
    requires Shaped(s) && r.name in s.agents && FreshId(s, r.id)
    ensures var s' := WithTiers(s, r.name, TiersOf(s, r.name).(hot := s.agents[r.name].hot + [r]));
            Shaped(s') && forall c: Record :: InFlat(s', c) <==> InFlat(s, c) || c == Core(r)
  {
    var a := s.agents[r.name];
    var t := TiersOf(s, r.name).(hot := a.hot + [r]);
    var s' := WithTiers(s, r.name, t);
    PushShape(a, r.name, s.cold, r);
    hide LogMatches, DistinctIds, AgentShape;
    forall n, m | n in s'.agents && m in s'.agents && n != m ensures Apart(s'.agents[n], s'.agents[m]) {
      assert Apart(s.agents[n], s.agents[m]);
      if n == r.name { PushApart(s.agents[n], s.agents[m], s'.agents[n], r); }
      if m == r.name { assert Apart(s.agents[m], s.agents[n]); PushApart(s.agents[m], s.agents[n], s'.agents[m], r); }
    }
    forall c: Record ensures HasCore(a.hot + [r], c) <==> HasCore(a.hot, c) || c == Core(r) { PushCore(a.hot, r, c); }
  }

  lemma PushCore(rs: seq<Record>, r: Record, c: Record)
    ensures HasCore(rs + [r], c) <==> HasCore(rs, c) || c == Core(r)
  {
    assert (rs + [r])[|rs|] == r;
    if x :| x in rs && Core(x) == c { assert x in rs + [r]; }
  }

  lemma PushShape(a: AgentState, name: string, cold: seq<Record>, r: Record)
    requires AgentShape(a, name, cold) && r.name == name && !HasId(cold, r.id) && !HasId(a.hot, r.id)
    ensures AgentShape(AgentState(a.budget, a.hot + [r], a.warm), name, cold)
  {
    forall i | 0 <= i < |a.hot| ensures a.hot[i].id != r.id { assert a.hot[i] in a.hot; }
  }

  lemma PushApart(a: AgentState, b: AgentState, a': AgentState, r: Record)
    requires Apart(a, b) && a'.hot == a.hot + [r] && !HasId(b.hot, r.id)
    ensures Apart(a', b) && Apart(b, a')
  {
  }

  /** Appending adds exactly the new record to the flat store, wherever evictions put the others. */
  lemma AppendKeeps(s: Store, warmLimit: nat, r: Record)
    requires Tiered(s) && FreshId(s, r.id)
    ensures Tiered(Append(s, warmLimit, r)) && forall c: Record :: InFlat(Append(s, warmLimit, r), c) <==> InFlat(s, c) || c == Core(r)
  {
    var name, s1 := r.name, Registered(s, r.name);
    RegisteredKeeps(s, name, DEFAULT_BUDGET);
    FreshRegistered(s, name, r.id);
    PushKeeps(s1, r);
    var t, b := TiersOf(s1, name).(hot := s1.agents[name].hot + [r]), s1.agents[name].budget;
    var s2 := WithTiers(s1, name, t);
    var u := Evict(t, b, TargetTokens(b), warmLimit);
    WithTwice(s1, name, t, u);
    EvictKeeps(s2, name, TargetTokens(b), warmLimit);
    EvictionPass(t, b, TargetTokens(b), warmLimit);
    assert Tokens(u.hot) <= b;
    assert Append(s, warmLimit, r) == WithTiers(s1, name, u);
    hide Evict, Tokens, Registered, Evicted, Shaped, InFlat, TiersOf, WithinBudget, GoodPass;
    WithBounded(s1, name, u);
  }

  lemma WithBounded(s: Store, name: string, u: Tiers)
    requires name in s.agents && (forall n | n in s.agents :: WithinBudget(s.agents[n])) && Tokens(u.hot) <= s.agents[name].budget
    ensures forall n | n in WithTiers(s, name, u).agents :: WithinBudget(WithTiers(s, name, u).agents[n])
  {
    assert WithinBudget(s.agents[name]);
    hide Tokens;
  }

  // ----- forget ----------------------------------------------------------

  lemma {:induction false} DropAbsent(rs: seq<Record>, id: string)
    requires !HasId(rs, id)
    ensures Drop(rs, id) == rs
  {
    if rs != [] {
      assert rs[0] in rs && forall x | x in rs[1..] :: x in rs;
      DropAbsent(rs[1..], id);
    }
  }

  lemma {:induction false} DropTokens(rs: seq<Record>, id: string)
    ensures Tokens(Drop(rs, id)) <= Tokens(rs)
  {
    if rs != [] { DropTokens(rs[1..], id); }
  }

  lemma DropCore(rs: seq<Record>, id: string, c: Record)
    ensures HasCore(Drop(rs, id), c) <==> HasCore(rs, c) && c.id != id
  {
    if r :| r in rs && Core(r) == c { assert r in Drop(rs, id) <==> r.id != id; }
  }

  lemma DropShape(a: AgentState, name: string, cold: seq<Record>, id: string)
    requires AgentShape(a, name, cold)
    ensures AgentShape(Dropped(a, id), name, Drop(cold, id))
  {
    forall w | w in Drop(a.warm, id) ensures HasCore(Drop(cold, id), Core(w)) { DropCore(cold, id, Core(w)); }
    forall r | r in Drop(a.hot, id) ensures !HasId(Drop(cold, id), r.id) { }
  }

  /** Forgetting removes exactly the records with that id, and the log is rewritten to match. */
  lemma ForgetKeeps(s: Store, id: string)
    requires Tiered(s)
    ensures Tiered(Forget(s, id)) && forall c: Record :: InFlat(Forget(s, id), c) <==> InFlat(s, c) && c.id != id
  {
    ForgetShaped(s, id);
    var s' := Forget(s, id);
    forall n | n in s.agents ensures WithinBudget(s'.agents[n]) {
      DropTokens(s.agents[n].hot, id);
      assert WithinBudget(s.agents[n]);
    }
    ForgottenCold(s, id);
    hide Drop, Shaped, Tokens, HasCore;
    forall c: Record ensures InFlat(s', c) <==> InFlat(s, c) && c.id != id {
      DropCore(s.cold, id, c);
      if c.name in s.agents { DropCore(s.agents[c.name].hot, id, c); }
    }
  }

  lemma ForgottenCold(s: Store, id: string)
    requires DistinctIds(s.cold) && LogMatches(s.cold, s.log)
    ensures Forget(s, id).cold == Drop(s.cold, id) && LogMatches(Forget(s, id).cold, Forget(s, id).log)
  {
    assert AllCold(Drop(s.cold, id));
    if !HasId(s.cold, id) { DropAbsent(s.cold, id); } else { ReplayDistinct(Drop(s.cold, id)); }
    hide Drop, Replay, Blur;
  }

  lemma ForgetShaped(s: Store, id: string)
    requires Shaped(s)
    ensures Shaped(Forget(s, id))
  {
    hide LogMatches, DistinctIds, Drop, Replay, HasId, Dropped, AgentShape, Apart, AllCold, Blur;
    var s' := Forget(s, id);
    ForgottenCold(s, id);
    assert DistinctIds(Drop(s.cold, id));
    forall n | n in s.agents ensures AgentShape(s'.agents[n], n, s'.cold) { DropShape(s.agents[n], n, s.cold, id); }
    forall n, m | n in s.agents && m in s.agents && n != m ensures Apart(s'.agents[n], s'.agents[m]) { DropApart(s.agents[n], s.agents[m], id); }
  }

  lemma DropApart(a: AgentState, b: AgentState, id: string)
    requires Apart(a, b)
    ensures Apart(Dropped(a, id), Dropped(b, id))
  {
  }

  /** `forget` reports whether anything was removed. */
  predicate Forgets(s: Store, id: string) {
    HasId(s.cold, id) || exists n | n in s.agents :: HasId(s.agents[n].hot, id) || HasId(s.agents[n].warm, id)
  }

  lemma ForgetsIff(s: Store, id: string)
    requires Tiered(s)
    ensures Forgets(s, id) <==> exists c: Record :: c.id == id && InFlat(s, c)
  {
    if Forgets(s, id) {
      if HasId(s.cold, id) {
        var r :| r in s.cold && r.id == id;
        assert InFlat(s, Core(r));
      } else {
        var n :| n in s.agents && (HasId(s.agents[n].hot, id) || HasId(s.agents[n].warm, id));
        assert AgentShape(s.agents[n], n, s.cold);
        if HasId(s.agents[n].hot, id) {
          var r :| r in s.agents[n].hot && r.id == id;
          assert InFlat(s, Core(r));
        } else {
          var w :| w in s.agents[n].warm && w.id == id;
          assert InFlat(s, Core(w));
        }
      }
    }
    if c: Record :| c.id == id && InFlat(s, c) {
      if HasCore(s.cold, c) {
        var r :| r in s.cold && Core(r) == c;
        assert HasId(s.cold, id);
      } else {
        var r :| r in s.agents[c.name].hot && Core(r) == c;
        assert HasId(s.agents[c.name].hot, id);
      }
    }
  }
}
