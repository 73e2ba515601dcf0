/**
 The memory manager as the program runs it: its tables change in place, the
 eviction loop pops one record at a time, and recall collects candidates in loops.
 */
module MemoryStoreObject {
  import opened Prelude
  import opened LlmTypes
  import opened MemoryStore
  import opened MemoryTiers
  import opened MemoryRecall

  lemma GatherTurn(acc: seq<Record>, rs: seq<Record>, i: nat, name: string)
    requires i < |rs|
    ensures Gather(acc, rs[i..], name) ==
            Gather(if rs[i].name == name && !HasId(acc, rs[i].id) then acc + [rs[i]] else acc, rs[i + 1..], name)
  {
    assert rs[i..][0] == rs[i] && rs[i..][1..] == rs[i + 1..];
  }

  lemma GatherAgentsTurn(acc: seq<Record>, s: Store, i: nat, name: string)
    requires i < |s.order| && forall n | n in s.order :: n in s.agents
    ensures s.order[i] in s.order && (forall n | n in s.order[i..] :: n in s.agents) && forall n | n in s.order[i + 1..] :: n in s.agents
    ensures GatherAgents(acc, s, s.order[i..], name) ==
            GatherAgents(Gather(acc, s.agents[s.order[i]].hot + s.agents[s.order[i]].warm, name), s, s.order[i + 1..], name)
  {
    assert s.order[i..][0] == s.order[i] && s.order[i..][1..] == s.order[i + 1..];
    assert forall n | n in s.order[i..] :: n in s.order;
    assert forall n | n in s.order[i + 1..] :: n in s.order;
    hide Gather;
  }

  class PersistentMemoryManager {
    const warmLimit: nat
    var agents: map<string, AgentState>
    var order: seq<string>
    var coldIndex: seq<Record>
    var log: seq<Record>

    /** Opens a store on an existing log and replays it. */
    constructor (warmLimit: nat, log: seq<Record>)
      ensures this.warmLimit == (if warmLimit < 1 then 1 else warmLimit) && Now() == Reloaded(log)
    {
      this.warmLimit := if warmLimit < 1 then 1 else warmLimit;
      agents, order, coldIndex, this.log := map[], [], [], log;
      new;
      for i := 0 to |log|
        invariant agents == map[] && order == [] && this.log == log && coldIndex == Replay(log[..i])
      {
        ReplayAppend(log[..i], log[i]);
        assert log[..i] + [log[i]] == log[..i + 1];
        coldIndex := Upsert(coldIndex, log[i].(tier := Cold));
      }
      assert log[..|log|] == log;
    }

    function Now(): Store
      reads this
    {
      Store(agents, order, coldIndex, log)
    }

    /** False when it raises. Registering a name again starts it afresh. */
    method RegisterAgent(name: string, budget: int) returns (ok: bool)
      modifies this
      ensures ok <==> name != "" && budget > 0
      ensures ok && name !in old(agents) ==> Now() == RegisteredAs(old(Now()), name, budget)
      ensures ok && name in old(agents) ==> Now() == old(Now()).(agents := old(agents)[name := AgentState(budget, [], [])])
      ensures !ok ==> Now() == old(Now())
    {
      ok := name != "" && budget > 0;
      if ok {
        if name !in agents { order := order + [name]; }
        agents := agents[name := AgentState(budget, [], [])];
      }
    }

    method State(name: string)
      modifies this
      ensures Now() == Registered(old(Now()), name)
    {
      if name !in agents {
        agents := agents[name := AgentState(DEFAULT_BUDGET, [], [])];
        order := order + [name];
      }
    }

    /** The eviction loop; true when something was evicted. */
    method EvictIfNeeded(name: string) returns (evicted: bool)
      requires name in agents
      modifies this
      ensures Now() == WithTiers(old(Now()), name, Evict(TiersOf(old(Now()), name), old(agents)[name].budget, TargetTokens(old(agents)[name].budget), warmLimit))
      ensures evicted <==> Tokens(old(agents)[name].hot) > old(agents)[name].budget
    {
      evicted := false;
      ghost var s := Now();
      var budget := agents[name].budget;
      var target := TargetTokens(budget);
      WithSelf(s, name);
      hide WithTiers, EvictOne, Evict, TargetTokens, Tokens, TiersOf;
      while Tokens(agents[name].hot) > budget && agents[name].hot != []
        invariant name in agents && agents[name].budget == budget && Now() == WithTiers(s, name, TiersOf(Now(), name))
        invariant Evict(TiersOf(s, name), budget, target, warmLimit) == Evict(TiersOf(Now(), name), budget, target, warmLimit)
        invariant evicted ==> Tokens(s.agents[name].hot) > budget
        invariant !evicted ==> Now() == s
        decreases |agents[name].hot|
      {
        ghost var t := TiersOf(Now(), name);
        HotOf(Now(), name);
        EvictUnfolds(t, budget, target, warmLimit);
        EvictLowest(name);
        WithTwice(s, name, t, EvictOne(t, warmLimit));
        WithTwice(s, name, EvictOne(t, warmLimit), t);
        HotOf(Now(), name);
        evicted := true;
        if Tokens(agents[name].hot) <= target { break; }
      }
      HotOf(Now(), name);
      EvictUnfolds(TiersOf(Now(), name), budget, target, warmLimit);
      EmptyTokens(agents[name].hot);
    }

    /** One turn of the loop: the lowest-ranked hot record becomes warm and is persisted. */
    method EvictLowest(name: string)
      requires name in agents && agents[name].hot != []
      modifies this
      ensures Now() == WithTiers(old(Now()), name, EvictOne(TiersOf(old(Now()), name), warmLimit))
      ensures name in agents && |agents[name].hot| < |old(agents)[name].hot|
    {
      var a := agents[name];
      var i := Lowest(a.hot);
      var candidate := a.hot[i];
      var warm := a.warm + [candidate.(tier := Warm)];
      PersistRecord(candidate);
      if |warm| > warmLimit { warm := warm[|warm| - warmLimit..]; }
      agents := agents[name := AgentState(a.budget, RemoveAt(a.hot, i), warm)];
    }

    method PersistRecord(r: Record)
      modifies `coldIndex, `log
      ensures coldIndex == Upsert(old(coldIndex), r.(tier := Cold)) && log == old(log) + [r.(tier := Cold)]
      ensures LogMatches(old(coldIndex), old(log)) && !HasId(old(coldIndex), r.id) ==> LogMatches(coldIndex, log)
    {
      if LogMatches(coldIndex, log) && !HasId(coldIndex, r.id) { LogAppend(coldIndex, log, r.(tier := Cold)); }
      coldIndex := Upsert(coldIndex, r.(tier := Cold));
      log := log + [r.(tier := Cold)];
    }

    method AppendContextFrame(r: Record) returns (evicted: bool)
      modifies this
      ensures Now() == Append(old(Now()), warmLimit, r)
      ensures var a := Registered(old(Now()), r.name).agents[r.name];
              evicted <==> Tokens(a.hot + [r]) > a.budget
    {
      State(r.name);
      ghost var s1 := Now();
      var a := agents[r.name];
      agents := agents[r.name := AgentState(a.budget, a.hot + [r], a.warm)];
      ghost var t := TiersOf(s1, r.name).(hot := a.hot + [r]);
      assert Now() == WithTiers(s1, r.name, t);
      WithTwice(s1, r.name, t, Evict(t, a.budget, TargetTokens(a.budget), warmLimit));
      hide Evict, WithTiers;
      evicted := EvictIfNeeded(r.name);
    }

    /** Collects the agent's records, tier by tier, keeping the first copy of each id. */
    method CollectCandidates(name: string) returns (found: seq<Record>)
      requires forall n | n in order :: n in agents
      ensures found == Candidates(Now(), name)
    {
      hide Gather, GatherAgents;
      found := [];
      ghost var s := Now();
      assert order[0..] == order;
      for i := 0 to |order|
        invariant forall n | n in order[i..] :: n in agents
        invariant GatherAgents([], s, order, name) == GatherAgents(found, s, order[i..], name)
      {
        GatherAgentsTurn(found, s, i, name);
        found := GatherInto(found, agents[order[i]].hot + agents[order[i]].warm, name);
      }
      GatherNone(found, s, order[|order|..], name);
      found := GatherInto(found, coldIndex, name);
    }

    static method GatherInto(acc: seq<Record>, rs: seq<Record>, name: string) returns (found: seq<Record>)
      ensures found == Gather(acc, rs, name)
    {
      hide Gather;
      found := acc;
      assert rs[0..] == rs;
      for i := 0 to |rs|
        invariant Gather(acc, rs, name) == Gather(found, rs[i..], name)
      {
        GatherTurn(found, rs, i, name);
        if rs[i].name == name && !HasId(found, rs[i].id) { found := found + [rs[i]]; }
      }
      GatherEnd(found, rs[|rs|..], name);
    }

    method Recall(name: string, query: Record -> bool, limit: int, now: real) returns (result: seq<Record>)
      requires forall n | n in order :: n in agents
      modifies this
      ensures Now() == RecallStore(old(Now()), name, query, limit, now)
      ensures result == RecallResult(old(Now()), name, query, limit, now)
    {
      var candidates := CollectCandidates(name);
      var matching := Filter(candidates, query);
      var found := Ranked(matching);
      var ids := Ids(found[..SliceEnd(|found|, limit)]);
      var held := Held(Now());
      agents := map n | n in agents :: TouchAgent(agents[n], ids, now);
      coldIndex := Touch(coldIndex, ids - held, now);
      result := Touch(found, ids, now)[..Clip(|found|, limit)];
    }

    /** `[record for record in candidates if matches(record)]` */
    static method Filter(rs: seq<Record>, query: Record -> bool) returns (found: seq<Record>)
      ensures found == Matching(rs, query)
    {
      found := [];
      assert rs[0..] == rs;
      for i := 0 to |rs|
        invariant Matching(rs, query) == found + Matching(rs[i..], query)
      {
        assert rs[i..][0] == rs[i] && rs[i..][1..] == rs[i + 1..];
        if query(Core(rs[i])) { found := found + [rs[i]]; }
      }
      assert rs[|rs|..] == [] && found + [] == found;
    }

    /** `forget`: true when some tier held the id. */
    method Forget(id: string) returns (removed: bool)
      modifies this
      ensures Now() == MemoryTiers.Forget(old(Now()), id)
      ensures removed <==> Forgets(old(Now()), id)
    {
      removed := exists n | n in agents :: HasId(agents[n].hot, id) || HasId(agents[n].warm, id);
      agents := map n | n in agents :: Dropped(agents[n], id);
      if HasId(coldIndex, id) {
        coldIndex := Drop(coldIndex, id);
        removed := true;
        log := coldIndex;
      }
    }
  }

  lemma GatherNone(acc: seq<Record>, s: Store, rest: seq<string>, name: string)
    requires rest == []
    ensures GatherAgents(acc, s, rest, name) == acc
  {
  }

  lemma GatherEnd(acc: seq<Record>, rest: seq<Record>, name: string)
    requires rest == []
    ensures Gather(acc, rest, name) == acc
  {
  }

  lemma EmptyTokens(rs: seq<Record>)
    ensures rs == [] ==> Tokens(rs) == 0
  {
  }

  lemma HotOf(s: Store, name: string)
    requires name in s.agents
    ensures TiersOf(s, name).hot == s.agents[name].hot
  {
  }
}
