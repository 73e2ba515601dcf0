/** Recall over all tiers, and whole runs of the store against a flat set of records. */
module MemoryRecall {
  import opened Prelude
  import opened LlmTypes
  import opened MemoryStore
  import opened MemoryTiers

  // ----- candidates ------------------------------------------------------

  /** `setdefault` over a list: the agent's records whose id is not there yet. */
  function Gather(acc: seq<Record>, rs: seq<Record>, name: string): seq<Record>
    decreases |rs|
  {
    if rs == [] then acc
    else Gather(if rs[0].name == name && !HasId(acc, rs[0].id) then acc + [rs[0]] else acc, rs[1..], name)
  }

  function GatherAgents(acc: seq<Record>, s: Store, order: seq<string>, name: string): seq<Record>
    requires forall n | n in order :: n in s.agents
    decreases |order|
  {
    if order == [] then acc
    else
      assert order[0] in order && forall n | n in order[1..] :: n in order;
      GatherAgents(Gather(acc, s.agents[order[0]].hot + s.agents[order[0]].warm, name), s, order[1..], name)
  }

  /** Hot and warm records of every agent first, then the cold index. */
  function Candidates(s: Store, name: string): seq<Record>
    requires forall n | n in s.order :: n in s.agents
  {
    Gather(GatherAgents([], s, s.order, name), s.cold, name)
  }

  // ----- ranking ---------------------------------------------------------

  /** (importance, timestamp), the recall order. */
  predicate KeyLe(a: Record, b: Record) {
    a.importance < b.importance || (a.importance == b.importance && a.timestamp <= b.timestamp)
  }

  predicate Descending(rs: seq<Record>) {
    forall i, j | 0 <= i < j < |rs| :: KeyLe(rs[j], rs[i])
  }

  function Insert(r: Record, rs: seq<Record>): seq<Record> {
    if rs == [] then [r] else if KeyLe(rs[0], r) then [r] + rs else [rs[0]] + Insert(r, rs[1..])
  }

  /** `sort(key=..., reverse=True)`: stable, largest key first. */
  function Ranked(rs: seq<Record>): seq<Record> {
    if rs == [] then [] else Insert(rs[0], Ranked(rs[1..]))
  }

  function Matching(rs: seq<Record>, query: Record -> bool): (ms: seq<Record>)
    ensures forall r :: r in ms <==> r in rs && query(Core(r))
    ensures DistinctIds(rs) ==> DistinctIds(ms)
  {
    if rs == [] then []
    else
      var rest := Matching(rs[1..], query);
      assert forall i | 0 <= i < |rest| :: rest[i] in rest && rest[i] in rs[1..];
      if query(Core(rs[0])) then [rs[0]] + rest else rest
  }

  function Found(s: Store, name: string, query: Record -> bool): seq<Record>
    requires forall n | n in s.order :: n in s.agents
  {
    Ranked(Matching(Candidates(s, name), query))
  }

  /** Where the slice `[:limit]` of a list of length `n` ends. */
  function SliceEnd(n: nat, limit: int): nat {
    if limit >= 0 then (if limit < n then limit else n) else if n + limit > 0 then n + limit else 0
  }

  function Clip(n: nat, limit: int): nat { SliceEnd(n, if limit < 0 then 0 else limit) }

  function Ids(rs: seq<Record>): set<string> { set r | r in rs :: r.id }

  /** Ids that some agent holds hot or warm: those copies are touched, not the cold one. */
  function Held(s: Store): set<string> {
    set n, r | n in s.agents && r in s.agents[n].hot + s.agents[n].warm :: r.id
  }

  function TouchAgent(a: AgentState, ids: set<string>, now: real): AgentState {
    AgentState(a.budget, Touch(a.hot, ids, now), Touch(a.warm, ids, now))
  }

  function TouchStore(s: Store, ids: set<string>, now: real): Store {
    Store(map n | n in s.agents :: TouchAgent(s.agents[n], ids, now), s.order, Touch(s.cold, ids - Held(s), now), s.log)
  }

  /** `recall`: the touched store and the returned copies. */
  function RecallStore(s: Store, name: string, query: Record -> bool, limit: int, now: real): Store
    requires forall n | n in s.order :: n in s.agents
  {
    var found := Found(s, name, query);
    TouchStore(s, Ids(found[..SliceEnd(|found|, limit)]), now)
  }

  function RecallResult(s: Store, name: string, query: Record -> bool, limit: int, now: real): seq<Record>
    requires forall n | n in s.order :: n in s.agents
  {
    var found := Found(s, name, query);
    Touch(found, Ids(found[..SliceEnd(|found|, limit)]), now)[..Clip(|found|, limit)]
  }

  // ----- touching changes no content -------------------------------------

  lemma TouchCore(rs: seq<Record>, ids: set<string>, now: real, c: Record)
    ensures HasCore(Touch(rs, ids, now), c) <==> HasCore(rs, c)
    ensures HasId(Touch(rs, ids, now), c.id) <==> HasId(rs, c.id)
  {
    var ts := Touch(rs, ids, now);
    if i :| 0 <= i < |rs| && Core(rs[i]) == c { assert Core(ts[i]) == c && ts[i] in ts; }
    if i :| 0 <= i < |ts| && Core(ts[i]) == c { assert Core(rs[i]) == c && rs[i] in rs; }
    if i :| 0 <= i < |rs| && rs[i].id == c.id { assert ts[i] in ts; }
    if i :| 0 <= i < |ts| && ts[i].id == c.id { assert rs[i] in rs; }
  }

  lemma {:induction false} TouchTokens(rs: seq<Record>, ids: set<string>, now: real)
    ensures Tokens(Touch(rs, ids, now)) == Tokens(rs)
    decreases |rs|
  {
    if rs != [] {
      assert Touch(rs, ids, now)[1..] == Touch(rs[1..], ids, now);
      TouchTokens(rs[1..], ids, now);
    }
  }

  lemma TouchShape(a: AgentState, name: string, cold: seq<Record>, ids: set<string>, coldIds: set<string>, now: real)
    requires AgentShape(a, name, cold)
    ensures AgentShape(TouchAgent(a, ids, now), name, Touch(cold, coldIds, now))
  {
    var b, cold' := TouchAgent(a, ids, now), Touch(cold, coldIds, now);
    forall i | 0 <= i < |b.hot| ensures b.hot[i].name == name && !HasId(cold', b.hot[i].id) {
      assert a.hot[i] in a.hot;
      TouchCore(cold, coldIds, now, b.hot[i]);
    }
    forall i | 0 <= i < |b.warm| ensures b.warm[i].name == name && HasCore(cold', Core(b.warm[i])) {
      assert a.warm[i] in a.warm && Core(b.warm[i]) == Core(a.warm[i]);
      TouchCore(cold, coldIds, now, Core(b.warm[i]));
    }
  }

  lemma TouchApart(a: AgentState, b: AgentState, ids: set<string>, now: real)
    requires Apart(a, b)
    ensures Apart(TouchAgent(a, ids, now), TouchAgent(b, ids, now))
  {
    var a', b' := TouchAgent(a, ids, now), TouchAgent(b, ids, now);
    forall r, q | r in a'.hot && q in b'.hot ensures r.id != q.id {
      var i :| 0 <= i < |a'.hot| && a'.hot[i] == r;
      var j :| 0 <= j < |b'.hot| && b'.hot[j] == q;
      assert a.hot[i] in a.hot && b.hot[j] in b.hot;
    }
  }

  lemma TouchShaped(s: Store, ids: set<string>, now: real)
    requires Shaped(s)
    ensures Shaped(TouchStore(s, ids, now))
  {
    var s', coldIds := TouchStore(s, ids, now), ids - Held(s);
    assert Blur(Touch(s.cold, coldIds, now)) == Blur(s.cold);
    assert DistinctIds(Touch(s.cold, coldIds, now)) && LogMatches(s'.cold, s'.log);
    hide AgentShape, Touch, LogMatches, DistinctIds, Held, Apart, TouchAgent;
    forall n | n in s.agents ensures AgentShape(s'.agents[n], n, s'.cold) { TouchShape(s.agents[n], n, s.cold, ids, coldIds, now); }
    forall n, m | n in s.agents && m in s.agents && n != m ensures Apart(s'.agents[n], s'.agents[m]) { TouchApart(s.agents[n], s.agents[m], ids, now); }
  }

  /** A recall changes access times only: the tiers keep their shape and the flat store its records. */
  lemma TouchKeeps(s: Store, ids: set<string>, now: real)
    requires Tiered(s)
    ensures Tiered(TouchStore(s, ids, now)) && SameFlat(s, TouchStore(s, ids, now))
  {
    TouchShaped(s, ids, now);
    var s', coldIds := TouchStore(s, ids, now), ids - Held(s);
    hide Shaped, Touch, Held, HasCore, Tokens;
    forall n | n in s.agents ensures WithinBudget(s'.agents[n]) {
      TouchTokens(s.agents[n].hot, ids, now);
      assert WithinBudget(s.agents[n]);
    }
    forall c: Record ensures InFlat(s', c) <==> InFlat(s, c) {
      TouchCore(s.cold, coldIds, now, c);
      if c.name in s.agents { TouchCore(s.agents[c.name].hot, ids, now, c); }
    }
  }

  // ----- the sort --------------------------------------------------------

  lemma {:induction false} InsertProps(r: Record, rs: seq<Record>)
    requires Descending(rs)
    ensures Descending(Insert(r, rs)) && |Insert(r, rs)| == |rs| + 1 && forall x :: x in Insert(r, rs) <==> x == r || x in rs
    ensures DistinctIds(rs) && !HasId(rs, r.id) ==> DistinctIds(Insert(r, rs))
    decreases |rs|
  {
    if rs != [] && !KeyLe(rs[0], r) {
      assert Descending(rs[1..]);
      InsertProps(r, rs[1..]);
      var rest := Insert(r, rs[1..]);
      assert rs == [rs[0]] + rs[1..];
      forall j | 0 <= j < |rest| ensures KeyLe(rest[j], rs[0]) {
        assert rest[j] in rest;
        if rest[j] != r { var k :| 0 <= k < |rs[1..]| && rs[1..][k] == rest[j]; assert rs[k + 1] == rest[j]; }
      }
      if DistinctIds(rs) && !HasId(rs, r.id) {
        assert rs[0] in rs && DistinctIds(rs[1..]);
        forall j | 0 <= j < |rest| ensures rest[j].id != rs[0].id {
          assert rest[j] in rest;
          if rest[j] != r { var k :| 0 <= k < |rs[1..]| && rs[1..][k] == rest[j]; assert rs[k + 1] == rest[j]; }
        }
      }
    } else {
      forall j | 0 <= j < |rs| ensures KeyLe(rs[j], r) { }
      forall j | 0 <= j < |rs| ensures HasId(rs, r.id) || rs[j].id != r.id { assert rs[j] in rs; }
    }
  }

  lemma {:induction false} RankedProps(rs: seq<Record>)
    ensures Descending(Ranked(rs)) && |Ranked(rs)| == |rs| && forall x :: x in Ranked(rs) <==> x in rs
    ensures DistinctIds(rs) ==> DistinctIds(Ranked(rs))
    decreases |rs|
  {
    if rs != [] {
      RankedProps(rs[1..]);
      InsertProps(rs[0], Ranked(rs[1..]));
      assert rs == [rs[0]] + rs[1..];
      if DistinctIds(rs) {
        assert DistinctIds(rs[1..]);
        assert !HasId(Ranked(rs[1..]), rs[0].id) by { assert forall x | x in rs[1..] :: x.id != rs[0].id; }
      }
    }
  }

  // ----- the candidates are the agent's records --------------------------

  /** What gathering `rs` into `acc` must give. */
  predicate Gathered(acc: seq<Record>, rs: seq<Record>, name: string, g: seq<Record>) {
    && DistinctIds(g) && (forall r | r in acc :: r in g)
    && (forall r | r in g :: r in acc || (r in rs && r.name == name))
    && forall x | x in rs && x.name == name :: HasId(g, x.id)
  }

  lemma GatheredFrom(acc: seq<Record>, next: seq<Record>, r: Record, rest: seq<Record>, name: string, g: seq<Record>)
    requires Gathered(next, rest, name, g) && (forall x | x in acc :: x in next) && (forall x | x in next :: x in acc || (x == r && r.name == name))
    requires r.name == name ==> HasId(next, r.id)
    ensures Gathered(acc, [r] + rest, name, g)
  {
    hide DistinctIds;
    assert forall x :: x in [r] + rest <==> x == r || x in rest;
    HasMore(next, g, r.id);
    hide HasId;
  }

  lemma GatherFirst(acc: seq<Record>, rs: seq<Record>, name: string)
    requires rs != []
    ensures Gather(acc, rs, name) == Gather(if rs[0].name == name && !HasId(acc, rs[0].id) then acc + [rs[0]] else acc, rs[1..], name)
  {
    hide HasId;
  }

  lemma GatheredNothing(acc: seq<Record>, name: string)
    requires DistinctIds(acc)
    ensures Gathered(acc, [], name, Gather(acc, [], name))
  {
  }

  lemma {:induction false} GatherAll(acc: seq<Record>, rs: seq<Record>, name: string)
    requires DistinctIds(acc)
    ensures Gathered(acc, rs, name, Gather(acc, rs, name))
    decreases |rs|
  {
    hide *;
    if rs == [] {
      GatheredNothing(acc, name);
    } else {
      var next := if rs[0].name == name && !HasId(acc, rs[0].id) then acc + [rs[0]] else acc;
      AddedOnce(acc, rs[0], name);
      GatherFirst(acc, rs, name);
      GatherAll(next, rs[1..], name);
      GatheredFrom(acc, next, rs[0], rs[1..], name, Gather(next, rs[1..], name));
      assert [rs[0]] + rs[1..] == rs;
    }
  }

  lemma GatherProps(acc: seq<Record>, rs: seq<Record>, name: string)
    requires DistinctIds(acc)
    ensures var g := Gather(acc, rs, name);
            && DistinctIds(g) && (forall r | r in acc :: r in g)
            && (forall r | r in g :: r in acc || (r in rs && r.name == name))
            && forall x | x in rs && x.name == name :: HasId(g, x.id)
  {
    GatherAll(acc, rs, name);
    hide Gather, DistinctIds, HasId;
  }

  lemma AddedOnce(acc: seq<Record>, r: Record, name: string)
    requires DistinctIds(acc)
    ensures var next := if r.name == name && !HasId(acc, r.id) then acc + [r] else acc;
            && DistinctIds(next) && (forall x | x in acc :: x in next) && (forall x | x in next :: x in acc || (x == r && r.name == name))
            && (r.name == name ==> HasId(next, r.id))
  {
    assert forall i | 0 <= i < |acc| :: acc[i] in acc;
    assert (acc + [r])[|acc|] == r;
  }

  lemma HasMore(a: seq<Record>, b: seq<Record>, id: string)
    requires forall x | x in a :: x in b
    ensures HasId(a, id) ==> HasId(b, id)
  {
  }

  /** A record some tier holds. */
  predicate Stored(s: Store, r: Record) {
    (r.name in s.agents && (r in s.agents[r.name].hot || r in s.agents[r.name].warm)) || r in s.cold
  }

  lemma {:induction false} GatherAgentsProps(acc: seq<Record>, s: Store, order: seq<string>, name: string)
    requires Shaped(s) && DistinctIds(acc) && forall n | n in order :: n in s.agents
    ensures var g := GatherAgents(acc, s, order, name);
            && DistinctIds(g) && (forall r | r in acc :: r in g)
            && (forall r | r in g :: r in acc || (r.name == name && Stored(s, r)))
            && forall x | name in order && name in s.agents && (x in s.agents[name].hot || x in s.agents[name].warm) :: HasId(g, x.id)
    decreases |order|
  {
    if order != [] {
      var n := order[0];
      assert n in order && forall m | m in order[1..] :: m in order;
      var rs := s.agents[n].hot + s.agents[n].warm;
      GatherProps(acc, rs, name);
      var next := Gather(acc, rs, name);
      assert AgentShape(s.agents[n], n, s.cold);
      GatherAgentsProps(next, s, order[1..], name);
      hide Gather, Shaped, DistinctIds;
      forall x | n == name && (x in s.agents[n].hot || x in s.agents[n].warm) ensures HasId(next, x.id) {
        assert x in rs && x.name == n;
      }
    }
  }

  lemma CandidateProps(s: Store, name: string)
    requires Shaped(s)
    ensures forall n | n in s.order :: n in s.agents
    ensures var cs := Candidates(s, name);
            && DistinctIds(cs) && (forall r | r in cs :: r.name == name && Stored(s, r))
            && forall x | Stored(s, x) && x.name == name :: HasId(cs, x.id)
  {
    assert forall n | n in s.order :: n in (set m | m in s.order);
    GatherAgentsProps([], s, s.order, name);
    var g := GatherAgents([], s, s.order, name);
    GatherProps(g, s.cold, name);
    hide Gather, GatherAgents, DistinctIds;
    assert forall n | n in s.agents :: n in s.order;
  }

  /** Two stored records with one id are copies of one record. */
  lemma SameId(s: Store, x: Record, y: Record)
    requires Shaped(s) && Stored(s, x) && Stored(s, y) && x.id == y.id
    ensures Core(x) == Core(y)
  {
    hide LogMatches;
    if x !in s.cold && x.name in s.agents { assert AgentShape(s.agents[x.name], x.name, s.cold); }
    if y !in s.cold && y.name in s.agents { assert AgentShape(s.agents[y.name], y.name, s.cold); }
    if InHot(s, x) || InHot(s, y) {
      if InHot(s, x) && InHot(s, y) {
        SameAgent(s, x, y);
        DistinctSame(s.agents[x.name].hot, x, y);
      } else if InHot(s, x) {
        ColdCopy(s, y);
      } else {
        ColdCopy(s, x);
      }
    } else {
      ColdCopy(s, x); ColdCopy(s, y);
      var a :| a in s.cold && Core(a) == Core(x);
      var b :| b in s.cold && Core(b) == Core(y);
      CoreFields(a, x); CoreFields(b, y);
      DistinctSame(s.cold, a, b);
    }
  }

  lemma SameAgent(s: Store, x: Record, y: Record)
    requires Shaped(s) && InHot(s, x) && InHot(s, y) && x.id == y.id
    ensures x.name == y.name
  {
    assert x.name != y.name ==> Apart(s.agents[x.name], s.agents[y.name]);
  }

  lemma CoreFields(r: Record, q: Record)
    requires Core(r) == Core(q)
    ensures r.id == q.id && r.name == q.name
  {
    assert Core(r).id == r.id && Core(q).id == q.id && Core(r).name == r.name && Core(q).name == q.name;
  }

  predicate InHot(s: Store, r: Record) { r.name in s.agents && r in s.agents[r.name].hot }

  lemma ColdCopy(s: Store, r: Record)
    requires Shaped(s) && Stored(s, r) && !InHot(s, r)
    ensures HasCore(s.cold, Core(r)) && HasId(s.cold, r.id)
  {
    if r !in s.cold { assert AgentShape(s.agents[r.name], r.name, s.cold); }
    var q :| q in s.cold && Core(q) == Core(r);
    CoreFields(q, r);
  }

  lemma DistinctSame(rs: seq<Record>, a: Record, b: Record)
    requires DistinctIds(rs) && a in rs && b in rs && a.id == b.id
    ensures a == b
  {
  }

  /** The candidates are exactly the agent's part of the flat store. */
  lemma CandidatesAreFlat(s: Store, name: string, c: Record)
    requires Shaped(s)
    ensures forall n | n in s.order :: n in s.agents
    ensures HasCore(Candidates(s, name), c) <==> InFlat(s, c) && c.name == name
  {
    CandidateProps(s, name);
    if HasCore(Candidates(s, name), c) { CandidateFlat(s, name, c); }
    if InFlat(s, c) && c.name == name { FlatCandidate(s, name, c); }
  }

  lemma CandidateFlat(s: Store, name: string, c: Record)
    requires Shaped(s) && (forall n | n in s.order :: n in s.agents) && HasCore(Candidates(s, name), c)
    ensures InFlat(s, c) && c.name == name
  {
    CandidateProps(s, name);
    var cs := Candidates(s, name);
    var r :| r in cs && Core(r) == c;
    hide Candidates, DistinctIds, Shaped;
    if !InHot(s, r) { ColdCopy(s, r); }
  }

  lemma FlatCandidate(s: Store, name: string, c: Record)
    requires Shaped(s) && (forall n | n in s.order :: n in s.agents) && InFlat(s, c) && c.name == name
    ensures HasCore(Candidates(s, name), c)
  {
    CandidateProps(s, name);
    var cs := Candidates(s, name);
    hide Candidates, DistinctIds, Shaped;
    var x := FlatSource(s, c);
    assert HasId(cs, x.id);
    var r :| r in cs && r.id == x.id;
    SameId(s, r, x);
  }

  lemma FlatSource(s: Store, c: Record) returns (x: Record)
    requires InFlat(s, c)
    ensures Stored(s, x) && Core(x) == c && x.name == c.name
  {
    if HasCore(s.cold, c) { x :| x in s.cold && Core(x) == c; } else { x :| x in s.agents[c.name].hot && Core(x) == c; }
    assert Core(x).name == x.name;
  }

  // ----- recall is a top-limit selection ---------------------------------

  /** A record of the flat store that a recall is looking for. */
  predicate IsMatch(s: Store, name: string, query: Record -> bool, c: Record) {
    InFlat(s, c) && c.name == name && query(c)
  }

  lemma FoundProps(s: Store, name: string, query: Record -> bool)
    requires Shaped(s)
    ensures forall n | n in s.order :: n in s.agents
    ensures var f := Found(s, name, query);
            && Descending(f) && DistinctIds(f) && (forall r | r in f :: IsMatch(s, name, query, Core(r)))
            && forall c | IsMatch(s, name, query, c) :: HasCore(f, c)
  {
    CandidateProps(s, name);
    var cs := Candidates(s, name);
    var ms := Matching(cs, query);
    RankedProps(ms);
    hide Candidates, Matching, Ranked, Shaped, DistinctIds, Descending, InFlat;
    var f := Found(s, name, query);
    forall r | r in f ensures IsMatch(s, name, query, Core(r)) {
      assert r in ms && r in cs;
      assert HasCore(cs, Core(r));
      CandidatesAreFlat(s, name, Core(r));
    }
    forall c | IsMatch(s, name, query, c) ensures HasCore(f, c) {
      CandidatesAreFlat(s, name, c);
      var r :| r in cs && Core(r) == c;
      assert r in ms && r in f;
    }
  }

  /** What a recall promises about its result, over the flat store. */
  ghost predicate TopSelection(s: Store, name: string, query: Record -> bool, limit: int, now: real, result: seq<Record>) {
    && |result| <= (if limit < 0 then 0 else limit) && DistinctIds(result) && Descending(result)
    && (forall r | r in result :: IsMatch(s, name, query, Core(r)) && r.lastAccessed == now)
    && forall c | IsMatch(s, name, query, c) && !HasCore(result, c) :: |result| == (if limit < 0 then 0 else limit) && forall r | r in result :: KeyLe(c, r)
  }

  lemma PrefixIsTop(s: Store, name: string, query: Record -> bool, limit: int, now: real, f: seq<Record>, k: nat)
    requires Descending(f) && DistinctIds(f) && (forall r | r in f :: IsMatch(s, name, query, Core(r)))
    requires forall c | IsMatch(s, name, query, c) :: HasCore(f, c)
    requires k == Clip(|f|, limit) && limit >= 0
    ensures TopSelection(s, name, query, limit, now, Touch(f, Ids(f[..k]), now)[..k])
  {
    hide IsMatch, Touch, Ids, DistinctIds, Descending, Core;
    var result := Touch(f, Ids(f[..k]), now)[..k];
    TouchedPrefix(f, k, now);
    forall r | r in result ensures IsMatch(s, name, query, Core(r)) && r.lastAccessed == now {
      var i :| 0 <= i < k && result[i] == r;
      assert f[i] in f && Core(result[i]) == Core(f[i]);
    }
    forall c | IsMatch(s, name, query, c) && !HasCore(result, c) ensures k == limit && forall r | r in result :: KeyLe(c, r) {
      OmittedRanksLower(f, k, now, c);
    }
  }

  lemma TouchedPrefix(f: seq<Record>, k: nat, now: real)
    requires k <= |f| && Descending(f) && DistinctIds(f)
    ensures var result := Touch(f, Ids(f[..k]), now)[..k];
            && |result| == k && DistinctIds(result) && Descending(result)
            && forall i | 0 <= i < k :: result[i] == f[i].(lastAccessed := now) && Core(result[i]) == Core(f[i])
  {
    var ids, result := Ids(f[..k]), Touch(f, Ids(f[..k]), now)[..k];
    forall i | 0 <= i < k ensures result[i] == f[i].(lastAccessed := now) { assert f[..k][i] == f[i] && f[i] in f[..k]; }
  }

  /** A record of the list that is not in the prefix ranks no higher than any of it, and the prefix is full. */
  lemma OmittedRanksLower(f: seq<Record>, k: nat, now: real, c: Record)
    requires k <= |f| && Descending(f) && DistinctIds(f) && HasCore(f, c) && !HasCore(Touch(f, Ids(f[..k]), now)[..k], c)
    ensures k < |f| && forall r | r in Touch(f, Ids(f[..k]), now)[..k] :: KeyLe(c, r)
  {
    hide Touch, Ids, DistinctIds;
    var result := Touch(f, Ids(f[..k]), now)[..k];
    TouchedPrefix(f, k, now);
    var x :| 0 <= x < |f| && Core(f[x]) == c;
    assert forall i | 0 <= i < k :: result[i] in result && Core(result[i]) == Core(f[i]);
    assert c.importance == f[x].importance && c.timestamp == f[x].timestamp;
    forall r | r in result ensures KeyLe(c, r) {
      var j :| 0 <= j < k && result[j] == r;
      assert KeyLe(f[x], f[j]) && r.importance == f[j].importance && r.timestamp == f[j].timestamp;
    }
  }

  /**
   Each recall is a top-limit selection of the flat store: at most `limit`
   matching records in nonincreasing (importance, timestamp) order, no id twice,
   nothing ranked above a returned record left out, and nothing left out at all
   unless the limit is reached.
   */
  lemma RecallIsTop(s: Store, name: string, query: Record -> bool, limit: int, now: real)
    requires Tiered(s)
    ensures forall n | n in s.order :: n in s.agents
    ensures TopSelection(s, name, query, limit, now, RecallResult(s, name, query, limit, now))
  {
    FoundProps(s, name, query);
    var f := Found(s, name, query);
    if limit >= 0 {
      PrefixIsTop(s, name, query, limit, now, f, Clip(|f|, limit));
    } else {
      assert RecallResult(s, name, query, limit, now) == [];
    }
  }

  // ----- what a recall touches -------------------------------------------

  /** Some copy of the record `id` was last accessed at `now`. */
  ghost predicate Accessed(s: Store, now: real, id: string) {
    exists r :: Stored(s, r) && r.id == id && r.lastAccessed == now
  }

  ghost predicate HasRecord(s: Store, id: string) {
    exists r :: Stored(s, r) && r.id == id
  }

  /** Touching reaches at least one copy of every stored record, and only records that were asked for. */
  lemma TouchAccesses(s: Store, ids: set<string>, now: real, id: string)
    requires Shaped(s) && forall r | Stored(s, r) :: r.lastAccessed != now
    ensures Accessed(TouchStore(s, ids, now), now, id) <==> id in ids && HasRecord(s, id)
  {
    if Accessed(TouchStore(s, ids, now), now, id) { TouchedBefore(s, ids, now, id); }
    if id in ids && HasRecord(s, id) { TouchedAfter(s, ids, now, id); }
  }

  lemma TouchedBefore(s: Store, ids: set<string>, now: real, id: string)
    requires Accessed(TouchStore(s, ids, now), now, id) && forall r | Stored(s, r) :: r.lastAccessed != now
    ensures id in ids && HasRecord(s, id)
  {
    var t := TouchStore(s, ids, now);
    var r :| Stored(t, r) && r.id == id && r.lastAccessed == now;
    hide Held;
    if r in t.cold {
      var i :| 0 <= i < |t.cold| && t.cold[i] == r;
      assert s.cold[i] in s.cold && Stored(s, s.cold[i]);
    } else {
      var a := s.agents[r.name];
      if i :| 0 <= i < |a.hot| && t.agents[r.name].hot[i] == r {
        TouchedOne(s, a.hot, ids, now, i);
      } else {
        var i :| 0 <= i < |a.warm| && t.agents[r.name].warm[i] == r;
        TouchedOne(s, a.warm, ids, now, i);
      }
    }
  }

  lemma TouchedOne(s: Store, rs: seq<Record>, ids: set<string>, now: real, i: nat)
    requires i < |rs| && Touch(rs, ids, now)[i].name in s.agents
    requires rs == s.agents[Touch(rs, ids, now)[i].name].hot || rs == s.agents[Touch(rs, ids, now)[i].name].warm
    ensures Stored(s, rs[i]) && rs[i].id == Touch(rs, ids, now)[i].id && (rs[i].id !in ids ==> Touch(rs, ids, now)[i] == rs[i])
  {
    assert rs[i] in rs;
  }

  lemma TouchedAfter(s: Store, ids: set<string>, now: real, id: string)
    requires Shaped(s) && id in ids && HasRecord(s, id)
    ensures Accessed(TouchStore(s, ids, now), now, id)
  {
    if id in Held(s) {
      var n, q :| n in s.agents && q in s.agents[n].hot + s.agents[n].warm && q.id == id;
      HeldTouched(s, ids, now, n, q);
    } else {
      var r :| Stored(s, r) && r.id == id;
      ColdTouched(s, ids, now, r);
    }
  }

  lemma HeldTouched(s: Store, ids: set<string>, now: real, n: string, q: Record)
    requires Shaped(s) && n in s.agents && q in s.agents[n].hot + s.agents[n].warm && q.id in ids
    ensures Accessed(TouchStore(s, ids, now), now, q.id)
  {
    assert AgentShape(s.agents[n], n, s.cold);
    assert q.name == n;
    hide Shaped, AgentShape, Held;
    var t, a := TouchStore(s, ids, now), s.agents[n];
    var x := q.(lastAccessed := now);
    if q in a.hot {
      var i :| 0 <= i < |a.hot| && a.hot[i] == q;
      assert t.agents[n].hot[i] == x;
    } else {
      var i :| 0 <= i < |a.warm| && a.warm[i] == q;
      assert t.agents[n].warm[i] == x;
    }
    assert Stored(t, x);
  }

  lemma HeldOrCold(s: Store, r: Record)
    requires Stored(s, r)
    ensures r in s.cold || r.id in Held(s)
  {
    if r !in s.cold { assert r in s.agents[r.name].hot + s.agents[r.name].warm; }
  }

  lemma ColdTouched(s: Store, ids: set<string>, now: real, r: Record)
    requires Stored(s, r) && r.id in ids && r.id !in Held(s)
    ensures Accessed(TouchStore(s, ids, now), now, r.id)
  {
    HeldOrCold(s, r);
    hide Held;
    var t := TouchStore(s, ids, now);
    var i :| 0 <= i < |s.cold| && s.cold[i] == r;
    assert t.cold[i] == r.(lastAccessed := now) && t.cold[i] in t.cold;
    assert Stored(t, t.cold[i]);
  }

  /**
   What a recall marks as accessed, exactly. Once the clock has moved on, the
   records it marks are the records it returns if and only if the limit is not
   negative, or so negative that nothing is found before it: for any other limit
   nothing is returned and records are marked all the same.
   */
  lemma TouchedAreReturnedIff(s: Store, name: string, query: Record -> bool, limit: int, now: real)
    requires Tiered(s) && forall r | Stored(s, r) :: r.lastAccessed != now
    ensures forall n | n in s.order :: n in s.agents
    ensures (forall id :: Accessed(RecallStore(s, name, query, limit, now), now, id) <==> id in Ids(RecallResult(s, name, query, limit, now)))
            <==> limit >= 0 || |Found(s, name, query)| + limit <= 0
  {
    CandidateProps(s, name);
    var f := Found(s, name, query);
    var k := SliceEnd(|f|, limit);
    var touched, returned := Ids(f[..k]), Ids(RecallResult(s, name, query, limit, now));
    FoundStored(s, name, query);
    hide Tiered, Stored, Found, Touch, TouchStore;
    forall id ensures Accessed(RecallStore(s, name, query, limit, now), now, id) <==> id in touched {
      TouchAccesses(s, touched, now, id);
      if id in touched { var r :| r in f[..k] && r.id == id; assert r in f; }
    }
    ReturnedIds(f, touched, now, Clip(|f|, limit));
    if limit < 0 && |f| + limit > 0 {
      assert f[0] in f[..k] && f[0].id in touched;
      assert returned == {};
    }
  }

  lemma FoundStored(s: Store, name: string, query: Record -> bool)
    requires Tiered(s)
    ensures Shaped(s) && forall n | n in s.order :: n in s.agents
    ensures forall r | r in Found(s, name, query) :: Stored(s, r)
  {
    CandidateProps(s, name);
    RankedProps(Matching(Candidates(s, name), query));
    hide Stored, Candidates, Ranked;
  }

  lemma ReturnedIds(f: seq<Record>, ids: set<string>, now: real, k: nat)
    requires k <= |f|
    ensures Ids(Touch(f, ids, now)[..k]) == Ids(f[..k])
  {
    var t := Touch(f, ids, now);
    assert forall i | 0 <= i < |f| :: t[i].id == f[i].id;
    forall id | id in Ids(f[..k]) ensures id in Ids(t[..k]) { var i :| 0 <= i < k && f[i].id == id; assert t[..k][i] in t[..k]; }
    forall id | id in Ids(t[..k]) ensures id in Ids(f[..k]) { var i :| 0 <= i < k && t[i].id == id; assert f[..k][i] in f[..k]; }
  }

  // ----- whole runs ------------------------------------------------------

  datatype Op =
    | DoAppend(r: Record)
    | DoRecall(name: string, query: Record -> bool, limit: int, now: real)
    | DoForget(id: string)
    | DoRegister(name: string, budget: nat)

  /** Registering a name again, which replaces its hot records, is not one of these runs. */
  function StoreStep(s: Store, warmLimit: nat, op: Op): (t: Store)
    requires Tiered(s)
    ensures Tiered(t)
  {
    match op
    case DoAppend(r) => if FreshId(s, r.id) then (AppendKeeps(s, warmLimit, r); Append(s, warmLimit, r)) else s
    case DoRecall(name, query, limit, now) =>
      CandidateProps(s, name);
      var f := Found(s, name, query);
      TouchKeeps(s, Ids(f[..SliceEnd(|f|, limit)]), now);
      RecallStore(s, name, query, limit, now)
    case DoForget(id) => ForgetKeeps(s, id); Forget(s, id)
    case DoRegister(name, budget) => if budget > 0 then (RegisteredKeeps(s, name, budget); RegisteredAs(s, name, budget)) else s
  }

  function StoreRun(s: Store, warmLimit: nat, ops: seq<Op>): (t: Store)
    requires Tiered(s)
    ensures Tiered(t)
    decreases |ops|
  {
    if ops == [] then s else StoreRun(StoreStep(s, warmLimit, ops[0]), warmLimit, ops[1..])
  }

  /** The flat store: one set of records, no tiers, no budget, no log. */
  function FlatStep(flat: set<Record>, op: Op): set<Record> {
    match op
    case DoAppend(r) => if exists c | c in flat :: c.id == r.id then flat else flat + {Core(r)}
    case DoRecall(_, _, _, _) => flat
    case DoForget(id) => set c | c in flat && c.id != id
    case DoRegister(_, _) => flat
  }

  function FlatRun(flat: set<Record>, ops: seq<Op>): set<Record>
    decreases |ops|
  {
    if ops == [] then flat else FlatRun(FlatStep(flat, ops[0]), ops[1..])
  }

  lemma FreshIff(s: Store, id: string)
    requires Tiered(s)
    ensures FreshId(s, id) <==> forall c: Record | InFlat(s, c) :: c.id != id
  {
    if !FreshId(s, id) {
      if HasId(s.cold, id) {
        var r :| r in s.cold && r.id == id;
        assert InFlat(s, Core(r)) && Core(r).id == id;
      } else {
        var n :| n in s.agents && HasId(s.agents[n].hot, id);
        var r :| r in s.agents[n].hot && r.id == id;
        assert AgentShape(s.agents[n], n, s.cold);
        assert InFlat(s, Core(r)) && Core(r).id == id;
      }
    } else {
      forall c: Record | InFlat(s, c) ensures c.id != id {
        var x := FlatSource(s, c);
        CoreFields(x, c);
        if x in s.cold { assert HasId(s.cold, x.id); } else { assert x.id == c.id; }
      }
    }
  }

  lemma StepRefines(s: Store, warmLimit: nat, op: Op, flat: set<Record>)
    requires Tiered(s) && Refines(s, flat)
    ensures Refines(StoreStep(s, warmLimit, op), FlatStep(flat, op))
  {
    hide Tiered, InFlat;
    match op
    case DoAppend(r) =>
      FreshIff(s, r.id);
      if FreshId(s, r.id) { AppendKeeps(s, warmLimit, r); }
    case DoRecall(name, query, limit, now) =>
      CandidateProps2(s, name);
      var f := Found(s, name, query);
      TouchKeeps(s, Ids(f[..SliceEnd(|f|, limit)]), now);
    case DoForget(id) => ForgetKeeps(s, id);
    case DoRegister(name, budget) => if budget > 0 { RegisteredKeeps(s, name, budget); }
  }

  lemma CandidateProps2(s: Store, name: string)
    requires Tiered(s)
    ensures forall n | n in s.order :: n in s.agents
  {
    CandidateProps(s, name);
  }

  /**
   The tiered store refines a flat one: whatever is registered, appended, recalled
   and forgotten, in whatever order, hot and cold together hold exactly what was
   appended (or loaded) and not forgotten, hot and cold ids are disjoint, warm
   records are copies of cold ones, every agent is within budget, and the log
   replays to the cold index up to access times.
   */
  lemma {:induction false} StoreRefinesFlat(s: Store, warmLimit: nat, ops: seq<Op>, flat: set<Record>)
    requires Tiered(s) && Refines(s, flat)
    ensures Tiered(StoreRun(s, warmLimit, ops)) && Refines(StoreRun(s, warmLimit, ops), FlatRun(flat, ops))
    decreases |ops|
  {
    hide Tiered, Refines, StoreStep, FlatStep;
    if ops != [] {
      StepRefines(s, warmLimit, ops[0], flat);
      StoreRefinesFlat(StoreStep(s, warmLimit, ops[0]), warmLimit, ops[1..], FlatStep(flat, ops[0]));
    }
  }

  /** A manager started on the same log: nothing hot, the cold index replayed. */
  function Reloaded(log: seq<Record>): Store {
    Store(map[], [], Replay(log), log)
  }

  /** A manager may be opened on any log at all: it starts tiered, holding the last version of every record in it. */
  lemma ReloadedIsTiered(log: seq<Record>)
    ensures Tiered(Reloaded(log)) && Refines(Reloaded(log), set r | r in Replay(log) :: Core(r))
  {
    ReplayIds(log);
    var s := Reloaded(log);
    hide Replay, DistinctIds;
    assert LogMatches(s.cold, log);
    assert Shaped(s);
    assert forall c: Record :: InFlat(s, c) <==> HasCore(s.cold, c);
  }

  /** Hence a store opened on any log refines a flat store through any run. */
  lemma OpenedRefinesFlat(log: seq<Record>, warmLimit: nat, ops: seq<Op>)
    ensures Tiered(Reloaded(log))
    ensures var s := StoreRun(Reloaded(log), warmLimit, ops);
            Tiered(s) && Refines(s, FlatRun(set r | r in Replay(log) :: Core(r), ops))
  {
    ReloadedIsTiered(log);
    StoreRefinesFlat(Reloaded(log), warmLimit, ops, set r | r in Replay(log) :: Core(r));
  }

  /** A restart keeps exactly the cold records; what was only hot is gone. */
  lemma RestartKeepsCold(s: Store)
    requires Tiered(s)
    ensures Tiered(Reloaded(s.log)) && forall c: Record :: InFlat(Reloaded(s.log), c) <==> HasCore(s.cold, c)
  {
    var cold := Replay(s.log);
    forall i | 0 <= i < |cold| ensures cold[i].id == s.cold[i].id && Core(cold[i]) == Core(s.cold[i]) {
      assert Blur(cold)[i] == Blur(s.cold)[i];
      assert cold[i].(lastAccessed := 0.0) == s.cold[i].(lastAccessed := 0.0);
    }
    assert DistinctIds(cold);
    forall c: Record ensures HasCore(cold, c) <==> HasCore(s.cold, c) {
      if i :| 0 <= i < |cold| && Core(cold[i]) == c { assert s.cold[i] in s.cold; }
      if i :| 0 <= i < |s.cold| && Core(s.cold[i]) == c { assert cold[i] in cold; }
    }
  }

  // ----- the summary -----------------------------------------------------

  function ColdOf(rs: seq<Record>, name: string): (r: seq<Record>)
    ensures forall x :: x in r <==> x in rs && x.name == name
    ensures DistinctIds(rs) ==> DistinctIds(r)
  {
    if rs == [] then []
    else
      var rest := ColdOf(rs[1..], name);
      assert forall i | 0 <= i < |rest| :: rest[i] in rest && rest[i] in rs[1..];
      if rs[0].name == name then [rs[0]] + rest else rest
  }

  /** The agent's cold records that its warm list does not hold as well. */
  function ColdOnly(rs: seq<Record>, warm: set<string>): (r: seq<Record>)
    ensures forall x :: x in r <==> x in rs && x.id !in warm
    ensures DistinctIds(rs) ==> DistinctIds(r)
  {
    if rs == [] then []
    else
      var rest := ColdOnly(rs[1..], warm);
      assert forall i | 0 <= i < |rest| :: rest[i] in rest && rest[i] in rs[1..];
      if rs[0].id in warm then rest else [rs[0]] + rest
  }

  /** `paged_out_frames` and `total_frames` of `get_page_table_summary`. */
  function PagedOutFrames(s: Store, name: string): nat
    requires name in s.agents
  {
    |s.agents[name].warm| + |ColdOnly(ColdOf(s.cold, name), Ids(s.agents[name].warm))|
  }

  function TotalFrames(s: Store, name: string): nat
    requires name in s.agents
  {
    |s.agents[name].hot| + PagedOutFrames(s, name)
  }

  lemma {:induction false} IdCount(rs: seq<Record>)
    requires DistinctIds(rs)
    ensures |Ids(rs)| == |rs|
  {
    if rs != [] {
      var rest := rs[1..];
      IdCount(rest);
      assert rs == [rs[0]] + rest;
      assert Ids(rs) == {rs[0].id} + Ids(rest);
      assert rs[0].id !in Ids(rest) by { assert forall r | r in rest :: r.id != rs[0].id; }
    }
  }

  /** The summary counts every paged-out record once, warm or not, and every record of the agent once. */
  lemma SummaryCounts(s: Store, name: string)
    requires Tiered(s) && name in s.agents
    ensures PagedOutFrames(s, name) == |ColdOf(s.cold, name)|
    ensures TotalFrames(s, name) == |s.agents[name].hot| + |ColdOf(s.cold, name)|
  {
    hide Tiered, ColdOf, ColdOnly, DistinctIds;
    var cold, warm := ColdOf(s.cold, name), s.agents[name].warm;
    WarmInCold(s, name);
    CountApart(cold, warm);
  }

  /** The records of `cold` whose id is not in `warm`, and those of `warm`, make up `cold`. */
  lemma CountApart(cold: seq<Record>, warm: seq<Record>)
    requires DistinctIds(cold) && DistinctIds(warm) && Ids(warm) <= Ids(cold)
    ensures |warm| + |ColdOnly(cold, Ids(warm))| == |cold|
  {
    hide ColdOnly, DistinctIds;
    var only := ColdOnly(cold, Ids(warm));
    IdCount(cold); IdCount(only); IdCount(warm);
    assert Ids(only) == Ids(cold) - Ids(warm);
  }

  lemma WarmInCold(s: Store, name: string)
    requires Tiered(s) && name in s.agents
    ensures Ids(s.agents[name].warm) <= Ids(ColdOf(s.cold, name)) && DistinctIds(s.agents[name].warm)
    ensures DistinctIds(ColdOf(s.cold, name))
  {
    assert AgentShape(s.agents[name], name, s.cold);
    forall w | w in s.agents[name].warm ensures w.id in Ids(ColdOf(s.cold, name)) {
      var q :| q in s.cold && Core(q) == Core(w);
      CoreFields(q, w);
      assert q in ColdOf(s.cold, name);
    }
  }
}
