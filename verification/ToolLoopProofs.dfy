/**
 Whole-run theorems about the agent loop: history protocol, limits across
 resumes, parallel against sequential groups, and transparent pausing.
 */
module ToolLoopProofs {
  import opened Prelude
  import opened LlmTypes
  import opened ToolLoop

  /**
   A run followed by any number of `resume` calls with the given decisions;
   rejected or partial submissions change nothing.
   */
  function Session(w: World, loopId: string, consumed: set<string>, run: Run, ds: seq<map<string, bool>>): Run
    decreases |ds|
  {
    if ds == [] || run.result.checkpoint.None? || !Consistent(run.result.checkpoint.value) then run
    else
      match Resume(w, loopId, consumed, run.result.checkpoint.value, ds[0], run.state)
      case Resumed(next) => Session(w, loopId, consumed + {run.result.checkpoint.value.id}, next, ds[1..])
      case _ => Session(w, loopId, consumed, run, ds[1..])
  }

  /** A submission that `resume` accepted, and the paused round it decided. */
  datatype Submission = Submission(round: nat, decisions: map<string, bool>)

  /** The accepted submissions of a session, in order. */
  function Accepted(w: World, loopId: string, consumed: set<string>, run: Run, ds: seq<map<string, bool>>): seq<Submission>
    decreases |ds|
  {
    if ds == [] || run.result.checkpoint.None? || !Consistent(run.result.checkpoint.value) then []
    else
      var cp := run.result.checkpoint.value;
      match Resume(w, loopId, consumed, cp, ds[0], run.state)
      case Resumed(next) => [Submission(cp.round, ds[0])] + Accepted(w, loopId, consumed + {cp.id}, next, ds[1..])
      case _ => Accepted(w, loopId, consumed, run, ds[1..])
  }

  lemma SessionTurn(w: World, loopId: string, consumed: set<string>, run: Run, ds: seq<map<string, bool>>)
    requires ds != [] && run.result.checkpoint.Some? && Consistent(run.result.checkpoint.value)
    ensures var cp := run.result.checkpoint.value;
            var reply := Resume(w, loopId, consumed, cp, ds[0], run.state);
            if reply.Resumed? then
              && ds[0].Keys == PendingIds(cp) && reply.run == ResumeRounds(w, loopId, cp, ds[0], run.state)
              && Session(w, loopId, consumed, run, ds) == Session(w, loopId, consumed + {cp.id}, reply.run, ds[1..])
              && Accepted(w, loopId, consumed, run, ds) == [Submission(cp.round, ds[0])] + Accepted(w, loopId, consumed + {cp.id}, reply.run, ds[1..])
            else
              && Session(w, loopId, consumed, run, ds) == Session(w, loopId, consumed, run, ds[1..])
              && Accepted(w, loopId, consumed, run, ds) == Accepted(w, loopId, consumed, run, ds[1..])
  {
    hide Consistent, ResumeRounds, ToolsUnchanged, PendingIds, CallsWithIds;
  }

  lemma SessionEnds(w: World, loopId: string, consumed: set<string>, run: Run, ds: seq<map<string, bool>>)
    requires ds == [] || run.result.checkpoint.None? || !Consistent(run.result.checkpoint.value)
    ensures Session(w, loopId, consumed, run, ds) == run && Accepted(w, loopId, consumed, run, ds) == []
  {
    hide Consistent;
  }

  // ----- pauses are consistent -------------------------------------------

  lemma {:induction false} ApprovableHas(calls: seq<ToolCall>, pre: seq<Option<Outcome>>, from: nat, i: nat)
    requires |calls| == |pre| && from <= i < |calls| && pre[i].None?
    ensures (i, calls[i]) in Approvable(calls, pre, from)
    decreases |calls| - from
  {
    if from < i { ApprovableHas(calls, pre, from + 1, i); }
  }

  lemma PauseConsistent(w: World, loopId: string, cfg: Config, defs: seq<ToolDefinition>, allowed: set<string>, st: State, i: nat, r: Response, p: PreflightRun)
    requires |r.toolCalls| == |p.outcomes| > 0 && i < cfg.maxSteps
    ensures Consistent(MakeCheckpoint(w, loopId, cfg, defs, allowed, st, i, r, p))
  {
    var cp := MakeCheckpoint(w, loopId, cfg, defs, allowed, st, i, r, p);
    var xs := Approvable(r.toolCalls, p.outcomes, 0);
    forall k | 0 <= k < |p.outcomes| && p.outcomes[k].None?
      ensures r.toolCalls[k].id in PendingIds(cp)
    {
      ApprovableHas(r.toolCalls, p.outcomes, 0, k);
      var j :| 0 <= j < |xs| && xs[j] == (k, r.toolCalls[k]);
      assert cp.pending[j].callId == r.toolCalls[k].id;
    }
  }

  // ----- history protocol ------------------------------------------------

  /** One tool message per call, in call order, with matching ids. */
  predicate Answers(calls: seq<ToolCall>, ms: seq<Message>) {
    |ms| == |calls| && forall i | 0 <= i < |calls| :: ms[i].role == "tool" && ms[i].meta.ResultMeta? && ms[i].meta.callId == calls[i].id
  }

  /** Length of the first block: an ordinary message, or calls with their answers; 0 if there is none. */
  function Block(h: seq<Message>): nat
    requires h != []
  {
    if h[0].role == "assistant" && h[0].meta.CallsMeta? then
      var n := |h[0].meta.calls|;
      if n + 1 <= |h| && Answers(h[0].meta.calls, h[1..n + 1]) then n + 1 else 0
    else if h[0].role != "tool" then 1 else 0
  }

  /** Every assistant message with tool calls is answered at once and in order; no stray tool message. */
  predicate Settled(h: seq<Message>)
    decreases |h|
  {
    h == [] || (Block(h) > 0 && Settled(h[Block(h)..]))
  }

  lemma BlockConcat(a: seq<Message>, b: seq<Message>)
    requires a != [] && Block(a) > 0
    ensures Block(a + b) == Block(a) <= |a|
  {
    if a[0].role == "assistant" && a[0].meta.CallsMeta? {
      var n := |a[0].meta.calls|;
      assert (a + b)[1..n + 1] == a[1..n + 1];
    }
  }

  lemma {:induction false} SettledConcat(a: seq<Message>, b: seq<Message>)
    requires Settled(a) && Settled(b)
    ensures Settled(a + b)
    decreases |a|
  {
    if a == [] {
      assert a + b == b;
    } else {
      var k := Block(a);
      BlockConcat(a, b);
      SettledConcat(a[k..], b);
      assert (a + b)[k..] == a[k..] + b;
    }
  }

  predicate IdsMatch(calls: seq<ToolCall>, os: seq<Outcome>) {
    |os| == |calls| && forall i | 0 <= i < |calls| :: os[i].llmResult.callId == calls[i].id
  }

  /** Closing a round: the assistant message and its answers extend a settled history. */
  lemma RoundSettles(h: seq<Message>, r: Response, os: seq<Outcome>)
    requires Settled(h) && IdsMatch(r.toolCalls, os)
    ensures Settled(h + [CallsMessage(r)] + ResultMessages(os))
  {
    var ms := ResultMessages(os);
    var block := [CallsMessage(r)] + ms;
    assert Answers(r.toolCalls, ms);
    hide Answers, ResultMessages;
    assert block[1..|ms| + 1] == ms;
    assert Settled(block) by {
      assert Block(block) == |ms| + 1;
      assert block[|ms| + 1..] == [];
    }
    hide Settled, Block;
    SettledConcat(h, block);
    assert h + [CallsMessage(r)] + ms == h + block;
  }

  predicate SlotsMatch(calls: seq<ToolCall>, os: seq<Option<Outcome>>) {
    |os| == |calls| && forall i | 0 <= i < |calls| :: os[i].Some? ==> os[i].value.llmResult.callId == calls[i].id
  }

  lemma {:induction false} PresentAll(os: seq<Option<Outcome>>)
    requires AllRefused(os)
    ensures |Present(os)| == |os| && forall i | 0 <= i < |os| :: Present(os)[i] == os[i].value
  {
    if os != [] {
      assert AllRefused(os[1..]);
      PresentAll(os[1..]);
    }
  }

  /** Every outcome the loop makes for a call carries that call's id. */
  lemma ExecuteIds(w: World, limits: Option<Limits>, allowed: set<string>, call: ToolCall)
    ensures Execute(w, limits, allowed, call).llmResult.callId == call.id
    ensures ApprovalDenied(call).llmResult.callId == call.id
  {
    hide ApprovalMessage;
  }

  lemma RefusalIds(cfg: Config, call: ToolCall, charged: Counters, round: nat)
    ensures Refusal(cfg, call, charged, round).Some? ==> Refusal(cfg, call, charged, round).value.llmResult.callId == call.id
  {
    hide PolicyMessage, LimitMessage, ExceededLimit, Permits;
  }

  lemma {:induction false} GroupIds(w: World, cfg: Config, allowed: set<string>, calls: seq<ToolCall>, c: Counters, round: nat, stop: bool)
    ensures var os := Group(w, cfg, allowed, calls, c, round, stop).outcomes;
            (!stop || FirstFailure(os).None?) ==> IdsMatch(calls, os)
    decreases |calls|
  {
    if calls != [] {
      hide Execute, Refusal, Charge;
      ExecuteIds(w, cfg.limits, allowed, calls[0]);
      RefusalIds(cfg, calls[0], Charge(c, calls[0], round), round);
      GroupIds(w, cfg, allowed, calls[1..], Charge(c, calls[0], round), round, stop);
      var g := Group(w, cfg, allowed, calls, c, round, stop);
      var rest := Group(w, cfg, allowed, calls[1..], Charge(c, calls[0], round), round, stop);
      if g.outcomes[0].success || !stop {
        assert g.outcomes[1..] == rest.outcomes;
      }
    }
  }

  lemma {:induction false} PreflightIds(cfg: Config, calls: seq<ToolCall>, c: Counters, round: nat)
    ensures SlotsMatch(calls, Preflight(cfg, calls, c, round).outcomes)
    decreases |calls|
  {
    if calls != [] {
      hide Refusal, Charge;
      RefusalIds(cfg, calls[0], Charge(c, calls[0], round), round);
      PreflightIds(cfg, calls[1..], Charge(c, calls[0], round), round);
    }
  }

  lemma {:induction false} ApprovedIds(w: World, limits: Option<Limits>, allowed: set<string>, calls: seq<ToolCall>, pre: seq<Option<Outcome>>,
                                       ds: map<string, bool>, round: nat, stop: bool, stopped: bool)
    requires SlotsMatch(calls, pre) && forall i | 0 <= i < |calls| :: pre[i].None? ==> calls[i].id in ds
    ensures var os := Approved(w, limits, allowed, calls, pre, ds, round, stop, stopped).outcomes;
            SlotsMatch(calls, os) && (!stopped && (!stop || FirstFailure(Present(os)).None?) ==> AllRefused(os))
    decreases |calls|
  {
    if calls != [] {
      hide Execute, ApprovalDenied;
      ExecuteIds(w, limits, allowed, calls[0]);
      var os := Approved(w, limits, allowed, calls, pre, ds, round, stop, stopped).outcomes;
      var runs := pre[0].None? && ds[calls[0].id] && !stopped;
      var stopped' := stopped || (runs && stop && !os[0].value.success);
      ApprovedIds(w, limits, allowed, calls[1..], pre[1..], ds, round, stop, stopped');
      assert os[1..] == Approved(w, limits, allowed, calls[1..], pre[1..], ds, round, stop, stopped').outcomes;
    }
  }

  /** A checkpoint whose history ends with the unanswered assistant message of its round. */
  predicate CheckpointOk(cp: Checkpoint) {
    var n := |cp.history|;
    && Consistent(cp)
    && n > 0 && cp.history[n - 1] == CallsMessage(cp.response) && Settled(cp.history[..n - 1])
    && SlotsMatch(cp.response.toolCalls, cp.preflight)
  }

  predicate HistoryOk(run: Run) {
    && (forall h | h in run.state.requests :: Settled(h))
    && (run.result.checkpoint.Some? ==> CheckpointOk(run.result.checkpoint.value))
  }

  predicate NextHistoryOk(next: RoundResult) {
    match next
    case Ended(run) => HistoryOk(run)
    case Continue(st) => Settled(st.history) && forall h | h in st.requests :: Settled(h)
  }

  /** Closing a round over a complete group keeps the history settled. */
  lemma CloseHistory(cfg: Config, st: State, i: nat, r: Response, calls: seq<ToolCall>, os: seq<Outcome>, h: seq<Message>)
    requires st.history == h + [CallsMessage(r)] && Settled(h) && forall q | q in st.requests :: Settled(q)
    requires StopsAfter(cfg, os) || IdsMatch(r.toolCalls, os)
    ensures NextHistoryOk(CloseRound(cfg, st, i, r, calls, os))
  {
    hide Settled;
    if !StopsAfter(cfg, os) { RoundSettles(h, r, os); }
  }

  lemma RoundHistory(w: World, loopId: string, opts: LlmOptions, cfg: Config, defs: seq<ToolDefinition>, allowed: set<string>, st: State, i: nat)
    requires Settled(st.history) && (forall h | h in st.requests :: Settled(h)) && i < cfg.maxSteps
    ensures NextHistoryOk(Round(w, loopId, opts, cfg, defs, allowed, st, i))
  {
    hide Settled, CloseRound, Group, Preflight, MakeCheckpoint;
    var reply := w.llm(opts, defs, st.history);
    if reply.Reply? && reply.response.toolCalls != [] {
      var r := reply.response;
      var st1 := st.(requests := st.requests + [st.history], steps := st.steps + [LlmStep(i, r)]);
      if cfg.requireApproval {
        ApprovalHistory(w, loopId, cfg, defs, allowed, st1, i, r);
      } else {
        var g := PlainGroup(w, cfg, allowed, r.toolCalls, st.counters, i);
        GroupIds(w, cfg, allowed, r.toolCalls, st.counters, i,
                 cfg.stopOnToolError && EffectiveMode(w, cfg.mode, PermittedCalls(cfg, r.toolCalls)) == Sequential);
        CloseHistory(cfg, st1.(history := st.history + [CallsMessage(r)], counters := g.counters, executed := st.executed + g.executed),
                     i, r, r.toolCalls[..|g.outcomes|], g.outcomes, st.history);
      }
    }
  }

  lemma ApprovalHistory(w: World, loopId: string, cfg: Config, defs: seq<ToolDefinition>, allowed: set<string>, st: State, i: nat, r: Response)
    requires Settled(st.history) && (forall h | h in st.requests :: Settled(h)) && i < cfg.maxSteps && r.toolCalls != []
    ensures NextHistoryOk(ApprovalRound(w, loopId, cfg, defs, allowed, st, i, r))
  {
    hide Settled, CloseRound;
    var p := Preflight(cfg, r.toolCalls, st.counters, i);
    PreflightIds(cfg, r.toolCalls, st.counters, i);
    var h := st.history + [CallsMessage(r)];
    var st1 := st.(history := h);
    if AllRefused(p.outcomes) {
      PresentAll(p.outcomes);
      CloseHistory(cfg, st1.(counters := p.counters), i, r, r.toolCalls, Present(p.outcomes), st.history);
    } else {
      assert h[..|h| - 1] == st.history;
      PauseConsistent(w, loopId, cfg, defs, allowed, st1, i, r, p);
    }
  }

  lemma {:induction false} LoopHistory(w: World, loopId: string, opts: LlmOptions, cfg: Config, defs: seq<ToolDefinition>, allowed: set<string>, st: State, i: nat)
    requires Settled(st.history) && forall h | h in st.requests :: Settled(h)
    ensures HistoryOk(Loop(w, loopId, opts, cfg, defs, allowed, st, i))
    decreases cfg.maxSteps - i
  {
    hide Round, Settled;
    if i < cfg.maxSteps {
      RoundHistory(w, loopId, opts, cfg, defs, allowed, st, i);
      var next := Round(w, loopId, opts, cfg, defs, allowed, st, i);
      if next.Continue? { LoopHistory(w, loopId, opts, cfg, defs, allowed, next.state, i + 1); }
    }
  }

  lemma {:induction false} ResumeHistory(w: World, loopId: string, cp: Checkpoint, ds: map<string, bool>, before: State)
    requires CheckpointOk(cp) && ds.Keys == PendingIds(cp) && forall h | h in before.requests :: Settled(h)
    ensures HistoryOk(ResumeRounds(w, loopId, cp, ds, before))
  {
    hide Settled, CloseRound, Approved, Loop;
    var cfg, calls := cp.config, cp.response.toolCalls;
    var stop := cfg.stopOnToolError && cp.effective == Sequential;
    var a := Approved(w, cfg.limits, cp.allowedNames, calls, cp.preflight, ds, cp.round, stop, false);
    ApprovedIds(w, cfg.limits, cp.allowedNames, calls, cp.preflight, ds, cp.round, stop, false);
    var os := Present(a.outcomes);
    if !StopsAfter(cfg, os) { PresentAll(a.outcomes); }
    var h := cp.history[..|cp.history| - 1];
    assert h + [CallsMessage(cp.response)] == cp.history;
    var st := State(cp.history, cp.counters, cp.steps, cp.results, before.requests, before.executed + a.executed);
    CloseHistory(cfg, st, cp.round, cp.response, PresentCalls(calls, a.outcomes), os, h);
    var next := CloseRound(cfg, st, cp.round, cp.response, PresentCalls(calls, a.outcomes), os);
    if next.Continue? {
      LoopHistory(w, loopId, DefaultOptions, cfg, cp.definitions, cp.allowedNames, next.state, cp.round + 1);
    }
  }

  /**
   History protocol. Whatever mix of denial, failure, parallel groups, pauses and
   resumes occurs, every request sent to the LLM answers each assistant message
   with tool calls by exactly one tool message per call, in order, before anything else.
   */
  lemma {:induction false} HistoryProtocol(w: World, loopId: string, consumed: set<string>, run: Run, ds: seq<map<string, bool>>)
    requires HistoryOk(run)
    ensures HistoryOk(Session(w, loopId, consumed, run, ds))
    decreases |ds|
  {
    if !(ds == [] || run.result.checkpoint.None? || !Consistent(run.result.checkpoint.value)) {
      var cp := run.result.checkpoint.value;
      match Resume(w, loopId, consumed, cp, ds[0], run.state)
      case Resumed(next) =>
        ResumeHistory(w, loopId, cp, ds[0], run.state);
        HistoryProtocol(w, loopId, consumed + {cp.id}, next, ds[1..]);
      case _ => HistoryProtocol(w, loopId, consumed, run, ds[1..]);
    }
  }

  lemma EveryRequestIsSettled(w: World, loopId: string, opts: LlmOptions, cfg: Config, defs: seq<ToolDefinition>, allowed: set<string>,
                              messages: seq<Message>, ds: seq<map<string, bool>>)
    requires Settled(messages)
    ensures forall h | h in Session(w, loopId, {}, Loop(w, loopId, opts, cfg, defs, allowed, Start(messages), 0), ds).state.requests :: Settled(h)
  {
    LoopHistory(w, loopId, opts, cfg, defs, allowed, Start(messages), 0);
    HistoryProtocol(w, loopId, {}, Loop(w, loopId, opts, cfg, defs, allowed, Start(messages), 0), ds);
  }

  // ----- limits ----------------------------------------------------------

  function CountRound(ex: seq<Executed>, r: nat): nat {
    if ex == [] then 0 else (if ex[0].round == r then 1 else 0) + CountRound(ex[1..], r)
  }

  function CountTool(ex: seq<Executed>, name: string): nat {
    if ex == [] then 0 else (if ex[0].call.name == name then 1 else 0) + CountTool(ex[1..], name)
  }

  lemma {:induction false} CountConcat(a: seq<Executed>, b: seq<Executed>, r: nat, name: string)
    ensures CountRound(a + b, r) == CountRound(a, r) + CountRound(b, r)
    ensures CountTool(a + b, name) == CountTool(a, name) + CountTool(b, name)
  {
    if a == [] {
      assert a + b == b;
    } else {
      assert (a + b)[1..] == a[1..] + b;
      CountConcat(a[1..], b, r, name);
    }
  }

  /** The executed calls are covered by the counters and by every limit, seen at round `r` and tool `n`. */
  predicate Within(limits: Option<Limits>, c: Counters, ex: seq<Executed>, r: nat, n: string) {
    && |ex| <= c.total && CountRound(ex, r) <= CountOf(c.perRound, r) && CountTool(ex, n) <= CountOf(c.perTool, n)
    && (limits.Some? ==>
          && !Over(limits.value.perLoop, |ex|)
          && !Over(limits.value.perRound, CountRound(ex, r))
          && !Over(ToolLimit(limits.value, n), CountTool(ex, n)))
  }

  lemma ChargeWithin(limits: Option<Limits>, c: Counters, ex: seq<Executed>, call: ToolCall, round: nat, r: nat, n: string)
    requires Within(limits, c, ex, r, n)
    ensures Within(limits, Charge(c, call, round), ex, r, n)
    ensures ExceededLimit(limits, Charge(c, call, round), call, round).None? ==>
              Within(limits, Charge(c, call, round), ex + [Executed(round, call)], r, n)
  {
    var more := [Executed(round, call)];
    CountConcat(ex, more, r, n);
    assert more[1..] == [];
  }

  /** What the first call of a group contributes to the executed list. */
  function HeadRan(cfg: Config, call: ToolCall, charged: Counters, round: nat): seq<Executed> {
    if Refusal(cfg, call, charged, round).Some? then [] else [Executed(round, call)]
  }

  lemma HeadWithin(cfg: Config, c: Counters, ex: seq<Executed>, call: ToolCall, round: nat, r: nat, n: string)
    requires Within(cfg.limits, c, ex, r, n)
    ensures var d := Charge(c, call, round);
            var ran := HeadRan(cfg, call, d, round);
            && Within(cfg.limits, d, ex + ran, r, n) && d.total == c.total + 1
            && forall e | e in ran :: Permits(cfg.policy, e.call.name)
  {
    ChargeWithin(cfg.limits, c, ex, call, round, r, n);
    assert ex + [] == ex;
  }

  lemma GroupUnfold(w: World, cfg: Config, allowed: set<string>, calls: seq<ToolCall>, c: Counters, round: nat, stop: bool)
    requires calls != []
    ensures var d := Charge(c, calls[0], round);
            var ran := HeadRan(cfg, calls[0], d, round);
            var g, rest := Group(w, cfg, allowed, calls, c, round, stop), Group(w, cfg, allowed, calls[1..], d, round, stop);
            || (g.counters == d && g.executed == ran)
            || (g.counters == rest.counters && g.executed == ran + rest.executed)
  {
  }

  lemma {:induction false} GroupWithin(w: World, cfg: Config, allowed: set<string>, calls: seq<ToolCall>, c: Counters, round: nat, stop: bool, ex: seq<Executed>, r: nat, n: string)
    requires Within(cfg.limits, c, ex, r, n)
    ensures Within(cfg.limits, Group(w, cfg, allowed, calls, c, round, stop).counters, ex + Group(w, cfg, allowed, calls, c, round, stop).executed, r, n)
    ensures c.total <= Group(w, cfg, allowed, calls, c, round, stop).counters.total <= c.total + |calls|
    ensures forall e | e in Group(w, cfg, allowed, calls, c, round, stop).executed :: Permits(cfg.policy, e.call.name)
    decreases |calls|
  {
    hide Within, Permits, Execute, Refusal, Charge;
    if calls == [] {
      assert ex + [] == ex;
    } else {
      hide *;
      var d := Charge(c, calls[0], round);
      var ran := HeadRan(cfg, calls[0], d, round);
      HeadWithin(cfg, c, ex, calls[0], round, r, n);
      GroupUnfold(w, cfg, allowed, calls, c, round, stop);
      GroupWithin(w, cfg, allowed, calls[1..], d, round, stop, ex + ran, r, n);
      var rest := Group(w, cfg, allowed, calls[1..], d, round, stop);
      assert ex + ran + rest.executed == ex + (ran + rest.executed);
    }
  }

  /** The calls a pause leaves waiting, as if all of them were going to run. */
  function Awaiting(calls: seq<ToolCall>, pre: seq<Option<Outcome>>, round: nat): seq<Executed>
    requires |calls| == |pre|
  {
    if calls == [] then [] else (if pre[0].None? then [Executed(round, calls[0])] else []) + Awaiting(calls[1..], pre[1..], round)
  }

  lemma {:induction false} PreflightWithin(cfg: Config, calls: seq<ToolCall>, c: Counters, round: nat, ex: seq<Executed>, r: nat, n: string)
    requires Within(cfg.limits, c, ex, r, n)
    ensures var p := Preflight(cfg, calls, c, round);
            && Within(cfg.limits, p.counters, ex + Awaiting(calls, p.outcomes, round), r, n)
            && Within(cfg.limits, p.counters, ex, r, n)
            && p.counters.total == c.total + |calls|
            && forall e | e in Awaiting(calls, p.outcomes, round) :: Permits(cfg.policy, e.call.name)
    decreases |calls|
  {
    if calls == [] {
      assert ex + [] == ex;
    } else {
      ChargeWithin(cfg.limits, c, ex, calls[0], round, r, n);
      HeadWithin(cfg, c, ex, calls[0], round, r, n);
      var d := Charge(c, calls[0], round);
      var head := HeadRan(cfg, calls[0], d, round);
      hide Within, Permits, Refusal, Charge;
      var p := Preflight(cfg, calls, c, round);
      var rest := Preflight(cfg, calls[1..], d, round);
      assert p.outcomes[1..] == rest.outcomes;
      PreflightWithin(cfg, calls[1..], d, round, ex + head, r, n);
      PreflightWithin(cfg, calls[1..], d, round, ex, r, n);
      assert ex + head + Awaiting(calls[1..], rest.outcomes, round) == ex + (head + Awaiting(calls[1..], rest.outcomes, round));
    }
  }

  /** Only awaited calls with an approving decision run. */
  lemma {:induction false} ApprovedWithin(w: World, limits: Option<Limits>, allowed: set<string>, calls: seq<ToolCall>, pre: seq<Option<Outcome>>,
                                          ds: map<string, bool>, round: nat, stop: bool, stopped: bool, r: nat, n: string)
    requires |calls| == |pre| && forall i | 0 <= i < |calls| :: pre[i].None? ==> calls[i].id in ds
    ensures var a := Approved(w, limits, allowed, calls, pre, ds, round, stop, stopped);
            var all := Awaiting(calls, pre, round);
            && |a.executed| <= |all| && CountRound(a.executed, r) <= CountRound(all, r) && CountTool(a.executed, n) <= CountTool(all, n)
            && forall e | e in a.executed :: e in all && e.round == round && e.call.id in ds && ds[e.call.id]
    decreases |calls|
  {
    if calls != [] {
      var a := Approved(w, limits, allowed, calls, pre, ds, round, stop, stopped);
      var runs := pre[0].None? && ds[calls[0].id] && !stopped;
      var stopped' := stopped || (runs && stop && !a.outcomes[0].value.success);
      ApprovedWithin(w, limits, allowed, calls[1..], pre[1..], ds, round, stop, stopped', r, n);
      var rest := Approved(w, limits, allowed, calls[1..], pre[1..], ds, round, stop, stopped').executed;
      CountConcat(if runs then [Executed(round, calls[0])] else [], rest, r, n);
      CountConcat(if pre[0].None? then [Executed(round, calls[0])] else [], Awaiting(calls[1..], pre[1..], round), r, n);
    }
  }

  /** Calls the LLM asked for so far, read off the recorded LLM responses. */
  function Requested(steps: seq<Step>): nat {
    if steps == [] then 0 else (if steps[0].kind == "llm_response" then |steps[0].toolCalls| else 0) + Requested(steps[1..])
  }

  function CallsNamed(calls: seq<ToolCall>, n: string): nat {
    if calls == [] then 0 else (if calls[0].name == n then 1 else 0) + CallsNamed(calls[1..], n)
  }

  /** Calls of tool `n` the LLM asked for. */
  function RequestedOf(steps: seq<Step>, n: string): nat {
    if steps == [] then 0 else (if steps[0].kind == "llm_response" then CallsNamed(steps[0].toolCalls, n) else 0) + RequestedOf(steps[1..], n)
  }

  /** Calls the LLM asked for in round `r`. */
  function RequestedIn(steps: seq<Step>, r: nat): nat {
    if steps == [] then 0
    else (if steps[0].kind == "llm_response" && steps[0].index == r then |steps[0].toolCalls| else 0) + RequestedIn(steps[1..], r)
  }

  /** LLM responses logged for round `r`. */
  function Responses(steps: seq<Step>, r: nat): nat {
    if steps == [] then 0 else (if steps[0].kind == "llm_response" && steps[0].index == r then 1 else 0) + Responses(steps[1..], r)
  }

  lemma {:induction false} RequestedAppend(a: seq<Step>, s: Step, r: nat, n: string)
    ensures Requested(a + [s]) == Requested(a) + if s.kind == "llm_response" then |s.toolCalls| else 0
    ensures RequestedOf(a + [s], n) == RequestedOf(a, n) + if s.kind == "llm_response" then CallsNamed(s.toolCalls, n) else 0
    ensures RequestedIn(a + [s], r) == RequestedIn(a, r) + if s.kind == "llm_response" && s.index == r then |s.toolCalls| else 0
    ensures Responses(a + [s], r) == Responses(a, r) + if s.kind == "llm_response" && s.index == r then 1 else 0
  {
    if a == [] {
      assert [] + [s] == [s] && [s][1..] == [];
    } else {
      assert (a + [s])[1..] == a[1..] + [s];
      RequestedAppend(a[1..], s, r, n);
    }
  }

  /** No call is charged twice: in all, for tool `n` and for round `r` the counters stay within what the LLM asked for. */
  predicate ChargedOnce(c: Counters, steps: seq<Step>, r: nat, n: string) {
    && c.total <= Requested(steps)
    && CountOf(c.perTool, n) <= RequestedOf(steps, n)
    && CountOf(c.perRound, r) <= RequestedIn(steps, r)
  }

  /** From `c` to `d` the calls of one group in round `round` were charged at most once each. */
  predicate Charges(c: Counters, d: Counters, calls: seq<ToolCall>, round: nat, r: nat, n: string) {
    && d.total <= c.total + |calls|
    && CountOf(d.perTool, n) <= CountOf(c.perTool, n) + CallsNamed(calls, n)
    && CountOf(d.perRound, r) <= CountOf(c.perRound, r) + if r == round then |calls| else 0
  }

  lemma {:induction false} GroupCharges(w: World, cfg: Config, allowed: set<string>, calls: seq<ToolCall>, c: Counters, round: nat, stop: bool, r: nat, n: string)
    ensures Charges(c, Group(w, cfg, allowed, calls, c, round, stop).counters, calls, round, r, n)
    decreases |calls|
  {
    if calls != [] {
      GroupCharges(w, cfg, allowed, calls[1..], Charge(c, calls[0], round), round, stop, r, n);
      hide Execute, Refusal;
    }
  }

  lemma {:induction false} PreflightCharges(cfg: Config, calls: seq<ToolCall>, c: Counters, round: nat, r: nat, n: string)
    ensures Charges(c, Preflight(cfg, calls, c, round).counters, calls, round, r, n)
    decreases |calls|
  {
    if calls != [] { PreflightCharges(cfg, calls[1..], Charge(c, calls[0], round), round, r, n); }
  }

  predicate StateWithin(cfg: Config, st: State, r: nat, n: string) {
    && Within(cfg.limits, st.counters, st.executed, r, n)
    && ChargedOnce(st.counters, st.steps, r, n)
    && forall e | e in st.executed :: Permits(cfg.policy, e.call.name)
  }

  /** A finished or paused run that respects the limits and the policy. */
  predicate RunWithin(cfg: Config, run: Run, r: nat, n: string) {
    && StateWithin(cfg, run.state, r, n)
    && |run.state.requests| <= cfg.maxSteps
    && (run.result.checkpoint.Some? ==>
          var cp := run.result.checkpoint.value;
          && Consistent(cp) && cp.config == cfg
          && cp.counters == run.state.counters && cp.steps == run.state.steps
          && Within(cfg.limits, cp.counters, run.state.executed + Awaiting(cp.response.toolCalls, cp.preflight, cp.round), r, n)
          && (forall e | e in Awaiting(cp.response.toolCalls, cp.preflight, cp.round) :: Permits(cfg.policy, e.call.name))
          && |run.state.requests| <= cp.round + 1)
  }

  /** Closing a round logs a tool step, which requests nothing. */
  lemma CloseWithin(cfg: Config, st: State, i: nat, r: Response, calls: seq<ToolCall>, os: seq<Outcome>, rd: nat, n: string)
    requires StateWithin(cfg, st, rd, n) && |st.requests| <= i + 1 <= cfg.maxSteps
    ensures match CloseRound(cfg, st, i, r, calls, os)
            case Ended(run) => RunWithin(cfg, run, rd, n) && run.result.checkpoint.None? && run.state.executed == st.executed
            case Continue(st') => StateWithin(cfg, st', rd, n) && |st'.requests| <= i + 1 && st'.executed == st.executed
  {
    RequestedAppend(st.steps, ToolStep(i, r, calls, os), rd, n);
    hide Within, Requested, RequestedOf, RequestedIn;
  }

  /** A state that has logged the LLM response of round `i` but charged none of its calls yet. */
  ghost predicate Fresh(cfg: Config, st: State, i: nat, r: Response, rd: nat, n: string) {
    && StateWithin(cfg, st, rd, n)
    && forall d | Charges(st.counters, d, r.toolCalls, i, rd, n) :: ChargedOnce(d, st.steps, rd, n)
  }

  lemma ApprovalRoundIs(w: World, loopId: string, cfg: Config, defs: seq<ToolDefinition>, allowed: set<string>, st: State, i: nat, r: Response)
    ensures var p := Preflight(cfg, r.toolCalls, st.counters, i);
            var st1 := st.(history := st.history + [CallsMessage(r)]);
            ApprovalRound(w, loopId, cfg, defs, allowed, st, i, r) ==
            if !AllRefused(p.outcomes) then Ended(Pause(w, loopId, cfg, defs, allowed, st1, i, r, p))
            else CloseRound(cfg, st1.(counters := p.counters), i, r, r.toolCalls, Present(p.outcomes))
  {
  }

  /** Pausing after a screening that charged each call once. */
  lemma PauseWithin(w: World, loopId: string, cfg: Config, defs: seq<ToolDefinition>, allowed: set<string>, st: State, i: nat, r: Response, p: PreflightRun, rd: nat, n: string)
    requires |r.toolCalls| == |p.outcomes| > 0 && |st.requests| <= i + 1 <= cfg.maxSteps
    requires Within(cfg.limits, p.counters, st.executed + Awaiting(r.toolCalls, p.outcomes, i), rd, n) && Within(cfg.limits, p.counters, st.executed, rd, n)
    requires ChargedOnce(p.counters, st.steps, rd, n)
    requires forall e | e in st.executed || e in Awaiting(r.toolCalls, p.outcomes, i) :: Permits(cfg.policy, e.call.name)
    ensures RunWithin(cfg, Pause(w, loopId, cfg, defs, allowed, st, i, r, p), rd, n)
    ensures Pause(w, loopId, cfg, defs, allowed, st, i, r, p).state.executed == st.executed
  {
    hide Within, Permits, Requested, RequestedOf, RequestedIn, Consistent, Awaiting, Approvable, EffectiveMode, Fallback;
    PauseConsistent(w, loopId, cfg, defs, allowed, st, i, r, p);
    RequestedAppend(st.steps, PausedStep(i, r), rd, n);
  }

  lemma FreshIs(cfg: Config, st: State, i: nat, r: Response, d: Counters, rd: nat, n: string)
    requires Fresh(cfg, st, i, r, rd, n) && Charges(st.counters, d, r.toolCalls, i, rd, n)
    ensures ChargedOnce(d, st.steps, rd, n) && Within(cfg.limits, st.counters, st.executed, rd, n)
    ensures forall e | e in st.executed :: Permits(cfg.policy, e.call.name)
  {
    hide ChargedOnce, Within, Permits, Charges;
  }

  lemma StateWithinFrom(cfg: Config, st: State, rd: nat, n: string)
    requires Within(cfg.limits, st.counters, st.executed, rd, n) && ChargedOnce(st.counters, st.steps, rd, n)
    requires forall e | e in st.executed :: Permits(cfg.policy, e.call.name)
    ensures StateWithin(cfg, st, rd, n)
  {
    hide ChargedOnce, Within, Permits;
  }

  lemma ApprovalWithin(w: World, loopId: string, cfg: Config, defs: seq<ToolDefinition>, allowed: set<string>, st: State, i: nat, r: Response, rd: nat, n: string)
    requires Fresh(cfg, st, i, r, rd, n) && |st.requests| <= i + 1 <= cfg.maxSteps && r.toolCalls != []
    ensures match ApprovalRound(w, loopId, cfg, defs, allowed, st, i, r)
            case Ended(run) => RunWithin(cfg, run, rd, n) && run.state.executed == st.executed
            case Continue(st') => StateWithin(cfg, st', rd, n) && |st'.requests| <= i + 1 && st'.executed == st.executed
  {
    hide *;
    var p := Preflight(cfg, r.toolCalls, st.counters, i);
    PreflightCharges(cfg, r.toolCalls, st.counters, i, rd, n);
    FreshIs(cfg, st, i, r, p.counters, rd, n);
    PreflightWithin(cfg, r.toolCalls, st.counters, i, st.executed, rd, n);
    var st1 := st.(history := st.history + [CallsMessage(r)]);
    ApprovalRoundIs(w, loopId, cfg, defs, allowed, st, i, r);
    if AllRefused(p.outcomes) {
      StateWithinFrom(cfg, st1.(counters := p.counters), rd, n);
      CloseWithin(cfg, st1.(counters := p.counters), i, r, r.toolCalls, Present(p.outcomes), rd, n);
    } else {
      PauseWithin(w, loopId, cfg, defs, allowed, st1, i, r, p, rd, n);
    }
  }

  lemma PlainWithin(w: World, cfg: Config, allowed: set<string>, st: State, i: nat, r: Response, rd: nat, n: string)
    requires Fresh(cfg, st, i, r, rd, n) && |st.requests| <= i + 1 <= cfg.maxSteps
    ensures match PlainRound(w, cfg, allowed, st, i, r)
            case Ended(run) => RunWithin(cfg, run, rd, n)
            case Continue(st') => StateWithin(cfg, st', rd, n) && |st'.requests| <= i + 1
  {
    var g := PlainGroup(w, cfg, allowed, r.toolCalls, st.counters, i);
    GroupWithin(w, cfg, allowed, r.toolCalls, st.counters, i,
                cfg.stopOnToolError && EffectiveMode(w, cfg.mode, PermittedCalls(cfg, r.toolCalls)) == Sequential, st.executed, rd, n);
    GroupCharges(w, cfg, allowed, r.toolCalls, st.counters, i,
                 cfg.stopOnToolError && EffectiveMode(w, cfg.mode, PermittedCalls(cfg, r.toolCalls)) == Sequential, rd, n);
    hide Within, Group, Requested, RequestedOf, RequestedIn, Charges;
    var st1 := st.(history := st.history + [CallsMessage(r)], counters := g.counters, executed := st.executed + g.executed);
    CloseWithin(cfg, st1, i, r, r.toolCalls[..|g.outcomes|], g.outcomes, rd, n);
  }

  lemma RoundWithin(w: World, loopId: string, opts: LlmOptions, cfg: Config, defs: seq<ToolDefinition>, allowed: set<string>, st: State, i: nat, rd: nat, n: string)
    requires StateWithin(cfg, st, rd, n) && |st.requests| <= i < cfg.maxSteps
    ensures match Round(w, loopId, opts, cfg, defs, allowed, st, i)
            case Ended(run) => RunWithin(cfg, run, rd, n) && (cfg.requireApproval ==> run.state.executed == st.executed)
            case Continue(st') => StateWithin(cfg, st', rd, n) && |st'.requests| <= i + 1 && (cfg.requireApproval ==> st'.executed == st.executed)
  {
    hide Within, ApprovalRound, PlainRound, Requested, RequestedOf, RequestedIn, CallsNamed;
    match w.llm(opts, defs, st.history)
    case LlmRaised(e, cat) => RequestedAppend(st.steps, LlmErrorStep(i, e, cat, w.route(opts)), rd, n);
    case Reply(r) =>
      var step := LlmStep(i, r);
      RequestedAppend(st.steps, step, rd, n);
      var st1 := st.(requests := st.requests + [st.history], steps := st.steps + [step]);
      if r.toolCalls != [] && cfg.requireApproval {
        ApprovalWithin(w, loopId, cfg, defs, allowed, st1, i, r, rd, n);
      } else if r.toolCalls != [] && i + 1 < cfg.maxSteps {
        PlainWithin(w, cfg, allowed, st1, i, r, rd, n);
      }
  }

  lemma {:induction false} LoopWithin(w: World, loopId: string, opts: LlmOptions, cfg: Config, defs: seq<ToolDefinition>, allowed: set<string>, st: State, i: nat, rd: nat, n: string)
    requires StateWithin(cfg, st, rd, n) && |st.requests| <= i <= cfg.maxSteps
    ensures RunWithin(cfg, Loop(w, loopId, opts, cfg, defs, allowed, st, i), rd, n)
    ensures cfg.requireApproval ==> Loop(w, loopId, opts, cfg, defs, allowed, st, i).state.executed == st.executed
    decreases cfg.maxSteps - i
  {
    hide Round;
    if i < cfg.maxSteps {
      RoundWithin(w, loopId, opts, cfg, defs, allowed, st, i, rd, n);
      var next := Round(w, loopId, opts, cfg, defs, allowed, st, i);
      if next.Continue? { LoopWithin(w, loopId, opts, cfg, defs, allowed, next.state, i + 1, rd, n); }
    }
  }

  lemma WithinSubset(limits: Option<Limits>, c: Counters, ex: seq<Executed>, all: seq<Executed>, some: seq<Executed>, r: nat, n: string)
    requires Within(limits, c, ex + all, r, n)
    requires |some| <= |all| && CountRound(some, r) <= CountRound(all, r) && CountTool(some, n) <= CountTool(all, n)
    ensures Within(limits, c, ex + some, r, n)
  {
    CountConcat(ex, all, r, n);
    CountConcat(ex, some, r, n);
  }

  /** The submission decided the call's own round and approved the call. */
  predicate ApprovedIn(s: Submission, e: Executed) {
    s.round == e.round && e.call.id in s.decisions && s.decisions[e.call.id]
  }

  predicate ApprovedBy(subs: seq<Submission>, e: Executed) {
    exists k | 0 <= k < |subs| :: ApprovedIn(subs[k], e)
  }

  lemma {:induction false} ResumeWithin(w: World, loopId: string, cfg: Config, run: Run, ds: map<string, bool>, rd: nat, n: string)
    requires RunWithin(cfg, run, rd, n) && run.result.checkpoint.Some? && ds.Keys == PendingIds(run.result.checkpoint.value)
    ensures var next := ResumeRounds(w, loopId, run.result.checkpoint.value, ds, run.state);
            && RunWithin(cfg, next, rd, n)
            && (cfg.requireApproval ==> forall e | e in next.state.executed ::
                  e in run.state.executed || ApprovedIn(Submission(run.result.checkpoint.value.round, ds), e))
  {
    var cp, before := run.result.checkpoint.value, run.state;
    var calls := cp.response.toolCalls;
    var stop := cfg.stopOnToolError && cp.effective == Sequential;
    var a := Approved(w, cfg.limits, cp.allowedNames, calls, cp.preflight, ds, cp.round, stop, false);
    var all := Awaiting(calls, cp.preflight, cp.round);
    ApprovedWithin(w, cfg.limits, cp.allowedNames, calls, cp.preflight, ds, cp.round, stop, false, rd, n);
    WithinSubset(cfg.limits, cp.counters, before.executed, all, a.executed, rd, n);
    var st := State(cp.history, cp.counters, cp.steps, cp.results, before.requests, before.executed + a.executed);
    CloseWithin(cfg, st, cp.round, cp.response, PresentCalls(calls, a.outcomes), Present(a.outcomes), rd, n);
    var next := CloseRound(cfg, st, cp.round, cp.response, PresentCalls(calls, a.outcomes), Present(a.outcomes));
    if next.Continue? {
      LoopWithin(w, loopId, DefaultOptions, cfg, cp.definitions, cp.allowedNames, next.state, cp.round + 1, rd, n);
    }
  }

  /**
   Limits hold over whole sessions: through any chain of resumes the executed
   calls stay within the per-loop, per-round and per-tool limits, are permitted
   by the policy, are charged no more often than the LLM asked for them, and the
   LLM is asked at most `maxSteps` times. With approval on, every call that ran
   was approved by the accepted submission that resumed its round.
   */
  lemma {:induction false} SessionWithin(w: World, loopId: string, consumed: set<string>, cfg: Config, run: Run, ds: seq<map<string, bool>>, rd: nat, n: string)
    requires RunWithin(cfg, run, rd, n)
    ensures RunWithin(cfg, Session(w, loopId, consumed, run, ds), rd, n)
    ensures cfg.requireApproval ==>
              forall e | e in Session(w, loopId, consumed, run, ds).state.executed ::
                e in run.state.executed || ApprovedBy(Accepted(w, loopId, consumed, run, ds), e)
    decreases |ds|
  {
    hide *;
    if ds == [] || run.result.checkpoint.None? {
      SessionEnds(w, loopId, consumed, run, ds);
    } else {
      CheckpointIs(cfg, run, rd, n);
      SessionTurn(w, loopId, consumed, run, ds);
      var cp := run.result.checkpoint.value;
      var reply := Resume(w, loopId, consumed, cp, ds[0], run.state);
      if reply.Resumed? {
        ResumeWithin(w, loopId, cfg, run, ds[0], rd, n);
        SessionWithin(w, loopId, consumed + {cp.id}, cfg, reply.run, ds[1..], rd, n);
        var rest := Accepted(w, loopId, consumed + {cp.id}, reply.run, ds[1..]);
        forall e: Executed ensures ApprovedIn(Submission(cp.round, ds[0]), e) || ApprovedBy(rest, e) ==> ApprovedBy(Accepted(w, loopId, consumed, run, ds), e) {
          ApprovedCons(Submission(cp.round, ds[0]), rest, e);
        }
      } else {
        SessionWithin(w, loopId, consumed, cfg, run, ds[1..], rd, n);
      }
    }
  }

  lemma ApprovedCons(s: Submission, subs: seq<Submission>, e: Executed)
    ensures ApprovedIn(s, e) || ApprovedBy(subs, e) ==> ApprovedBy([s] + subs, e)
  {
    hide ApprovedIn;
    var all := [s] + subs;
    assert all[0] == s && forall k | 0 <= k < |subs| :: all[k + 1] == subs[k];
  }

  lemma CheckpointIs(cfg: Config, run: Run, rd: nat, n: string)
    requires RunWithin(cfg, run, rd, n) && run.result.checkpoint.Some?
    ensures Consistent(run.result.checkpoint.value) && run.result.checkpoint.value.config == cfg
  {
  }

  /** Accepted submissions decide later and later rounds, so a round has at most one. */
  lemma {:induction false} RoundsIncrease(w: World, loopId: string, consumed: set<string>, run: Run, ds: seq<map<string, bool>>)
    ensures Increasing(Accepted(w, loopId, consumed, run, ds), if run.result.checkpoint.Some? then run.result.checkpoint.value.round else 0)
    ensures run.result.checkpoint.None? ==> Accepted(w, loopId, consumed, run, ds) == []
    decreases |ds|
  {
    hide *;
    var subs := Accepted(w, loopId, consumed, run, ds);
    if ds == [] || run.result.checkpoint.None? || !Consistent(run.result.checkpoint.value) {
      SessionEnds(w, loopId, consumed, run, ds);
      NoneIncrease(if run.result.checkpoint.Some? then run.result.checkpoint.value.round else 0);
    } else {
      SessionTurn(w, loopId, consumed, run, ds);
      var cp := run.result.checkpoint.value;
      var reply := Resume(w, loopId, consumed, cp, ds[0], run.state);
      if reply.Resumed? {
        RoundsIncrease(w, loopId, consumed + {cp.id}, reply.run, ds[1..]);
        var rest := Accepted(w, loopId, consumed + {cp.id}, reply.run, ds[1..]);
        ConsIncreases(Submission(cp.round, ds[0]), rest, if reply.run.result.checkpoint.Some? then reply.run.result.checkpoint.value.round else 0);
      } else {
        RoundsIncrease(w, loopId, consumed, run, ds[1..]);
      }
    }
  }

  predicate Increasing(subs: seq<Submission>, from: nat) {
    && (forall i, j | 0 <= i < j < |subs| :: subs[i].round < subs[j].round)
    && forall i | 0 <= i < |subs| :: from <= subs[i].round
  }

  lemma NoneIncrease(from: nat)
    ensures Increasing([], from)
  {
  }

  lemma ConsIncreases(s: Submission, subs: seq<Submission>, from: nat)
    requires Increasing(subs, from) && (subs == [] || s.round < from)
    ensures Increasing([s] + subs, s.round)
  {
    var all := [s] + subs;
    assert forall k | 0 < k < |all| :: all[k] == subs[k - 1];
  }

  // ----- one response per round ------------------------------------------

  predicate LogBelow(steps: seq<Step>, i: nat, r: nat) {
    Responses(steps, r) <= if r < i then 1 else 0
  }

  /** At most one LLM response is logged for round `r`, and a paused run's log ends with the round it paused in. */
  predicate LogOk(run: Run, r: nat) {
    && Responses(run.state.steps, r) <= 1
    && (run.result.checkpoint.Some? ==>
          run.result.checkpoint.value.steps == run.state.steps && LogBelow(run.state.steps, run.result.checkpoint.value.round + 1, r))
  }

  lemma CloseLog(cfg: Config, st: State, i: nat, r: Response, calls: seq<ToolCall>, os: seq<Outcome>, rd: nat)
    requires LogBelow(st.steps, i + 1, rd)
    ensures match CloseRound(cfg, st, i, r, calls, os)
            case Ended(run) => LogOk(run, rd)
            case Continue(st') => LogBelow(st'.steps, i + 1, rd)
  {
    RequestedAppend(st.steps, ToolStep(i, r, calls, os), rd, "");
    hide Responses;
  }

  lemma RoundLog(w: World, loopId: string, opts: LlmOptions, cfg: Config, defs: seq<ToolDefinition>, allowed: set<string>, st: State, i: nat, rd: nat)
    requires LogBelow(st.steps, i, rd) && i < cfg.maxSteps
    ensures match Round(w, loopId, opts, cfg, defs, allowed, st, i)
            case Ended(run) => LogOk(run, rd)
            case Continue(st') => LogBelow(st'.steps, i + 1, rd)
  {
    hide Responses, CloseRound, Preflight, Group, EffectiveMode, Approvable;
    match w.llm(opts, defs, st.history)
    case LlmRaised(e, cat) => RequestedAppend(st.steps, LlmErrorStep(i, e, cat, w.route(opts)), rd, "");
    case Reply(r) =>
      var st1 := st.(requests := st.requests + [st.history], steps := st.steps + [LlmStep(i, r)]);
      RequestedAppend(st.steps, LlmStep(i, r), rd, "");
      if r.toolCalls != [] && cfg.requireApproval {
        RequestedAppend(st1.steps, PausedStep(i, r), rd, "");
        var p := Preflight(cfg, r.toolCalls, st.counters, i);
        CloseLog(cfg, st1.(history := st.history + [CallsMessage(r)], counters := p.counters), i, r, r.toolCalls, Present(p.outcomes), rd);
      } else if r.toolCalls != [] && i + 1 < cfg.maxSteps {
        var g := PlainGroup(w, cfg, allowed, r.toolCalls, st.counters, i);
        CloseLog(cfg, st1.(history := st.history + [CallsMessage(r)], counters := g.counters, executed := st.executed + g.executed),
                 i, r, r.toolCalls[..|g.outcomes|], g.outcomes, rd);
      }
  }

  lemma {:induction false} LoopLog(w: World, loopId: string, opts: LlmOptions, cfg: Config, defs: seq<ToolDefinition>, allowed: set<string>, st: State, i: nat, rd: nat)
    requires LogBelow(st.steps, i, rd)
    ensures LogOk(Loop(w, loopId, opts, cfg, defs, allowed, st, i), rd)
    decreases cfg.maxSteps - i
  {
    hide Round;
    if i < cfg.maxSteps {
      RoundLog(w, loopId, opts, cfg, defs, allowed, st, i, rd);
      var next := Round(w, loopId, opts, cfg, defs, allowed, st, i);
      if next.Continue? { LoopLog(w, loopId, opts, cfg, defs, allowed, next.state, i + 1, rd); }
    }
  }

  lemma ResumeLog(w: World, loopId: string, cp: Checkpoint, ds: map<string, bool>, before: State, rd: nat)
    requires Consistent(cp) && ds.Keys == PendingIds(cp) && LogBelow(cp.steps, cp.round + 1, rd)
    ensures LogOk(ResumeRounds(w, loopId, cp, ds, before), rd)
  {
    hide Responses, CloseRound, Approved, Loop, Present, PresentCalls;
    var cfg, calls := cp.config, cp.response.toolCalls;
    var a := Approved(w, cfg.limits, cp.allowedNames, calls, cp.preflight, ds, cp.round, cfg.stopOnToolError && cp.effective == Sequential, false);
    var st := State(cp.history, cp.counters, cp.steps, cp.results, before.requests, before.executed + a.executed);
    CloseLog(cfg, st, cp.round, cp.response, PresentCalls(calls, a.outcomes), Present(a.outcomes), rd);
    var next := CloseRound(cfg, st, cp.round, cp.response, PresentCalls(calls, a.outcomes), Present(a.outcomes));
    if next.Continue? { LoopLog(w, loopId, DefaultOptions, cfg, cp.definitions, cp.allowedNames, next.state, cp.round + 1, rd); }
  }

  lemma {:induction false} SessionLog(w: World, loopId: string, consumed: set<string>, run: Run, ds: seq<map<string, bool>>, rd: nat)
    requires LogOk(run, rd)
    ensures LogOk(Session(w, loopId, consumed, run, ds), rd)
    decreases |ds|
  {
    if !(ds == [] || run.result.checkpoint.None? || !Consistent(run.result.checkpoint.value)) {
      hide ResumeRounds, Responses;
      var cp := run.result.checkpoint.value;
      match Resume(w, loopId, consumed, cp, ds[0], run.state)
      case Resumed(next) =>
        ResumeLog(w, loopId, cp, ds[0], run.state, rd);
        SessionLog(w, loopId, consumed + {cp.id}, next, ds[1..], rd);
      case _ => SessionLog(w, loopId, consumed, run, ds[1..], rd);
    }
  }

  /**
   Limits over a run and its whole chain of resumes, at any round `rd` and tool
   `n`: executed calls respect every limit and the policy; in all, per tool and
   per round no more calls are charged than the LLM asked for, and a round has
   one LLM response; at most `maxSteps` requests are sent; and with approval on
   every executed call was approved by the accepted submission of its own round,
   of which there is only one.
   */
  lemma LimitsHold(w: World, loopId: string, opts: LlmOptions, cfg: Config, defs: seq<ToolDefinition>, allowed: set<string>,
                   messages: seq<Message>, ds: seq<map<string, bool>>, rd: nat, n: string)
    ensures var run := Loop(w, loopId, opts, cfg, defs, allowed, Start(messages), 0);
            var s, subs := Session(w, loopId, {}, run, ds).state, Accepted(w, loopId, {}, run, ds);
            && Within(cfg.limits, s.counters, s.executed, rd, n)
            && ChargedOnce(s.counters, s.steps, rd, n) && Responses(s.steps, rd) <= 1
            && |s.requests| <= cfg.maxSteps
            && (forall e | e in s.executed :: Permits(cfg.policy, e.call.name))
            && (cfg.requireApproval ==> forall e | e in s.executed :: ApprovedBy(subs, e))
            && Increasing(subs, 0)
  {
    var run := Loop(w, loopId, opts, cfg, defs, allowed, Start(messages), 0);
    LoopWithin(w, loopId, opts, cfg, defs, allowed, Start(messages), 0, rd, n);
    LoopLog(w, loopId, opts, cfg, defs, allowed, Start(messages), 0, rd);
    hide Loop, Within, ChargedOnce, Session, Accepted, ApprovedBy, Responses, LogBelow, Increasing;
    SessionWithin(w, loopId, {}, cfg, run, ds, rd, n);
    SessionLog(w, loopId, {}, run, ds, rd);
    RoundsIncrease(w, loopId, {}, run, ds);
    IncreasesFromZero(Accepted(w, loopId, {}, run, ds), if run.result.checkpoint.Some? then run.result.checkpoint.value.round else 0);
  }

  lemma IncreasesFromZero(subs: seq<Submission>, from: nat)
    requires Increasing(subs, from)
    ensures Increasing(subs, 0)
  {
  }

  // ----- parallel against sequential -------------------------------------

  /** The prefix up to and including the first failure. */
  function UpToFailure(os: seq<Outcome>): seq<Outcome> {
    if os == [] then [] else if !os[0].success then [os[0]] else [os[0]] + UpToFailure(os[1..])
  }

  /**
   A sequential group that stops on errors yields exactly the part of the parallel
   group's outcome list up to and including the first failure, and no failure means
   the same counters and the same executed calls.
   */
  lemma {:induction false} StoppedIsPrefix(w: World, cfg: Config, allowed: set<string>, calls: seq<ToolCall>, c: Counters, round: nat)
    ensures var s, p := Group(w, cfg, allowed, calls, c, round, true), Group(w, cfg, allowed, calls, c, round, false);
            && s.outcomes == UpToFailure(p.outcomes) && s.executed <= p.executed
            && (FirstFailure(p.outcomes).None? ==> s == p)
    decreases |calls|
  {
    if calls != [] {
      var d := Charge(c, calls[0], round);
      StoppedIsPrefix(w, cfg, allowed, calls[1..], d, round);
      var p, rest := Group(w, cfg, allowed, calls, c, round, false), Group(w, cfg, allowed, calls[1..], d, round, false);
      assert p.outcomes[1..] == rest.outcomes;
    }
  }

  // ----- transparent pausing ---------------------------------------------

  function ApproveAll(cp: Checkpoint): map<string, bool> {
    map id | id in PendingIds(cp) :: true
  }

  /** Resumes with every pending call approved until the run no longer pauses. */
  function AutoApprove(w: World, loopId: string, consumed: set<string>, run: Run): Run
    decreases if run.result.checkpoint.Some? && run.result.checkpoint.value.round < run.result.checkpoint.value.config.maxSteps
              then run.result.checkpoint.value.config.maxSteps - run.result.checkpoint.value.round else 0
  {
    if run.result.checkpoint.None? || !Consistent(run.result.checkpoint.value) then run
    else
      var cp := run.result.checkpoint.value;
      match Resume(w, loopId, consumed, cp, ApproveAll(cp), run.state)
      case Resumed(next) => AutoApprove(w, loopId, consumed + {cp.id}, next)
      case _ => run
  }

  function WithoutPauses(steps: seq<Step>): seq<Step> {
    if steps == [] then [] else (if steps[0].kind == "approval_required" then [] else [steps[0]]) + WithoutPauses(steps[1..])
  }

  lemma {:induction false} WithoutPausesConcat(a: seq<Step>, b: seq<Step>)
    ensures WithoutPauses(a + b) == WithoutPauses(a) + WithoutPauses(b)
  {
    if a == [] {
      assert a + b == b;
    } else {
      assert (a + b)[1..] == a[1..] + b;
      WithoutPausesConcat(a[1..], b);
    }
  }

  lemma AppendStep(steps: seq<Step>, s: Step)
    ensures WithoutPauses(steps + [s]) == WithoutPauses(steps) + if s.kind == "approval_required" then [] else [s]
  {
    WithoutPausesConcat(steps, [s]);
    assert [s][1..] == [];
  }

  predicate AllApproved(calls: seq<ToolCall>, pre: seq<Option<Outcome>>, ds: map<string, bool>) {
    |calls| == |pre| && forall i | 0 <= i < |calls| :: pre[i].None? ==> calls[i].id in ds && ds[calls[i].id]
  }

  lemma ApprovedTurn(w: World, limits: Option<Limits>, allowed: set<string>, calls: seq<ToolCall>, pre: seq<Option<Outcome>>, ds: map<string, bool>, round: nat)
    requires calls != [] && AllApproved(calls, pre, ds)
    ensures AllApproved(calls[1..], pre[1..], ds)
    ensures var rest := Approved(w, limits, allowed, calls[1..], pre[1..], ds, round, false, false);
            Approved(w, limits, allowed, calls, pre, ds, round, false, false) ==
            ApprovedRun([Some(if pre[0].Some? then pre[0].value else Execute(w, limits, allowed, calls[0]))] + rest.outcomes,
                        (if pre[0].None? then [Executed(round, calls[0])] else []) + rest.executed)
  {
    hide Execute;
  }

  lemma PresentTurn(calls: seq<ToolCall>, o: Outcome, rest: seq<Option<Outcome>>)
    requires calls != [] && |rest| == |calls| - 1
    ensures Present([Some(o)] + rest) == [o] + Present(rest)
    ensures PresentCalls(calls, [Some(o)] + rest) == [calls[0]] + PresentCalls(calls[1..], rest)
  {
    assert ([Some(o)] + rest)[1..] == rest;
  }

  lemma {:induction false} ApprovedMatchesGroup(w: World, cfg: Config, allowed: set<string>, calls: seq<ToolCall>, c: Counters, round: nat, ds: map<string, bool>)
    requires AllApproved(calls, Preflight(cfg, calls, c, round).outcomes, ds)
    ensures var p, g := Preflight(cfg, calls, c, round), Group(w, cfg, allowed, calls, c, round, false);
            var a := Approved(w, cfg.limits, allowed, calls, p.outcomes, ds, round, false, false);
            && p.counters == g.counters && a.executed == g.executed
            && Present(a.outcomes) == g.outcomes && PresentCalls(calls, a.outcomes) == calls && |g.outcomes| == |calls|
    decreases |calls|
  {
    if calls != [] {
      hide Execute, Refusal, Charge, Approved, AllApproved, Present, PresentCalls;
      var d := Charge(c, calls[0], round);
      var p, rest := Preflight(cfg, calls, c, round), Preflight(cfg, calls[1..], d, round);
      assert p.outcomes[1..] == rest.outcomes;
      ApprovedTurn(w, cfg.limits, allowed, calls, p.outcomes, ds, round);
      ApprovedMatchesGroup(w, cfg, allowed, calls[1..], d, round, ds);
      var a := Approved(w, cfg.limits, allowed, calls, p.outcomes, ds, round, false, false);
      PresentTurn(calls, a.outcomes[0].value, a.outcomes[1..]);
      assert [calls[0]] + calls[1..] == calls && [a.outcomes[0]] + a.outcomes[1..] == a.outcomes;
    }
  }

  /** When preflight refuses every call, its outcomes are the group's and nothing runs. */
  lemma {:induction false} RefusedMatchesGroup(w: World, cfg: Config, allowed: set<string>, calls: seq<ToolCall>, c: Counters, round: nat)
    requires AllRefused(Preflight(cfg, calls, c, round).outcomes)
    ensures var p, g := Preflight(cfg, calls, c, round), Group(w, cfg, allowed, calls, c, round, false);
            p.counters == g.counters && g.executed == [] && Present(p.outcomes) == g.outcomes && |g.outcomes| == |calls|
    decreases |calls|
  {
    if calls != [] {
      var d := Charge(c, calls[0], round);
      var p, rest := Preflight(cfg, calls, c, round), Preflight(cfg, calls[1..], d, round);
      assert p.outcomes[1..] == rest.outcomes && p.outcomes[0] in p.outcomes;
      assert AllRefused(rest.outcomes) by { assert forall o | o in rest.outcomes :: o in p.outcomes; }
      RefusedMatchesGroup(w, cfg, allowed, calls[1..], d, round);
    }
  }

  /** The two runs agree except for the approval steps in the log. */
  predicate SameState(plain: State, paused: State) {
    && plain.history == paused.history && plain.counters == paused.counters && plain.results == paused.results
    && plain.requests == paused.requests && plain.executed == paused.executed
    && WithoutPauses(paused.steps) == WithoutPauses(plain.steps)
  }

  predicate SameRun(plain: Run, paused: Run) {
    && SameState(plain.state, paused.state)
    && plain.result.reason == paused.result.reason && plain.result.completed == paused.result.completed
    && plain.result.final == paused.result.final && plain.result.results == paused.result.results
    && WithoutPauses(paused.result.steps) == WithoutPauses(plain.result.steps)
  }

  /** Checkpoint ids are fresh: distinct per round, and none of the consumed ones is still to come. */
  ghost predicate FreshFrom(w: World, consumed: set<string>, i: nat) {
    forall k: nat :: k >= i ==> w.uuid(k) !in consumed && forall j: nat :: j >= i && j != k ==> w.uuid(j) != w.uuid(k)
  }

  /** The state after round `i` ran group `g` of response `r`, with `pause` inserted in the log. */
  function NextState(st: State, i: nat, r: Response, g: GroupRun, pause: seq<Step>): State {
    State(st.history + [CallsMessage(r)] + ResultMessages(g.outcomes), g.counters,
          st.steps + [LlmStep(i, r)] + pause + [ToolStep(i, r, r.toolCalls, g.outcomes)],
          st.results + Results(g.outcomes), st.requests + [st.history], st.executed + g.executed)
  }

  lemma {:induction false} GroupComplete(w: World, cfg: Config, allowed: set<string>, calls: seq<ToolCall>, c: Counters, round: nat)
    ensures |Group(w, cfg, allowed, calls, c, round, false).outcomes| == |calls|
    decreases |calls|
  {
    if calls != [] { GroupComplete(w, cfg, allowed, calls[1..], Charge(c, calls[0], round), round); }
  }

  lemma PlainRoundNext(w: World, loopId: string, opts: LlmOptions, cfg: Config, defs: seq<ToolDefinition>, allowed: set<string>, st: State, i: nat, r: Response)
    requires !cfg.requireApproval && !cfg.stopOnToolError && i + 1 < cfg.maxSteps
    requires w.llm(opts, defs, st.history) == Reply(r) && r.toolCalls != []
    ensures Loop(w, loopId, opts, cfg, defs, allowed, st, i)
         == Loop(w, loopId, opts, cfg, defs, allowed, NextState(st, i, r, Group(w, cfg, allowed, r.toolCalls, st.counters, i, false), []), i + 1)
  {
    var g := PlainGroup(w, cfg, allowed, r.toolCalls, st.counters, i);
    GroupComplete(w, cfg, allowed, r.toolCalls, st.counters, i);
    assert r.toolCalls[..|g.outcomes|] == r.toolCalls;
    assert st.steps + [LlmStep(i, r)] + [] == st.steps + [LlmStep(i, r)];
  }

  lemma RefusedRound(w: World, loopId: string, opts: LlmOptions, cfg: Config, defs: seq<ToolDefinition>, allowed: set<string>, st: State, i: nat, r: Response)
    requires cfg.requireApproval && !cfg.stopOnToolError && i < cfg.maxSteps
    requires w.llm(opts, defs, st.history) == Reply(r) && r.toolCalls != []
    requires AllRefused(Preflight(cfg, r.toolCalls, st.counters, i).outcomes)
    ensures Loop(w, loopId, opts, cfg, defs, allowed, st, i)
         == Loop(w, loopId, opts, cfg, defs, allowed, NextState(st, i, r, Group(w, cfg, allowed, r.toolCalls, st.counters, i, false), []), i + 1)
  {
    RefusedMatchesGroup(w, cfg, allowed, r.toolCalls, st.counters, i);
    assert st.executed + [] == st.executed;
    assert st.steps + [LlmStep(i, r)] + [] == st.steps + [LlmStep(i, r)];
  }

  lemma ApproveAllFits(w: World, loopId: string, cfg: Config, defs: seq<ToolDefinition>, allowed: set<string>, st: State, i: nat, r: Response)
    requires r.toolCalls != [] && i < cfg.maxSteps
    ensures var p := Preflight(cfg, r.toolCalls, st.counters, i);
            var cp := MakeCheckpoint(w, loopId, cfg, defs, allowed, st, i, r, p);
            Consistent(cp) && AllApproved(r.toolCalls, p.outcomes, ApproveAll(cp)) && ApproveAll(cp).Keys == PendingIds(cp)
  {
    PauseConsistent(w, loopId, cfg, defs, allowed, st, i, r, Preflight(cfg, r.toolCalls, st.counters, i));
  }

  lemma ApprovedRound(w: World, loopId: string, consumed: set<string>, opts: LlmOptions, cfg: Config, defs: seq<ToolDefinition>, allowed: set<string>, st: State, i: nat, r: Response)
    requires cfg.requireApproval && !cfg.stopOnToolError && i < cfg.maxSteps && ToolsUnchanged(w, defs) && w.uuid(i) !in consumed
    requires w.llm(opts, defs, st.history) == Reply(r) && r.toolCalls != []
    requires !AllRefused(Preflight(cfg, r.toolCalls, st.counters, i).outcomes)
    ensures AutoApprove(w, loopId, consumed, Loop(w, loopId, opts, cfg, defs, allowed, st, i))
         == AutoApprove(w, loopId, consumed + {w.uuid(i)}, Loop(w, loopId, DefaultOptions, cfg, defs, allowed,
              NextState(st, i, r, Group(w, cfg, allowed, r.toolCalls, st.counters, i, false), [PausedStep(i, r)]), i + 1))
  {
    var st1 := st.(requests := st.requests + [st.history], steps := st.steps + [LlmStep(i, r)]);
    var st2 := st1.(history := st.history + [CallsMessage(r)]);
    var p := Preflight(cfg, r.toolCalls, st.counters, i);
    ApproveAllFits(w, loopId, cfg, defs, allowed, st2, i, r);
    var run := Pause(w, loopId, cfg, defs, allowed, st2, i, r, p);
    var cp := run.result.checkpoint.value;
    PausesAt(w, loopId, opts, cfg, defs, allowed, st, i, r);
    ResumesTo(w, loopId, cfg, defs, allowed, st, i, r, cp, ApproveAll(cp), run.state);
    hide Loop, Preflight, Group, NextState, MakeCheckpoint;
    assert Resume(w, loopId, consumed, cp, ApproveAll(cp), run.state).Resumed?;
  }

  lemma PausesAt(w: World, loopId: string, opts: LlmOptions, cfg: Config, defs: seq<ToolDefinition>, allowed: set<string>, st: State, i: nat, r: Response)
    requires cfg.requireApproval && i < cfg.maxSteps && w.llm(opts, defs, st.history) == Reply(r) && r.toolCalls != []
    requires !AllRefused(Preflight(cfg, r.toolCalls, st.counters, i).outcomes)
    ensures Loop(w, loopId, opts, cfg, defs, allowed, st, i)
         == Pause(w, loopId, cfg, defs, allowed, st.(requests := st.requests + [st.history], steps := st.steps + [LlmStep(i, r)],
                  history := st.history + [CallsMessage(r)]), i, r, Preflight(cfg, r.toolCalls, st.counters, i))
  {
    hide Preflight, MakeCheckpoint;
  }

  lemma ResumesTo(w: World, loopId: string, cfg: Config, defs: seq<ToolDefinition>, allowed: set<string>, st: State, i: nat, r: Response, cp: Checkpoint, ds: map<string, bool>, before: State)
    requires !cfg.stopOnToolError && Consistent(cp) && ds.Keys == PendingIds(cp)
    requires cp.preflight == Preflight(cfg, r.toolCalls, st.counters, i).outcomes && AllApproved(r.toolCalls, cp.preflight, ds)
    requires cp.config == cfg && cp.response == r && cp.round == i && cp.definitions == defs && cp.allowedNames == allowed
    requires cp.history == st.history + [CallsMessage(r)] && cp.counters == Preflight(cfg, r.toolCalls, st.counters, i).counters
    requires cp.steps == st.steps + [LlmStep(i, r)] + [PausedStep(i, r)] && cp.results == st.results
    requires before.requests == st.requests + [st.history] && before.executed == st.executed
    ensures ResumeRounds(w, loopId, cp, ds, before) == Loop(w, loopId, DefaultOptions, cfg, defs, allowed,
              NextState(st, i, r, Group(w, cfg, allowed, r.toolCalls, st.counters, i, false), [PausedStep(i, r)]), i + 1)
  {
    hide *;
    ApprovedMatchesGroup(w, cfg, allowed, r.toolCalls, st.counters, i, ds);
    ResumeUnfolds(w, loopId, cp, ds, before);
    var g := Group(w, cfg, allowed, r.toolCalls, st.counters, i, false);
    CloseContinues(cfg, State(cp.history, cp.counters, cp.steps, cp.results, before.requests, before.executed + g.executed), i, r, r.toolCalls, g.outcomes);
    NextStateIs(st, i, r, g, [PausedStep(i, r)]);
  }

  lemma NextStateIs(st: State, i: nat, r: Response, g: GroupRun, pause: seq<Step>)
    ensures NextState(st, i, r, g, pause) == State(st.history + [CallsMessage(r)] + ResultMessages(g.outcomes), g.counters,
              st.steps + [LlmStep(i, r)] + pause + [ToolStep(i, r, r.toolCalls, g.outcomes)],
              st.results + Results(g.outcomes), st.requests + [st.history], st.executed + g.executed)
  {
    hide CallsMessage, ResultMessages, LlmStep, ToolStep, Results;
  }

  /** A resume whose group closes without stopping carries on with the next round. */
  lemma ResumeUnfolds(w: World, loopId: string, cp: Checkpoint, ds: map<string, bool>, before: State)
    requires !cp.config.stopOnToolError && Consistent(cp) && ds.Keys == PendingIds(cp)
    requires AllApproved(cp.response.toolCalls, cp.preflight, ds)
    ensures
      var a := Approved(w, cp.config.limits, cp.allowedNames, cp.response.toolCalls, cp.preflight, ds, cp.round, false, false);
      var st := State(cp.history, cp.counters, cp.steps, cp.results, before.requests, before.executed + a.executed);
      var next := CloseRound(cp.config, st, cp.round, cp.response, PresentCalls(cp.response.toolCalls, a.outcomes), Present(a.outcomes));
      next.Continue? ==>
        ResumeRounds(w, loopId, cp, ds, before) == Loop(w, loopId, DefaultOptions, cp.config, cp.definitions, cp.allowedNames, next.state, cp.round + 1)
  {
    hide Loop, Approved, CloseRound, Present, PresentCalls, PendingIds;
  }

  lemma CloseContinues(cfg: Config, st: State, i: nat, r: Response, calls: seq<ToolCall>, os: seq<Outcome>)
    requires !cfg.stopOnToolError
    ensures CloseRound(cfg, st, i, r, calls, os) == Continue(
              State(st.history + ResultMessages(os), st.counters, st.steps + [ToolStep(i, r, calls, os)], st.results + Results(os), st.requests, st.executed))
  {
  }

  lemma NextSame(stP: State, stA: State, i: nat, r: Response, g: GroupRun, pause: seq<Step>)
    requires SameState(stP, stA) && (pause == [] || pause == [PausedStep(i, r)])
    ensures SameState(NextState(stP, i, r, g, []), NextState(stA, i, r, g, pause))
  {
    var l, t := LlmStep(i, r), ToolStep(i, r, r.toolCalls, g.outcomes);
    AppendStep(stP.steps, l);
    AppendStep(stP.steps + [l], t);
    AppendStep(stA.steps, l);
    WithoutPausesConcat(stA.steps + [l], pause);
    assert WithoutPauses(pause) == [] by { if pause != [] { assert pause[1..] == []; } }
    AppendStep(stA.steps + [l] + pause, t);
    assert stP.steps + [l] + [] == stP.steps + [l];
  }

  lemma {:induction false} GroupConfig(w: World, a: Config, b: Config, allowed: set<string>, calls: seq<ToolCall>, c: Counters, round: nat)
    requires a.policy == b.policy && a.limits == b.limits
    ensures Group(w, a, allowed, calls, c, round, false) == Group(w, b, allowed, calls, c, round, false)
    decreases |calls|
  {
    if calls != [] { GroupConfig(w, a, b, allowed, calls[1..], Charge(c, calls[0], round), round); }
  }
}
