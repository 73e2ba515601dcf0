/**
 The loop as the program runs it: mutable counters, the group executors as
 loops over the calls, and `run`/`resume` on an object that remembers which
 checkpoints it consumed. Every method is proved equal to its specification in `ToolLoop`.
 */
module ToolLoopObject {
  import opened Prelude
  import opened LlmTypes
  import opened ToolLoop
  import opened ToolLoopProofs

  /** `_ToolResourceLimitState`: per-run requested-call counters. */
  class ToolResourceLimitState {
    const limits: Option<Limits>
    var totalRequested: nat
    var roundRequested: map<nat, nat>
    var toolRequested: map<string, nat>

    constructor FromSnapshot(limits: Option<Limits>, c: Counters)
      ensures this.limits == limits && Snapshot() == c
    {
      this.limits := limits;
      totalRequested, roundRequested, toolRequested := c.total, c.perRound, c.perTool;
    }

    function Snapshot(): Counters
      reads this
    {
      Counters(totalRequested, roundRequested, toolRequested)
    }

    /** Counts the call, then reports the first limit the new counts exceed. */
    method RecordRequested(call: ToolCall, round: nat) returns (limit: Option<string>)
      modifies this
      ensures Snapshot() == Charge(old(Snapshot()), call, round)
      ensures limit == ExceededLimit(limits, Snapshot(), call, round)
    {
      totalRequested := totalRequested + 1;
      var roundCount := CountOf(roundRequested, round) + 1;
      roundRequested := roundRequested[round := roundCount];
      var toolCount := CountOf(toolRequested, call.name) + 1;
      toolRequested := toolRequested[call.name := toolCount];
      if limits.None? { return None; }
      if Over(limits.value.perLoop, totalRequested) { return Some("max_tool_calls_per_loop"); }
      if Over(limits.value.perRound, roundCount) { return Some("max_tool_calls_per_round"); }
      if Over(ToolLimit(limits.value, call.name), toolCount) { return Some("max_calls_per_tool"); }
      return None;
    }
  }

  /** Where a group stands after its first `i` calls: what is done, then the rest of the group. */
  ghost predicate GroupAt(whole: GroupRun, os: seq<Outcome>, ex: seq<Executed>, rest: GroupRun) {
    whole.outcomes == os + rest.outcomes && whole.executed == ex + rest.executed && whole.counters == rest.counters
  }

  lemma GroupEmpty(w: World, cfg: Config, allowed: set<string>, calls: seq<ToolCall>, c: Counters, round: nat, stop: bool)
    ensures Group(w, cfg, allowed, calls[|calls|..], c, round, stop) == GroupRun([], c, [])
  {
  }

  lemma GroupStep(w: World, cfg: Config, allowed: set<string>, calls: seq<ToolCall>, i: nat, c: Counters, round: nat, stop: bool)
    requires i < |calls|
    ensures var g, d := Group(w, cfg, allowed, calls[i..], c, round, stop), Charge(c, calls[i], round);
            var next := Group(w, cfg, allowed, calls[i + 1..], d, round, stop);
            var refusal := Refusal(cfg, calls[i], d, round);
            var o := if refusal.Some? then refusal.value else Execute(w, cfg.limits, allowed, calls[i]);
            var ran := if refusal.Some? then [] else [Executed(round, calls[i])];
            g == if !o.success && stop then GroupRun([o], d, ran) else GroupRun([o] + next.outcomes, next.counters, ran + next.executed)
  {
    assert calls[i..][0] == calls[i] && calls[i..][1..] == calls[i + 1..];
  }

  lemma PreflightEmpty(cfg: Config, calls: seq<ToolCall>, c: Counters, round: nat)
    ensures Preflight(cfg, calls[|calls|..], c, round) == PreflightRun([], c)
  {
  }

  lemma PreflightStep(cfg: Config, calls: seq<ToolCall>, i: nat, c: Counters, round: nat)
    requires i < |calls|
    ensures var d := Charge(c, calls[i], round);
            var next := Preflight(cfg, calls[i + 1..], d, round);
            Preflight(cfg, calls[i..], c, round) == PreflightRun([Refusal(cfg, calls[i], d, round)] + next.outcomes, next.counters)
  {
    assert calls[i..][0] == calls[i] && calls[i..][1..] == calls[i + 1..];
  }

  /** The slot of a call before any tool runs: refused, denied, or still None. */
  function Waiting(call: ToolCall, pre: Option<Outcome>, ds: map<string, bool>): Option<Outcome>
    requires pre.None? ==> call.id in ds
  {
    if pre.Some? then pre else if ds[call.id] then None else Some(ApprovalDenied(call))
  }

  lemma ApprovedStep(w: World, limits: Option<Limits>, allowed: set<string>, calls: seq<ToolCall>, i: nat, pre: seq<Option<Outcome>>,
                     ds: map<string, bool>, round: nat, stop: bool)
    requires i < |calls| == |pre| && forall k | 0 <= k < |calls| :: pre[k].None? ==> calls[k].id in ds
    ensures var waiting := Waiting(calls[i], pre[i], ds);
            var o := if waiting.None? then Some(Execute(w, limits, allowed, calls[i])) else waiting;
            Approved(w, limits, allowed, calls[i..], pre[i..], ds, round, stop, false).outcomes ==
            [o] + Approved(w, limits, allowed, calls[i + 1..], pre[i + 1..], ds, round, stop, waiting.None? && stop && !o.value.success).outcomes
  {
    assert calls[i..][0] == calls[i] && calls[i..][1..] == calls[i + 1..] && pre[i..][0] == pre[i] && pre[i..][1..] == pre[i + 1..];
  }

  /** Filling slot `i` of a list whose first `i` slots are done. */
  lemma SlotFilled(done: seq<Option<Outcome>>, waiting: seq<Option<Outcome>>, i: nat, o: Option<Outcome>)
    requires i == |done| < |waiting|
    ensures (done + waiting[i..])[i := o] == done + ([o] + waiting[i + 1..]) == (done + [o]) + waiting[i + 1..]
    ensures o == waiting[i] ==> (done + waiting[i..]) == (done + [o]) + waiting[i + 1..]
    ensures forall rest: seq<Option<Outcome>> :: done + ([o] + rest) == (done + [o]) + rest
  {
    assert waiting[i..] == [waiting[i]] + waiting[i + 1..];
  }

  class AgentToolLoop {
    const world: World
    const loopId: string
    var consumed: set<string>

    constructor (world: World, loopId: string)
      ensures this.world == world && this.loopId == loopId && consumed == {}
    {
      this.world, this.loopId, consumed := world, loopId, {};
    }

    /** Screens one requested call: its refusal, or None when it may run. */
    method Screen(cfg: Config, call: ToolCall, round: nat, st: ToolResourceLimitState) returns (refusal: Option<Outcome>)
      requires st.limits == cfg.limits
      modifies st
      ensures st.Snapshot() == Charge(old(st.Snapshot()), call, round)
      ensures refusal == Refusal(cfg, call, st.Snapshot(), round)
    {
      var limit := st.RecordRequested(call, round);
      if !Permits(cfg.policy, call.name) { return Some(PermissionDenied(call)); }
      if limit.Some? { return Some(ResourceDenied(call, limit.value)); }
      return None;
    }

    method ExecuteToolGroup(cfg: Config, allowed: set<string>, calls: seq<ToolCall>, round: nat, stop: bool, st: ToolResourceLimitState)
        returns (outcomes: seq<Outcome>, ghost executed: seq<Executed>)
      requires st.limits == cfg.limits
      modifies st
      ensures GroupRun(outcomes, st.Snapshot(), executed) == Group(world, cfg, allowed, calls, old(st.Snapshot()), round, stop)
    {
      hide Group, Charge, Refusal, Execute;
      ghost var whole := Group(world, cfg, allowed, calls, st.Snapshot(), round, stop);
      outcomes, executed := [], [];
      assert calls[0..] == calls;
      for i := 0 to |calls|
        invariant GroupAt(whole, outcomes, executed, Group(world, cfg, allowed, calls[i..], st.Snapshot(), round, stop))
      {
        GroupStep(world, cfg, allowed, calls, i, st.Snapshot(), round, stop);
        ghost var os, ex := outcomes, executed;
        var o := Screen(cfg, calls[i], round, st);
        if o.None? {
          o := Some(Execute(world, cfg.limits, allowed, calls[i]));
          executed := executed + [Executed(round, calls[i])];
        }
        outcomes := outcomes + [o.value];
        if !o.value.success && stop { return; }
        ghost var next := Group(world, cfg, allowed, calls[i + 1..], st.Snapshot(), round, stop);
        assert os + ([o.value] + next.outcomes) == outcomes + next.outcomes;
      }
      GroupEmpty(world, cfg, allowed, calls, st.Snapshot(), round, stop);
    }

    /** Charges a group in order; refused calls get their outcome, the others stay None. */
    method PreflightGroup(cfg: Config, calls: seq<ToolCall>, round: nat, st: ToolResourceLimitState) returns (pre: seq<Option<Outcome>>)
      requires st.limits == cfg.limits
      modifies st
      ensures PreflightRun(pre, st.Snapshot()) == Preflight(cfg, calls, old(st.Snapshot()), round)
    {
      hide Preflight, Charge, Refusal;
      ghost var whole := Preflight(cfg, calls, st.Snapshot(), round);
      pre := [];
      assert calls[0..] == calls;
      for i := 0 to |calls|
        invariant |pre| == i
        invariant whole.outcomes == pre + Preflight(cfg, calls[i..], st.Snapshot(), round).outcomes
        invariant whole.counters == Preflight(cfg, calls[i..], st.Snapshot(), round).counters
      {
        PreflightStep(cfg, calls, i, st.Snapshot(), round);
        ghost var os := pre;
        var o := Screen(cfg, calls[i], round, st);
        pre := pre + [o];
        ghost var next := Preflight(cfg, calls[i + 1..], st.Snapshot(), round);
        assert os + ([o] + next.outcomes) == pre + next.outcomes;
      }
      PreflightEmpty(cfg, calls, st.Snapshot(), round);
    }

    /** Runs the given slots in any completion order and fills their outcomes in. */
    method RunConcurrently(limits: Option<Limits>, allowed: set<string>, calls: seq<ToolCall>, slots: set<nat>, start: seq<Option<Outcome>>)
        returns (outcomes: seq<Option<Outcome>>)
      requires |start| == |calls| && forall i | i in slots :: i < |calls|
      ensures |outcomes| == |calls|
      ensures forall i | 0 <= i < |calls| :: outcomes[i] == if i in slots then Some(Execute(world, limits, allowed, calls[i])) else start[i]
    {
      outcomes := start;
      var pending := slots;
      while pending != {}
        invariant pending <= slots && |outcomes| == |calls|
        invariant forall i | 0 <= i < |calls| ::
            outcomes[i] == if i in slots && i !in pending then Some(Execute(world, limits, allowed, calls[i])) else start[i]
        decreases pending
      {
        var i :| i in pending;
        outcomes := outcomes[i := Some(Execute(world, limits, allowed, calls[i]))];
        pending := pending - {i};
      }
    }

    /**
     The parallel group: every call is charged in order, then the permitted calls
     complete in an arbitrary order. Same outcomes and counters as the sequential
     group that does not stop on errors.
     */
    method ExecuteToolGroupParallel(cfg: Config, allowed: set<string>, calls: seq<ToolCall>, round: nat, st: ToolResourceLimitState)
        returns (outcomes: seq<Option<Outcome>>)
      requires st.limits == cfg.limits
      modifies st
      ensures var g := Group(world, cfg, allowed, calls, old(st.Snapshot()), round, false);
              && st.Snapshot() == g.counters && AllRefused(outcomes) && Present(outcomes) == g.outcomes
    {
      ghost var c := st.Snapshot();
      var pre := PreflightGroup(cfg, calls, round, st);
      var slots := set i: nat | i < |calls| && pre[i].None?;
      outcomes := RunConcurrently(cfg.limits, allowed, calls, slots, pre);
      FilledIsGroup(world, cfg, allowed, calls, c, round, outcomes);
    }

    /** Finishes an approved group, sequentially or concurrently. */
    method ExecuteApprovedToolGroup(limits: Option<Limits>, allowed: set<string>, calls: seq<ToolCall>, pre: seq<Option<Outcome>>,
                                    ds: map<string, bool>, ghost round: nat, effective: Mode, stopOnToolError: bool)
        returns (outcomes: seq<Option<Outcome>>)
      requires |calls| == |pre| && forall i | 0 <= i < |calls| :: pre[i].None? ==> calls[i].id in ds
      ensures outcomes == Approved(world, limits, allowed, calls, pre, ds, round, stopOnToolError && effective == Sequential, false).outcomes
    {
      hide Approved, Execute;
      ghost var stop := stopOnToolError && effective == Sequential;
      outcomes := [];
      var slots: set<nat> := {};
      for i := 0 to |calls|
        invariant |outcomes| == i && forall k | k in slots :: k < i
        invariant forall k | 0 <= k < i :: outcomes[k] == Waiting(calls[k], pre[k], ds) && (k in slots <==> outcomes[k].None?)
      {
        if pre[i].None? && !ds[calls[i].id] {
          outcomes := outcomes + [Some(ApprovalDenied(calls[i]))];
        } else {
          outcomes := outcomes + [pre[i]];
          if pre[i].None? { slots := slots + {i}; }
        }
      }
      if effective == Parallel {
        outcomes := RunConcurrently(limits, allowed, calls, slots, outcomes);
        ApprovedAt(world, limits, allowed, calls, pre, ds, round, outcomes);
      } else {
        outcomes := RunInOrder(limits, allowed, calls, pre, ds, round, slots, outcomes, stopOnToolError);
      }
    }

    method RunInOrder(limits: Option<Limits>, allowed: set<string>, calls: seq<ToolCall>, ghost pre: seq<Option<Outcome>>,
                      ghost ds: map<string, bool>, ghost round: nat, slots: set<nat>, waiting: seq<Option<Outcome>>, stop: bool)
        returns (outcomes: seq<Option<Outcome>>)
      requires |calls| == |pre| == |waiting| && forall k | 0 <= k < |calls| :: pre[k].None? ==> calls[k].id in ds
      requires forall k | 0 <= k < |calls| :: waiting[k] == Waiting(calls[k], pre[k], ds) && (k in slots <==> waiting[k].None?)
      ensures outcomes == Approved(world, limits, allowed, calls, pre, ds, round, stop, false).outcomes
    {
      hide Approved, Execute, Waiting;
      outcomes := waiting;
      ghost var whole := Approved(world, limits, allowed, calls, pre, ds, round, stop, false).outcomes;
      ghost var done: seq<Option<Outcome>> := [];
      assert calls[0..] == calls && pre[0..] == pre && [] + waiting[0..] == waiting && [] + whole == whole;
      for i := 0 to |calls|
        invariant |done| == i && outcomes == done + waiting[i..]
        invariant whole == done + Approved(world, limits, allowed, calls[i..], pre[i..], ds, round, stop, false).outcomes
      {
        ApprovedStep(world, limits, allowed, calls, i, pre, ds, round, stop);
        ghost var o := waiting[i];
        if i in slots {
          var ran := Execute(world, limits, allowed, calls[i]);
          o := Some(ran);
          SlotFilled(done, waiting, i, o);
          outcomes := outcomes[i := Some(ran)];
          if !ran.success && stop {
            StoppedRest(world, limits, allowed, calls[i + 1..], pre[i + 1..], ds, round, stop, waiting[i + 1..]);
            return;
          }
        } else {
          SlotFilled(done, waiting, i, o);
        }
        done := done + [o];
      }
      assert calls[|calls|..] == [] && waiting[|calls|..] == [];
    }

    /** A group without approval, in the mode its calls allow. */
    method RunPlainGroup(cfg: Config, allowed: set<string>, calls: seq<ToolCall>, round: nat, st: ToolResourceLimitState) returns (os: seq<Outcome>)
      requires st.limits == cfg.limits
      modifies st
      ensures var g := PlainGroup(world, cfg, allowed, calls, old(st.Snapshot()), round);
              os == g.outcomes && st.Snapshot() == g.counters && |os| <= |calls|
    {
      hide Group, Preflight;
      if EffectiveMode(world, cfg.mode, PermittedCalls(cfg, calls)) == Parallel {
        var slots := ExecuteToolGroupParallel(cfg, allowed, calls, round, st);
        os := Present(slots);
      } else {
        ghost var ran;
        os, ran := ExecuteToolGroup(cfg, allowed, calls, round, cfg.stopOnToolError, st);
      }
    }

    /** `run` and the rounds after a resumed one: a bounded loop over mutable history, steps and results. */
    method RunRounds(opts: LlmOptions, cfg: Config, defs: seq<ToolDefinition>, allowed: set<string>, first: nat,
                     history0: seq<Message>, counters: Counters, steps0: seq<Step>, results0: seq<ToolResult>,
                     ghost requests0: seq<seq<Message>>, ghost executed0: seq<Executed>) returns (result: RunResult)
      ensures result == Loop(world, loopId, opts, cfg, defs, allowed,
                             State(history0, counters, steps0, results0, requests0, executed0), first).result
    {
      hide ApprovalRound, PlainGroup, Preflight, MakeCheckpoint, FirstFailure, Present, Results, ResultMessages, Charge;
      var history, steps, results := history0, steps0, results0;
      var limitState := new ToolResourceLimitState.FromSnapshot(cfg.limits, counters);
      ghost var start := State(history0, counters, steps0, results0, requests0, executed0);
      ghost var requests, executed := requests0, executed0;
      var i := first;
      while i < cfg.maxSteps
        invariant fresh(limitState) && limitState.limits == cfg.limits
        invariant Loop(world, loopId, opts, cfg, defs, allowed, start, first)
               == Loop(world, loopId, opts, cfg, defs, allowed, State(history, limitState.Snapshot(), steps, results, requests, executed), i)
        decreases cfg.maxSteps - i
      {
        ghost var before := State(history, limitState.Snapshot(), steps, results, requests, executed);
        requests := requests + [history];
        var reply := world.llm(opts, defs, history);
        if reply.LlmRaised? {
          steps := steps + [LlmErrorStep(i, reply.errorType, reply.category, world.route(opts))];
          return RunResult(false, LlmFailed, None, if cfg.includeSteps then steps else [], [], [], None, None, results);
        }
        var r := reply.response;
        steps := steps + [LlmStep(i, r)];
        if r.toolCalls == [] {
          return RunResult(true, Completed, Some(r), if cfg.includeSteps then steps else [], [], [], None, None, results);
        }
        var os: seq<Outcome>;
        var logged := r.toolCalls;
        if cfg.requireApproval {
          ghost var mid := State(history, limitState.Snapshot(), steps, results, requests, executed);
          history := history + [CallsMessage(r)];
          var pre := PreflightGroup(cfg, r.toolCalls, i, limitState);
          ApprovalRoundIs(world, loopId, cfg, defs, allowed, mid, i, r);
          if exists o | o in pre :: o.None? {
            var st1 := State(history, limitState.Snapshot(), steps, results, [], []);
            var paused := Pause(world, loopId, cfg, defs, allowed, st1, i, r, PreflightRun(pre, limitState.Snapshot()));
            PauseIgnoresTrace(world, loopId, cfg, defs, allowed, st1, mid.(history := history), i, r, PreflightRun(pre, limitState.Snapshot()));
            return paused.result;
          }
          os := Present(pre);
        } else {
          if i + 1 >= cfg.maxSteps {
            return RunResult(false, MaxStepsExceeded, None, if cfg.includeSteps then steps else [], r.toolCalls, [], None, None, results);
          }
          history := history + [CallsMessage(r)];
          ghost var g := PlainGroup(world, cfg, allowed, r.toolCalls, limitState.Snapshot(), i);
          os := RunPlainGroup(cfg, allowed, r.toolCalls, i, limitState);
          logged := r.toolCalls[..|os|];
          executed := executed + g.executed;
        }
        ghost var mid := State(history, limitState.Snapshot(), steps, results, requests, executed);
        assert Round(world, loopId, opts, cfg, defs, allowed, before, i) == CloseRound(cfg, mid, i, r, logged, os);
        results := results + Results(os);
        steps := steps + [ToolStep(i, r, logged, os)];
        if FirstFailure(os).Some? && cfg.stopOnToolError {
          return RunResult(false, ToolFailed, None, if cfg.includeSteps then steps else [], [], [], None, None, results);
        }
        history := history + ResultMessages(os);
        i := i + 1;
      }
      return RunResult(false, MaxStepsExceeded, None, if cfg.includeSteps then steps else [], [], [], None, None, results);
    }

    method Run(messages: seq<Message>, defs: seq<ToolDefinition>, opts: LlmOptions, cfg: Config) returns (result: RunResult)
      ensures result == Loop(world, loopId, opts, cfg, defs, set d | d in defs :: d.name, Start(messages), 0).result
    {
      result := RunRounds(opts, cfg, defs, set d | d in defs :: d.name, 0, messages, Counters(0, map[], map[]), [], [], [], []);
    }

    /** `resume`: None when it raises. A full, accepted submission consumes the checkpoint, even one that breaks afterwards. */
    method Resume(cp: Checkpoint, ds: map<string, bool>, ghost before: State) returns (result: Option<RunResult>)
      modifies this
      ensures match ToolLoop.Resume(world, loopId, old(consumed), cp, ds, before)
              case Rejected(_) => result == None && consumed == old(consumed)
              case StillPaused(r) => result == Some(r) && consumed == old(consumed)
              case Resumed(run) => result == Some(run.result) && consumed == old(consumed) + {cp.id}
              case Broken => result == None && consumed == old(consumed) + {cp.id}
    {
      hide Continued, CallsWithIds, ToolsUnchanged;
      if cp.version != 1 || (cp.loopId != loopId && !cp.persistent) || cp.id in consumed || !(ds.Keys <= PendingIds(cp)) { return None; }
      if ds.Keys != PendingIds(cp) {
        return Some(RunResult(false, ApprovalRequired, None, if cp.config.includeSteps then cp.steps else [],
                              CallsWithIds(cp.response.toolCalls, PendingIds(cp)), cp.pending, Some(cp), Some(cp.round), cp.results));
      }
      if !ToolsUnchanged(world, cp.definitions) { return None; }
      consumed := consumed + {cp.id};
      result := FinishResumed(cp, ds, before);
    }

    /** The paused round of a consumed checkpoint and the rounds after it; None when it raises. */
    method FinishResumed(cp: Checkpoint, ds: map<string, bool>, ghost before: State) returns (result: Option<RunResult>)
      requires ds.Keys == PendingIds(cp)
      ensures match Continued(world, loopId, cp, ds, before)
              case Resumed(run) => result == Some(run.result)
              case _ => result == None
    {
      hide Approved, Present, PresentCalls, FirstFailure, Results, ResultMessages, Loop, ToolStep;
      var cfg, calls := cp.config, cp.response.toolCalls;
      if cp.round >= cfg.maxSteps {
        return Some(RunResult(false, MaxStepsExceeded, None, if cfg.includeSteps then cp.steps else [], [], [], None, None, cp.results));
      }
      if calls == [] {
        return Some(RunResult(true, Completed, Some(cp.response), if cfg.includeSteps then cp.steps else [], [], [], None, None, cp.results));
      }
      if !Decided(cp) { return None; }
      var pre, extra := cp.preflight[..|calls|], cp.preflight[|calls|..];
      var slots := ExecuteApprovedToolGroup(cfg.limits, cp.allowedNames, calls, pre, ds, cp.round, cp.effective, cfg.stopOnToolError);
      assert Consistent(cp) ==> pre == cp.preflight && slots + extra == slots;
      var os := Present(slots + extra);
      var results := cp.results + Results(os);
      var steps := cp.steps + [ToolStep(cp.round, cp.response, PresentCalls(calls, slots), os)];
      if FirstFailure(os).Some? && cfg.stopOnToolError {
        return Some(RunResult(false, ToolFailed, None, if cfg.includeSteps then steps else [], [], [], None, None, results));
      }
      ghost var a := Approved(world, cfg.limits, cp.allowedNames, calls, pre, ds, cp.round, cfg.stopOnToolError && cp.effective == Sequential, false);
      var r := RunRounds(DefaultOptions, cfg, cp.definitions, cp.allowedNames, cp.round + 1, cp.history + ResultMessages(os), cp.counters,
                         steps, results, before.requests, before.executed + a.executed);
      return Some(r);
    }
  }

  /** What a pause returns does not depend on the recorded requests and executed calls. */
  lemma PauseIgnoresTrace(w: World, loopId: string, cfg: Config, defs: seq<ToolDefinition>, allowed: set<string>, a: State, b: State, i: nat, r: Response, p: PreflightRun)
    requires |r.toolCalls| == |p.outcomes| && a.history == b.history && a.steps == b.steps && a.results == b.results
    ensures Pause(w, loopId, cfg, defs, allowed, a, i, r, p).result == Pause(w, loopId, cfg, defs, allowed, b, i, r, p).result
  {
  }

  /** Slots filled pointwise are the outcomes of the group that never stops. */
  lemma {:induction false} FilledIsGroup(w: World, cfg: Config, allowed: set<string>, calls: seq<ToolCall>, c: Counters, round: nat, filled: seq<Option<Outcome>>)
    requires var pre := Preflight(cfg, calls, c, round).outcomes;
             |filled| == |calls| && forall i | 0 <= i < |calls| ::
               filled[i] == if pre[i].None? then Some(Execute(w, cfg.limits, allowed, calls[i])) else pre[i]
    ensures var g := Group(w, cfg, allowed, calls, c, round, false);
            Preflight(cfg, calls, c, round).counters == g.counters && AllRefused(filled) && Present(filled) == g.outcomes
    decreases |calls|
  {
    if calls != [] {
      var d := Charge(c, calls[0], round);
      var pre, rest := Preflight(cfg, calls, c, round).outcomes, Preflight(cfg, calls[1..], d, round).outcomes;
      assert pre[1..] == rest;
      forall i | 0 <= i < |calls| - 1
        ensures filled[1..][i] == if rest[i].None? then Some(Execute(w, cfg.limits, allowed, calls[1..][i])) else rest[i]
      {
        assert pre[i + 1] == rest[i];
      }
      FilledIsGroup(w, cfg, allowed, calls[1..], d, round, filled[1..]);
      assert filled == [filled[0]] + filled[1..];
    }
  }

  /** Slots filled pointwise are the outcomes of an approved group that never stops. */
  lemma {:induction false} ApprovedAt(w: World, limits: Option<Limits>, allowed: set<string>, calls: seq<ToolCall>, pre: seq<Option<Outcome>>,
                                      ds: map<string, bool>, round: nat, filled: seq<Option<Outcome>>)
    requires |calls| == |pre| == |filled| && forall i | 0 <= i < |calls| :: pre[i].None? ==> calls[i].id in ds
    requires forall i | 0 <= i < |calls| ::
               filled[i] == if Waiting(calls[i], pre[i], ds).None? then Some(Execute(w, limits, allowed, calls[i])) else Waiting(calls[i], pre[i], ds)
    ensures filled == Approved(w, limits, allowed, calls, pre, ds, round, false, false).outcomes
    decreases |calls|
  {
    if calls != [] {
      ApprovedAt(w, limits, allowed, calls[1..], pre[1..], ds, round, filled[1..]);
      assert filled == [filled[0]] + filled[1..];
    }
  }

  /** Once stopped, approved calls stay None and denials stand. */
  lemma {:induction false} StoppedRest(w: World, limits: Option<Limits>, allowed: set<string>, calls: seq<ToolCall>, pre: seq<Option<Outcome>>,
                                       ds: map<string, bool>, round: nat, stop: bool, denied: seq<Option<Outcome>>)
    requires |calls| == |pre| == |denied| && forall i | 0 <= i < |calls| :: pre[i].None? ==> calls[i].id in ds
    requires forall i | 0 <= i < |calls| :: denied[i] == Waiting(calls[i], pre[i], ds)
    ensures denied == Approved(w, limits, allowed, calls, pre, ds, round, stop, true).outcomes
    decreases |calls|
  {
    if calls != [] {
      StoppedRest(w, limits, allowed, calls[1..], pre[1..], ds, round, stop, denied[1..]);
      assert denied == [denied[0]] + denied[1..];
    }
  }
}
