/**
 The bounded LLM -> tool -> LLM loop with permissions, requested-call counters,
 sequential and parallel groups, and an approval pause resumed from a checkpoint.

 The LLM is a function of its options, the tools it is offered and the history;
 a tool run is a function of the call. `State` also records what the theorems
 talk about but the program does not return: the requests sent and the calls
 that reached a tool.
 */
module ToolLoop {
  import opened Prelude
  import opened LlmTypes

  datatype Mode = Sequential | Parallel

  datatype Policy = Policy(allowed: set<string>, denied: set<string>, defaultAllow: bool)

  datatype Limits = Limits(perLoop: Option<nat>, perRound: Option<nat>, perTool: Option<map<string, nat>>, timeoutMs: Option<nat>)

  datatype Config = Config(maxSteps: nat, requireApproval: bool, stopOnToolError: bool, mode: Mode,
                           includeSteps: bool, policy: Option<Policy>, limits: Option<Limits>)

  datatype Outcome = Outcome(llmResult: ToolResult, success: bool, errorType: Option<string>, errorCategory: Option<string>,
                             denied: bool, resourceDenied: bool, timedOut: bool, limitName: Option<string>, limitValue: Option<nat>)

  datatype Step = Step(index: nat, kind: string, response: Option<Response>, toolCalls: seq<ToolCall>, toolResults: seq<ToolResult>,
                       success: bool, errorType: Option<string>, errorCategory: Option<string>, provider: Option<string>, model: Option<string>)

  datatype PendingApproval = PendingApproval(callId: string, toolName: string, round: nat, callIndex: nat, requested: Mode, effective: Mode)

  /** Requested-call counters; absent keys count as zero. */
  datatype Counters = Counters(total: nat, perRound: map<nat, nat>, perTool: map<string, nat>)

  datatype Checkpoint = Checkpoint(
    version: nat, id: string, loopId: string, round: nat, history: seq<Message>, response: Response,
    definitions: seq<ToolDefinition>, allowedNames: set<string>, config: Config, steps: seq<Step>, results: seq<ToolResult>,
    pending: seq<PendingApproval>, preflight: seq<Option<Outcome>>, requested: Mode, effective: Mode, fallback: Option<string>,
    safeCount: nat, unsafeCount: nat, counters: Counters, provider: string, model: string, persistent: bool, createdAt: Option<string>)

  datatype Reason = Completed | LlmFailed | ToolFailed | MaxStepsExceeded | ApprovalRequired

  datatype RunResult = RunResult(completed: bool, reason: Reason, final: Option<Response>, steps: seq<Step>, pendingCalls: seq<ToolCall>,
                                 pending: seq<PendingApproval>, checkpoint: Option<Checkpoint>, currentRound: Option<nat>, results: seq<ToolResult>)

  /** A call that reached `_execute_tool_call`, and the round it belongs to. */
  datatype Executed = Executed(round: nat, call: ToolCall)

  datatype State = State(history: seq<Message>, counters: Counters, steps: seq<Step>, results: seq<ToolResult>,
                         requests: seq<seq<Message>>, executed: seq<Executed>)

  datatype Run = Run(result: RunResult, state: State)

  // ----- the outside world -----------------------------------------------

  datatype LlmOptions = LlmOptions(model: Option<string>, temperature: real, metadata: Option<Json>, provider: Option<string>,
                                   timeout: Option<real>, toolChoice: Option<Json>)

  /** The options `resume` runs with: it passes none of the caller's. */
  const DefaultOptions: LlmOptions := LlmOptions(None, 0.0, None, None, None, None)

  datatype LlmReply = Reply(response: Response) | LlmRaised(errorType: string, category: string)

  datatype ToolReply =
    | ToolFinished(success: bool, content: string, error: Option<string>, errorType: Option<string>, errorCategory: Option<string>)
    | ToolRaised(exceptionType: string)

  datatype Registered = Registered(schema: map<string, Json>, description: string, parallelSafe: bool)

  datatype Route = Route(provider: Option<string>, model: Option<string>)

  datatype World = World(
    llm: (LlmOptions, seq<ToolDefinition>, seq<Message>) -> LlmReply,
    runTool: ToolCall -> ToolReply,
    registry: map<string, Registered>,
    route: LlmOptions -> Route,
    uuid: nat -> string,
    clock: nat -> string)

  // ----- permissions and limits ------------------------------------------

  /** Deny rules win; then the default; then the allow list. */
  predicate Permits(p: Option<Policy>, name: string) {
    p.None? || (name !in p.value.denied && (p.value.defaultAllow || name in p.value.allowed))
  }

  function CountOf<K(==)>(m: map<K, nat>, k: K): nat {
    if k in m then m[k] else 0
  }

  /** `record_requested`: every requested call is counted, allowed or not. */
  function Charge(c: Counters, call: ToolCall, round: nat): Counters {
    Counters(c.total + 1, c.perRound[round := CountOf(c.perRound, round) + 1], c.perTool[call.name := CountOf(c.perTool, call.name) + 1])
  }

  predicate Over(limit: Option<nat>, count: nat) {
    limit.Some? && count > limit.value
  }

  function ToolLimit(l: Limits, name: string): Option<nat> {
    if l.perTool.Some? && name in l.perTool.value then Some(l.perTool.value[name]) else None
  }

  /** The first limit that the charged counters exceed, in the order the code tests them. */
  function ExceededLimit(limits: Option<Limits>, c: Counters, call: ToolCall, round: nat): Option<string> {
    if limits.None? then None
    else if Over(limits.value.perLoop, c.total) then Some("max_tool_calls_per_loop")
    else if Over(limits.value.perRound, CountOf(c.perRound, round)) then Some("max_tool_calls_per_round")
    else if Over(ToolLimit(limits.value, call.name), CountOf(c.perTool, call.name)) then Some("max_calls_per_tool")
    else None
  }

  // ----- outcomes --------------------------------------------------------

  function Denied(call: ToolCall, error: string, errorType: string, category: string, resource: bool, limitName: Option<string>): Outcome {
    Outcome(ToolResult(call.id, call.name, "", false, Some(error)), false, Some(errorType), Some(category), true, resource, false, limitName, None)
  }

  function PolicyMessage(name: string): string {
    "Tool call denied by permission policy: " + name
  }

  function LimitMessage(name: string, limitName: string): string {
    "Tool call denied by resource limits: " + limitName + " exceeded"
    + if limitName == "max_calls_per_tool" then " for " + name else ""
  }

  function ApprovalMessage(name: string): string {
    "Tool call denied by approval: " + name
  }

  function PermissionDenied(call: ToolCall): Outcome {
    Denied(call, PolicyMessage(call.name), "ToolPermissionDeniedError", "permission_policy", false, None)
  }

  function ResourceDenied(call: ToolCall, limitName: string): Outcome {
    Denied(call, LimitMessage(call.name, limitName), "ToolResourceLimitExceededError", "resource_limits", true, Some(limitName))
  }

  function ApprovalDenied(call: ToolCall): Outcome {
    Denied(call, ApprovalMessage(call.name), "ToolApprovalDeniedError", "approval_denied", false, None)
  }

  function Failed(call: ToolCall, errorType: string, category: string): Outcome {
    Outcome(ToolResult(call.id, call.name, "", false, Some("Tool execution rejected")), false, Some(errorType), Some(category),
            false, false, false, None, None)
  }

  /** `_execute_tool_call`: registered tools outside the offered set are refused, everything else runs. */
  function Execute(w: World, limits: Option<Limits>, allowed: set<string>, call: ToolCall): Outcome {
    if call.name !in allowed && call.name in w.registry then Failed(call, "ToolNotAllowedError", "not_allowed")
    else
      match w.runTool(call)
      case ToolRaised(e) => Failed(call, e, "execution_error")
      case ToolFinished(success, content, error, errorType, category) =>
        var timedOut := errorType == Some("ToolTimeoutError") && limits.Some? && limits.value.timeoutMs.Some?;
        Outcome(ToolResult(call.id, call.name, content, success, error), success, errorType, category, false, false, timedOut,
                if timedOut then Some("tool_timeout_ms") else None, if timedOut then limits.value.timeoutMs else None)
  }

  /** The refusal of a charged call, or None when it may run. */
  function Refusal(cfg: Config, call: ToolCall, charged: Counters, round: nat): Option<Outcome> {
    if !Permits(cfg.policy, call.name) then Some(PermissionDenied(call))
    else
      var limit := ExceededLimit(cfg.limits, charged, call, round);
      if limit.Some? then Some(ResourceDenied(call, limit.value)) else None
  }

  // ----- tool groups -----------------------------------------------------

  datatype GroupRun = GroupRun(outcomes: seq<Outcome>, counters: Counters, executed: seq<Executed>)

  /**
   A group run one call after the other; `stop` breaks after the first failure.
   The parallel group is the case `stop == false` (see `AgentToolLoop.ExecuteToolGroupParallel`).
   */
  function Group(w: World, cfg: Config, allowed: set<string>, calls: seq<ToolCall>, c: Counters, round: nat, stop: bool): (g: GroupRun)
    ensures |g.outcomes| <= |calls|
    decreases |calls|
  {
    if calls == [] then GroupRun([], c, [])
    else
      var charged := Charge(c, calls[0], round);
      var refusal := Refusal(cfg, calls[0], charged, round);
      var o := if refusal.Some? then refusal.value else Execute(w, cfg.limits, allowed, calls[0]);
      var ran := if refusal.Some? then [] else [Executed(round, calls[0])];
      if !o.success && stop then GroupRun([o], charged, ran)
      else
        var rest := Group(w, cfg, allowed, calls[1..], charged, round, stop);
        GroupRun([o] + rest.outcomes, rest.counters, ran + rest.executed)
  }

  datatype PreflightRun = PreflightRun(outcomes: seq<Option<Outcome>>, counters: Counters)

  /** Charges and screens a group before approval; None marks a call that awaits a decision. */
  function Preflight(cfg: Config, calls: seq<ToolCall>, c: Counters, round: nat): (p: PreflightRun)
    ensures |p.outcomes| == |calls|
    decreases |calls|
  {
    if calls == [] then PreflightRun([], c)
    else
      var charged := Charge(c, calls[0], round);
      var rest := Preflight(cfg, calls[1..], charged, round);
      PreflightRun([Refusal(cfg, calls[0], charged, round)] + rest.outcomes, rest.counters)
  }

  datatype ApprovedRun = ApprovedRun(outcomes: seq<Option<Outcome>>, executed: seq<Executed>)

  /** Finishes a preflighted group; after a failure under `stop` the remaining approved calls stay None. */
  function Approved(w: World, limits: Option<Limits>, allowed: set<string>, calls: seq<ToolCall>, preflight: seq<Option<Outcome>>,
                    decisions: map<string, bool>, round: nat, stop: bool, stopped: bool): (a: ApprovedRun)
    requires |calls| == |preflight|
    requires forall i | 0 <= i < |calls| :: preflight[i].None? ==> calls[i].id in decisions
    ensures |a.outcomes| == |calls|
    decreases |calls|
  {
    if calls == [] then ApprovedRun([], [])
    else
      var runs := preflight[0].None? && decisions[calls[0].id] && !stopped;
      var o := if preflight[0].Some? then preflight[0]
               else if !decisions[calls[0].id] then Some(ApprovalDenied(calls[0]))
               else if stopped then None
               else Some(Execute(w, limits, allowed, calls[0]));
      var rest := Approved(w, limits, allowed, calls[1..], preflight[1..], decisions, round, stop,
                           stopped || (runs && stop && !o.value.success));
      ApprovedRun([o] + rest.outcomes, (if runs then [Executed(round, calls[0])] else []) + rest.executed)
  }

  function Present(os: seq<Option<Outcome>>): seq<Outcome> {
    if os == [] then [] else (if os[0].Some? then [os[0].value] else []) + Present(os[1..])
  }

  function PresentCalls(calls: seq<ToolCall>, os: seq<Option<Outcome>>): seq<ToolCall>
    requires |calls| == |os|
  {
    if calls == [] then [] else (if os[0].Some? then [calls[0]] else []) + PresentCalls(calls[1..], os[1..])
  }

  function Results(os: seq<Outcome>): (r: seq<ToolResult>)
    ensures |r| == |os| && forall i | 0 <= i < |os| :: r[i] == os[i].llmResult
  {
    seq(|os|, i requires 0 <= i < |os| => os[i].llmResult)
  }

  function FirstFailure(os: seq<Outcome>): Option<Outcome> {
    if os == [] then None else if !os[0].success then Some(os[0]) else FirstFailure(os[1..])
  }

  /** Effective mode and fallback of a group: parallel only if asked for and every call is parallel-safe. */
  function SafeCount(w: World, calls: seq<ToolCall>): (n: nat)
    ensures n <= |calls|
  {
    if calls == [] then 0
    else (if calls[0].name in w.registry && w.registry[calls[0].name].parallelSafe then 1 else 0) + SafeCount(w, calls[1..])
  }

  function EffectiveMode(w: World, requested: Mode, calls: seq<ToolCall>): Mode {
    if requested == Parallel && SafeCount(w, calls) == |calls| then Parallel else Sequential
  }

  function Fallback(w: World, requested: Mode, calls: seq<ToolCall>): Option<string> {
    if requested == Parallel && SafeCount(w, calls) != |calls| then Some("not_all_tools_parallel_safe") else None
  }

  // ----- messages and steps ----------------------------------------------

  function CallsMessage(r: Response): Message {
    Message("assistant", r.content, CallsMeta(r.toolCalls, r.provider, r.model))
  }

  function ResultMessage(t: ToolResult): Message {
    var content := if t.success then t.content
                   else if t.error.Some? && t.error.value != "" then t.error.value
                   else "Tool execution failed";
    Message("tool", content, ResultMeta(t.callId, t.name, t.success))
  }

  function ResultMessages(os: seq<Outcome>): (r: seq<Message>)
    ensures |r| == |os| && forall i | 0 <= i < |os| :: r[i] == ResultMessage(os[i].llmResult)
  {
    seq(|os|, i requires 0 <= i < |os| => ResultMessage(os[i].llmResult))
  }

  function LlmStep(i: nat, r: Response): Step {
    Step(i, "llm_response", Some(r), r.toolCalls, [], true, None, None, Some(r.provider), Some(r.model))
  }

  function LlmErrorStep(i: nat, errorType: string, category: string, route: Route): Step {
    Step(i, "llm_error", None, [], [], false, Some(errorType), Some(category), route.provider, route.model)
  }

  function PausedStep(i: nat, r: Response): Step {
    Step(i, "approval_required", None, r.toolCalls, [], false, None, None, Some(r.provider), Some(r.model))
  }

  function ToolStep(i: nat, r: Response, calls: seq<ToolCall>, os: seq<Outcome>): Step {
    var f := FirstFailure(os);
    Step(i, "tool_execution", None, calls, Results(os), f.None?, if f.Some? then f.value.errorType else None,
         if f.Some? then f.value.errorCategory else None, Some(r.provider), Some(r.model))
  }

  function Finish(cfg: Config, st: State, completed: bool, reason: Reason, final: Option<Response>, pendingCalls: seq<ToolCall>): Run {
    Run(RunResult(completed, reason, final, if cfg.includeSteps then st.steps else [], pendingCalls, [], None, None, st.results), st)
  }

  /** The state once a group's outcomes are recorded: results and the tool step. */
  function Record(st: State, i: nat, r: Response, calls: seq<ToolCall>, os: seq<Outcome>): State {
    st.(results := st.results + Results(os), steps := st.steps + [ToolStep(i, r, calls, os)])
  }

  predicate StopsAfter(cfg: Config, os: seq<Outcome>) {
    cfg.stopOnToolError && FirstFailure(os).Some?
  }

  // ----- pause -----------------------------------------------------------

  /** The calls of a response that await a decision, with their indices. */
  function Approvable(calls: seq<ToolCall>, preflight: seq<Option<Outcome>>, from: nat): seq<(nat, ToolCall)>
    requires |calls| == |preflight| && from <= |calls|
    decreases |calls| - from
  {
    if from == |calls| then []
    else (if preflight[from].None? then [(from, calls[from])] else []) + Approvable(calls, preflight, from + 1)
  }

  function CallsOf(xs: seq<(nat, ToolCall)>): (r: seq<ToolCall>)
    ensures |r| == |xs|
  {
    seq(|xs|, i requires 0 <= i < |xs| => xs[i].1)
  }

  function PendingOf(xs: seq<(nat, ToolCall)>, round: nat, requested: Mode, effective: Mode): (r: seq<PendingApproval>)
    ensures |r| == |xs| && forall i | 0 <= i < |xs| :: r[i].callId == xs[i].1.id
  {
    seq(|xs|, i requires 0 <= i < |xs| => PendingApproval(xs[i].1.id, xs[i].1.name, round, xs[i].0, requested, effective))
  }

  function MakeCheckpoint(w: World, loopId: string, cfg: Config, defs: seq<ToolDefinition>, allowed: set<string>, st: State, i: nat,
                          r: Response, p: PreflightRun): Checkpoint
    requires |r.toolCalls| == |p.outcomes|
  {
    var xs := Approvable(r.toolCalls, p.outcomes, 0);
    var effective := EffectiveMode(w, cfg.mode, CallsOf(xs));
    Checkpoint(1, w.uuid(i), loopId, i, st.history, r, defs, allowed, cfg, st.steps + [PausedStep(i, r)], st.results,
               PendingOf(xs, i, cfg.mode, effective), p.outcomes, cfg.mode, effective, Fallback(w, cfg.mode, CallsOf(xs)),
               SafeCount(w, CallsOf(xs)), |xs| - SafeCount(w, CallsOf(xs)),
               p.counters, r.provider, r.model, false, Some(w.clock(i)))
  }

  function Pause(w: World, loopId: string, cfg: Config, defs: seq<ToolDefinition>, allowed: set<string>, st: State, i: nat, r: Response,
                 p: PreflightRun): Run
    requires |r.toolCalls| == |p.outcomes|
  {
    var cp := MakeCheckpoint(w, loopId, cfg, defs, allowed, st, i, r, p);
    var st' := st.(steps := cp.steps, counters := p.counters);
    Run(RunResult(false, ApprovalRequired, None, if cfg.includeSteps then cp.steps else [], CallsOf(Approvable(r.toolCalls, p.outcomes, 0)),
                  cp.pending, Some(cp), Some(i), st.results), st')
  }

  predicate AllRefused(p: seq<Option<Outcome>>) {
    forall o | o in p :: o.Some?
  }

  // ----- the loop --------------------------------------------------------

  datatype RoundResult = Ended(run: Run) | Continue(state: State)

  /** Records a finished group: stop on a tool error, or feed the results back to the LLM. */
  function CloseRound(cfg: Config, st: State, i: nat, r: Response, calls: seq<ToolCall>, os: seq<Outcome>): RoundResult {
    var st1 := Record(st, i, r, calls, os);
    if StopsAfter(cfg, os) then Ended(Finish(cfg, st1, false, ToolFailed, None, []))
    else Continue(st1.(history := st1.history + ResultMessages(os)))
  }

  /** A round whose tool calls need approval: pause, unless preflight refused every call. */
  function ApprovalRound(w: World, loopId: string, cfg: Config, defs: seq<ToolDefinition>, allowed: set<string>, st: State, i: nat, r: Response): RoundResult {
    var st1 := st.(history := st.history + [CallsMessage(r)]);
    var p := Preflight(cfg, r.toolCalls, st.counters, i);
    if !AllRefused(p.outcomes) then Ended(Pause(w, loopId, cfg, defs, allowed, st1, i, r, p))
    else CloseRound(cfg, st1.(counters := p.counters), i, r, r.toolCalls, Present(p.outcomes))
  }

  function PlainRound(w: World, cfg: Config, allowed: set<string>, st: State, i: nat, r: Response): RoundResult {
    var g := PlainGroup(w, cfg, allowed, r.toolCalls, st.counters, i);
    CloseRound(cfg, st.(history := st.history + [CallsMessage(r)], counters := g.counters, executed := st.executed + g.executed),
               i, r, r.toolCalls[..|g.outcomes|], g.outcomes)
  }

  /** One round: ask the LLM, then finish, pause, or run its tool calls. */
  function Round(w: World, loopId: string, opts: LlmOptions, cfg: Config, defs: seq<ToolDefinition>, allowed: set<string>, st: State, i: nat): RoundResult {
    var asked := st.(requests := st.requests + [st.history]);
    match w.llm(opts, defs, st.history)
    case LlmRaised(errorType, category) =>
      Ended(Finish(cfg, asked.(steps := st.steps + [LlmErrorStep(i, errorType, category, w.route(opts))]), false, LlmFailed, None, []))
    case Reply(r) =>
      var st1 := asked.(steps := st.steps + [LlmStep(i, r)]);
      if r.toolCalls == [] then Ended(Finish(cfg, st1, true, Completed, Some(r), []))
      else if cfg.requireApproval then ApprovalRound(w, loopId, cfg, defs, allowed, st1, i, r)
      else if i + 1 >= cfg.maxSteps then Ended(Finish(cfg, st1, false, MaxStepsExceeded, None, r.toolCalls))
      else PlainRound(w, cfg, allowed, st1, i, r)
  }

  /** Rounds `i`, `i + 1`, ... of `run`, from a state whose history is about to be sent to the LLM. */
  function Loop(w: World, loopId: string, opts: LlmOptions, cfg: Config, defs: seq<ToolDefinition>, allowed: set<string>, st: State, i: nat): (r: Run)
    ensures r.result.reason == ApprovalRequired <==> r.result.checkpoint.Some?
    ensures r.result.checkpoint.Some? ==>
              r.result.checkpoint.value.round >= i && r.result.checkpoint.value.round < cfg.maxSteps && r.result.checkpoint.value.config == cfg
    decreases cfg.maxSteps - i
  {
    if i >= cfg.maxSteps then Finish(cfg, st, false, MaxStepsExceeded, None, [])
    else
      match Round(w, loopId, opts, cfg, defs, allowed, st, i)
      case Ended(run) => run
      case Continue(st') => Loop(w, loopId, opts, cfg, defs, allowed, st', i + 1)
  }

  function PermittedCalls(cfg: Config, calls: seq<ToolCall>): seq<ToolCall> {
    if calls == [] then [] else (if Permits(cfg.policy, calls[0].name) then [calls[0]] else []) + PermittedCalls(cfg, calls[1..])
  }

  /** A group without approval: parallel groups never stop early. */
  function PlainGroup(w: World, cfg: Config, allowed: set<string>, calls: seq<ToolCall>, c: Counters, i: nat): GroupRun {
    Group(w, cfg, allowed, calls, c, i,
          cfg.stopOnToolError && EffectiveMode(w, cfg.mode, PermittedCalls(cfg, calls)) == Sequential)
  }

  function Start(messages: seq<Message>): State {
    State(messages, Counters(0, map[], map[]), [], [], [], [])
  }

  // ----- resume ----------------------------------------------------------

  function PendingIds(cp: Checkpoint): set<string> {
    set a | a in cp.pending :: a.callId
  }

  /** What every checkpoint made by a pause satisfies. */
  predicate Consistent(cp: Checkpoint) {
    && |cp.preflight| == |cp.response.toolCalls| > 0
    && (forall i | 0 <= i < |cp.preflight| :: cp.preflight[i].None? ==> cp.response.toolCalls[i].id in PendingIds(cp))
    && cp.round < cp.config.maxSteps
  }

  predicate ToolsUnchanged(w: World, defs: seq<ToolDefinition>) {
    forall d | d in defs :: d.name in w.registry && w.registry[d.name].schema == d.schema
  }

  /** The rounds after a full set of decisions; `before` is the state at the pause. */
  function ResumeRounds(w: World, loopId: string, cp: Checkpoint, decisions: map<string, bool>, before: State): (r: Run)
    requires Consistent(cp) && decisions.Keys == PendingIds(cp)
    ensures r.result.reason == ApprovalRequired <==> r.result.checkpoint.Some?
    ensures r.result.checkpoint.Some? ==> cp.round < r.result.checkpoint.value.round < cp.config.maxSteps && r.result.checkpoint.value.config == cp.config
  {
    var cfg := cp.config;
    var calls := cp.response.toolCalls;
    var a := Approved(w, cfg.limits, cp.allowedNames, calls, cp.preflight, decisions, cp.round,
                      cfg.stopOnToolError && cp.effective == Sequential, false);
    var st := State(cp.history, cp.counters, cp.steps, cp.results, before.requests, before.executed + a.executed);
    match CloseRound(cfg, st, cp.round, cp.response, PresentCalls(calls, a.outcomes), Present(a.outcomes))
    case Ended(run) => run
    case Continue(st') => Loop(w, loopId, DefaultOptions, cfg, cp.definitions, cp.allowedNames, st', cp.round + 1)
  }

  /** Why `resume` raises. */
  datatype Rejection = UnsupportedVersion | ForeignLoop | AlreadyConsumed | UnknownDecision | IncompatibleTools

  datatype ResumeReply =
    | Rejected(why: Rejection)
    | Broken
    | StillPaused(result: RunResult)
    | Resumed(run: Run)

  /** The paused round of a checkpoint that can be finished: an outcome or a decision for every call; extra outcomes are kept. */
  predicate Decided(cp: Checkpoint) {
    && |cp.response.toolCalls| <= |cp.preflight|
    && forall i | 0 <= i < |cp.response.toolCalls| :: cp.preflight[i].None? ==> cp.response.toolCalls[i].id in PendingIds(cp)
  }

  /** Resuming a checkpoint no pause makes, a hand-written one say: past its last round, without calls, or with a mismatched preflight. */
  function ResumeOdd(w: World, loopId: string, cp: Checkpoint, decisions: map<string, bool>, before: State): (r: ResumeReply)
    requires decisions.Keys == PendingIds(cp)
    ensures r.Resumed? || r.Broken?
  {
    var cfg, calls := cp.config, cp.response.toolCalls;
    var st := State(cp.history, cp.counters, cp.steps, cp.results, before.requests, before.executed);
    if cp.round >= cfg.maxSteps then Resumed(Finish(cfg, st, false, MaxStepsExceeded, None, []))
    else if calls == [] then Resumed(Finish(cfg, st, true, Completed, Some(cp.response), []))
    else if !Decided(cp) then Broken
    else
      var pre, extra := cp.preflight[..|calls|], cp.preflight[|calls|..];
      var a := Approved(w, cfg.limits, cp.allowedNames, calls, pre, decisions, cp.round, cfg.stopOnToolError && cp.effective == Sequential, false);
      var ran := st.(executed := st.executed + a.executed);
      match CloseRound(cfg, ran, cp.round, cp.response, PresentCalls(calls, a.outcomes), Present(a.outcomes + extra))
      case Ended(run) => Resumed(run)
      case Continue(st') => Resumed(Loop(w, loopId, DefaultOptions, cfg, cp.definitions, cp.allowedNames, st', cp.round + 1))
  }

  /** What follows once the checkpoint is consumed. */
  function Continued(w: World, loopId: string, cp: Checkpoint, decisions: map<string, bool>, before: State): (r: ResumeReply)
    requires decisions.Keys == PendingIds(cp)
    ensures r.Resumed? || r.Broken?
    ensures Consistent(cp) ==> r == Resumed(ResumeRounds(w, loopId, cp, decisions, before))
  {
    if Consistent(cp) then Resumed(ResumeRounds(w, loopId, cp, decisions, before)) else ResumeOdd(w, loopId, cp, decisions, before)
  }

  /** `resume`; `Broken` is an exception after the checkpoint was consumed. */
  function Resume(w: World, loopId: string, consumed: set<string>, cp: Checkpoint, decisions: map<string, bool>, before: State): ResumeReply {
    if cp.version != 1 then Rejected(UnsupportedVersion)
    else if cp.loopId != loopId && !cp.persistent then Rejected(ForeignLoop)
    else if cp.id in consumed then Rejected(AlreadyConsumed)
    else if !(decisions.Keys <= PendingIds(cp)) then Rejected(UnknownDecision)
    else if decisions.Keys != PendingIds(cp) then
      StillPaused(RunResult(false, ApprovalRequired, None, if cp.config.includeSteps then cp.steps else [],
                            CallsWithIds(cp.response.toolCalls, PendingIds(cp)), cp.pending, Some(cp), Some(cp.round), cp.results))
    else if !ToolsUnchanged(w, cp.definitions) then Rejected(IncompatibleTools)
    else Continued(w, loopId, cp, decisions, before)
  }

  function CallsWithIds(calls: seq<ToolCall>, ids: set<string>): seq<ToolCall> {
    if calls == [] then [] else (if calls[0].id in ids then [calls[0]] else []) + CallsWithIds(calls[1..], ids)
  }
}
