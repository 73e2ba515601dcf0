/**
 When a run that pauses for approval every round, and gets every call approved,
 ends like the run without approval: exactly when the latter does not end on its
 last round and the LLM answers later requests alike under the options that
 `resume` falls back to.
 */
module ToolLoopPausing {
  import opened Prelude
  import opened LlmTypes
  import opened ToolLoop
  import opened ToolLoopProofs

  /** The LLM answers a request alike under the caller's options and the default ones. */
  predicate SameAnswer(w: World, opts: LlmOptions, defs: seq<ToolDefinition>, h: seq<Message>) {
    && w.llm(opts, defs, h) == w.llm(DefaultOptions, defs, h)
    && (w.llm(opts, defs, h).LlmRaised? ==> w.route(opts) == w.route(DefaultOptions))
  }

  /** The state after a plain round that ran every call of response `r`. */
  function Ran(w: World, cfg: Config, allowed: set<string>, st: State, i: nat, r: Response): State {
    NextState(st, i, r, Group(w, cfg, allowed, r.toolCalls, st.counters, i, false), [])
  }

  /** Every request the plain run sends from round `i` on is answered alike. */
  predicate AllAlike(w: World, opts: LlmOptions, cfg: Config, defs: seq<ToolDefinition>, allowed: set<string>, st: State, i: nat)
    decreases cfg.maxSteps - i
  {
    i < cfg.maxSteps ==>
      && SameAnswer(w, opts, defs, st.history)
      && match w.llm(opts, defs, st.history)
         case LlmRaised(_, _) => true
         case Reply(r) => r.toolCalls == [] || i + 1 >= cfg.maxSteps || AllAlike(w, opts, cfg, defs, allowed, Ran(w, cfg, allowed, st, i, r), i + 1)
  }

  /** Every request the plain run sends after the first round that would pause is answered alike. */
  predicate LaterAlike(w: World, opts: LlmOptions, cfg: Config, defs: seq<ToolDefinition>, allowed: set<string>, st: State, i: nat)
    decreases cfg.maxSteps - i
  {
    i < cfg.maxSteps ==>
      match w.llm(opts, defs, st.history)
      case LlmRaised(_, _) => true
      case Reply(r) =>
        || r.toolCalls == [] || i + 1 >= cfg.maxSteps
        || if AllRefused(Preflight(cfg, r.toolCalls, st.counters, i).outcomes)
           then LaterAlike(w, opts, cfg, defs, allowed, Ran(w, cfg, allowed, st, i, r), i + 1)
           else AllAlike(w, opts, cfg, defs, allowed, Ran(w, cfg, allowed, st, i, r), i + 1)
  }

  /** The default options are answered like themselves, so only a caller who chose others has to look at the answers. */
  lemma {:induction false} DefaultAlike(w: World, cfg: Config, defs: seq<ToolDefinition>, allowed: set<string>, st: State, i: nat)
    ensures AllAlike(w, DefaultOptions, cfg, defs, allowed, st, i) && LaterAlike(w, DefaultOptions, cfg, defs, allowed, st, i)
    decreases cfg.maxSteps - i
  {
    hide Ran, Preflight;
    if i + 1 < cfg.maxSteps && w.llm(DefaultOptions, defs, st.history).Reply? {
      DefaultAlike(w, cfg, defs, allowed, Ran(w, cfg, allowed, st, i, w.llm(DefaultOptions, defs, st.history).response), i + 1);
    }
  }

  // ----- plain runs under two options ------------------------------------

  /** How a plain run ends in one round, or goes on. */
  lemma PlainTurn(w: World, loopId: string, opts: LlmOptions, cfg: Config, defs: seq<ToolDefinition>, allowed: set<string>, st: State, i: nat)
    requires !cfg.requireApproval && !cfg.stopOnToolError && i < cfg.maxSteps
    ensures var asked := st.(requests := st.requests + [st.history]);
            Loop(w, loopId, opts, cfg, defs, allowed, st, i) ==
              match w.llm(opts, defs, st.history)
              case LlmRaised(e, cat) => Finish(cfg, asked.(steps := st.steps + [LlmErrorStep(i, e, cat, w.route(opts))]), false, LlmFailed, None, [])
              case Reply(r) =>
                var st1 := asked.(steps := st.steps + [LlmStep(i, r)]);
                if r.toolCalls == [] then Finish(cfg, st1, true, Completed, Some(r), [])
                else if i + 1 >= cfg.maxSteps then Finish(cfg, st1, false, MaxStepsExceeded, None, r.toolCalls)
                else Loop(w, loopId, opts, cfg, defs, allowed, Ran(w, cfg, allowed, st, i, r), i + 1)
  {
    var reply := w.llm(opts, defs, st.history);
    if reply.Reply? && reply.response.toolCalls != [] && i + 1 < cfg.maxSteps {
      PlainRoundNext(w, loopId, opts, cfg, defs, allowed, st, i, reply.response);
    }
    hide PlainRound, ApprovalRound, NextState, Group;
  }

  lemma {:induction false} AlikeSame(w: World, loopId: string, opts: LlmOptions, cfg: Config, defs: seq<ToolDefinition>, allowed: set<string>, st: State, i: nat)
    requires !cfg.requireApproval && !cfg.stopOnToolError && AllAlike(w, opts, cfg, defs, allowed, st, i)
    ensures Loop(w, loopId, opts, cfg, defs, allowed, st, i) == Loop(w, loopId, DefaultOptions, cfg, defs, allowed, st, i)
    decreases cfg.maxSteps - i
  {
    hide Ran, Round;
    if i < cfg.maxSteps {
      PlainTurn(w, loopId, opts, cfg, defs, allowed, st, i);
      PlainTurn(w, loopId, DefaultOptions, cfg, defs, allowed, st, i);
      var reply := w.llm(opts, defs, st.history);
      if reply.Reply? && reply.response.toolCalls != [] && i + 1 < cfg.maxSteps {
        AlikeSame(w, loopId, opts, cfg, defs, allowed, Ran(w, cfg, allowed, st, i, reply.response), i + 1);
      }
    }
  }

  /** Neither log continues the other. */
  predicate Conflict(a: seq<Step>, b: seq<Step>) {
    exists k | 0 <= k < |a| && k < |b| :: a[k] != b[k]
  }

  predicate NoPauses(steps: seq<Step>) {
    forall s | s in steps :: s.kind != "approval_required"
  }

  lemma {:induction false} NoPausesKept(steps: seq<Step>)
    requires NoPauses(steps)
    ensures WithoutPauses(steps) == steps
  {
    if steps != [] {
      assert steps[0] in steps && forall s | s in steps[1..] :: s in steps;
      NoPausesKept(steps[1..]);
    }
  }

  lemma NoPausesRan(w: World, cfg: Config, allowed: set<string>, st: State, i: nat, r: Response)
    requires NoPauses(st.steps)
    ensures NoPauses(Ran(w, cfg, allowed, st, i, r).steps) && st.steps + [LlmStep(i, r)] <= Ran(w, cfg, allowed, st, i, r).steps
  {
    hide Group;
  }

  /** A plain run only appends to its log, and never an approval step. */
  lemma {:induction false} PlainLog(w: World, loopId: string, opts: LlmOptions, cfg: Config, defs: seq<ToolDefinition>, allowed: set<string>, st: State, i: nat)
    requires !cfg.requireApproval && !cfg.stopOnToolError && NoPauses(st.steps)
    ensures var steps := Loop(w, loopId, opts, cfg, defs, allowed, st, i).state.steps;
            NoPauses(steps) && st.steps <= steps
    decreases cfg.maxSteps - i
  {
    hide Ran, Round;
    if i < cfg.maxSteps {
      PlainTurn(w, loopId, opts, cfg, defs, allowed, st, i);
      var reply := w.llm(opts, defs, st.history);
      if reply.Reply? && reply.response.toolCalls != [] && i + 1 < cfg.maxSteps {
        NoPausesRan(w, cfg, allowed, st, i, reply.response);
        PlainLog(w, loopId, opts, cfg, defs, allowed, Ran(w, cfg, allowed, st, i, reply.response), i + 1);
      }
    }
  }

  /** The log entry of an answer. */
  function Logged(w: World, opts: LlmOptions, defs: seq<ToolDefinition>, h: seq<Message>, i: nat): Step {
    match w.llm(opts, defs, h)
    case LlmRaised(e, cat) => LlmErrorStep(i, e, cat, w.route(opts))
    case Reply(r) => LlmStep(i, r)
  }

  lemma AnswerLogged(w: World, loopId: string, opts: LlmOptions, cfg: Config, defs: seq<ToolDefinition>, allowed: set<string>, st: State, i: nat)
    requires !cfg.requireApproval && !cfg.stopOnToolError && NoPauses(st.steps) && i < cfg.maxSteps
    ensures st.steps + [Logged(w, opts, defs, st.history, i)] <= Loop(w, loopId, opts, cfg, defs, allowed, st, i).state.steps
  {
    hide Ran, Round;
    PlainTurn(w, loopId, opts, cfg, defs, allowed, st, i);
    var reply := w.llm(opts, defs, st.history);
    if reply.Reply? && reply.response.toolCalls != [] && i + 1 < cfg.maxSteps {
      NoPausesRan(w, cfg, allowed, st, i, reply.response);
      PlainLog(w, loopId, opts, cfg, defs, allowed, Ran(w, cfg, allowed, st, i, reply.response), i + 1);
    }
  }

  lemma LoggedDiffers(w: World, opts: LlmOptions, defs: seq<ToolDefinition>, h: seq<Message>, i: nat)
    ensures SameAnswer(w, opts, defs, h) <==> Logged(w, opts, defs, h, i) == Logged(w, DefaultOptions, defs, h, i)
  {
    assert "llm_error" != "llm_response" by { assert |"llm_error"| == 9 && |"llm_response"| == 12; }
  }

  lemma {:induction false} UnlikeConflicts(w: World, loopId: string, opts: LlmOptions, cfg: Config, defs: seq<ToolDefinition>, allowed: set<string>, st: State, i: nat)
    requires !cfg.requireApproval && !cfg.stopOnToolError && NoPauses(st.steps) && !AllAlike(w, opts, cfg, defs, allowed, st, i)
    ensures Conflict(Loop(w, loopId, opts, cfg, defs, allowed, st, i).state.steps, Loop(w, loopId, DefaultOptions, cfg, defs, allowed, st, i).state.steps)
    decreases cfg.maxSteps - i
  {
    hide Ran, Round, NoPauses, Loop, Logged, SameAnswer;
    if SameAnswer(w, opts, defs, st.history) {
      AnsweredSame(w, opts, defs, st.history);
      PlainTurn(w, loopId, opts, cfg, defs, allowed, st, i);
      PlainTurn(w, loopId, DefaultOptions, cfg, defs, allowed, st, i);
      var r := w.llm(opts, defs, st.history).response;
      NoPausesRan(w, cfg, allowed, st, i, r);
      UnlikeConflicts(w, loopId, opts, cfg, defs, allowed, Ran(w, cfg, allowed, st, i, r), i + 1);
    } else {
      AnswerLogged(w, loopId, opts, cfg, defs, allowed, st, i);
      AnswerLogged(w, loopId, DefaultOptions, cfg, defs, allowed, st, i);
      LoggedDiffers(w, opts, defs, st.history, i);
      var a, b, k := Loop(w, loopId, opts, cfg, defs, allowed, st, i).state.steps, Loop(w, loopId, DefaultOptions, cfg, defs, allowed, st, i).state.steps, |st.steps|;
      var x, y := Logged(w, opts, defs, st.history, i), Logged(w, DefaultOptions, defs, st.history, i);
      assert (st.steps + [x])[k] == x && (st.steps + [y])[k] == y;
      assert a[k] == x && b[k] == y;
    }
  }

  lemma AnsweredSame(w: World, opts: LlmOptions, defs: seq<ToolDefinition>, h: seq<Message>)
    requires SameAnswer(w, opts, defs, h)
    ensures w.llm(opts, defs, h) == w.llm(DefaultOptions, defs, h)
  {
  }

  // ----- paused against plain, default options ---------------------------

  /** The paused run went one round further: it holds the plain run's log and history and more. */
  predicate Further(plain: Run, paused: Run) {
    && plain.result.reason == paused.result.reason == MaxStepsExceeded
    && plain.state.history < paused.state.history
    && WithoutPauses(plain.state.steps) <= WithoutPauses(paused.state.steps)
  }

  predicate EndsEarly(run: Run) { run.result.reason == Completed || run.result.reason == LlmFailed }

  function Approving(cfg: Config): Config { cfg.(requireApproval := true) }

  /** The paused run's next state after round `i`, paused in that round or not. */
  function RanPaused(w: World, cfg: Config, allowed: set<string>, st: State, i: nat, r: Response): State {
    NextState(st, i, r, Group(w, cfg, allowed, r.toolCalls, st.counters, i, false),
              if AllRefused(Preflight(cfg, r.toolCalls, st.counters, i).outcomes) then [] else [PausedStep(i, r)])
  }

  function Spent(w: World, cfg: Config, consumed: set<string>, st: State, i: nat, r: Response): set<string> {
    if AllRefused(Preflight(cfg, r.toolCalls, st.counters, i).outcomes) then consumed else consumed + {w.uuid(i)}
  }

  /** One round of the paused and approved run; after a pause it goes on with the default options. */
  lemma PausedTurn(w: World, loopId: string, consumed: set<string>, opts: LlmOptions, cfg: Config, defs: seq<ToolDefinition>, allowed: set<string>, st: State, i: nat)
    requires cfg.requireApproval && !cfg.stopOnToolError && ToolsUnchanged(w, defs) && w.uuid(i) !in consumed && i < cfg.maxSteps
    ensures var asked := st.(requests := st.requests + [st.history]);
            var run := AutoApprove(w, loopId, consumed, Loop(w, loopId, opts, cfg, defs, allowed, st, i));
            match w.llm(opts, defs, st.history)
            case LlmRaised(e, cat) => run == Finish(cfg, asked.(steps := st.steps + [LlmErrorStep(i, e, cat, w.route(opts))]), false, LlmFailed, None, [])
            case Reply(r) =>
              if r.toolCalls == [] then run == Finish(cfg, asked.(steps := st.steps + [LlmStep(i, r)]), true, Completed, Some(r), [])
              else
                var later := if AllRefused(Preflight(cfg, r.toolCalls, st.counters, i).outcomes) then opts else DefaultOptions;
                run == AutoApprove(w, loopId, Spent(w, cfg, consumed, st, i, r),
                                   Loop(w, loopId, later, cfg, defs, allowed, RanPaused(w, cfg, allowed, st, i, r), i + 1))
  {
    var reply := w.llm(opts, defs, st.history);
    if reply.Reply? && reply.response.toolCalls != [] {
      var r := reply.response;
      if AllRefused(Preflight(cfg, r.toolCalls, st.counters, i).outcomes) {
        RefusedRound(w, loopId, opts, cfg, defs, allowed, st, i, r);
      } else {
        ApprovedRound(w, loopId, consumed, opts, cfg, defs, allowed, st, i, r);
      }
      hide Loop, AutoApprove, NextState, Group, Preflight, AllRefused;
    } else {
      hide Group, Preflight, ApprovalRound, PlainRound, NextState, Resume;
    }
  }

  lemma RanSame(w: World, cfg: Config, allowed: set<string>, stP: State, stA: State, i: nat, r: Response)
    requires SameState(stP, stA)
    ensures SameState(Ran(w, cfg, allowed, stP, i, r), RanPaused(w, Approving(cfg), allowed, stA, i, r))
    ensures Preflight(Approving(cfg), r.toolCalls, stA.counters, i) == Preflight(cfg, r.toolCalls, stP.counters, i)
  {
    GroupConfig(w, cfg, Approving(cfg), allowed, r.toolCalls, stP.counters, i);
    PreflightConfig(cfg, Approving(cfg), r.toolCalls, stP.counters, i);
    var g := Group(w, cfg, allowed, r.toolCalls, stP.counters, i, false);
    NextSame(stP, stA, i, r, g, []);
    NextSame(stP, stA, i, r, g, [PausedStep(i, r)]);
    hide Group, Preflight, NextState, WithoutPauses, AllRefused;
  }

  lemma {:induction false} PreflightConfig(a: Config, b: Config, calls: seq<ToolCall>, c: Counters, round: nat)
    requires a.policy == b.policy && a.limits == b.limits
    ensures Preflight(a, calls, c, round) == Preflight(b, calls, c, round)
    decreases |calls|
  {
    if calls != [] { PreflightConfig(a, b, calls[1..], Charge(c, calls[0], round), round); }
  }

  lemma FreshNext(w: World, cfg: Config, consumed: set<string>, st: State, i: nat, r: Response)
    requires FreshFrom(w, consumed, i)
    ensures FreshFrom(w, Spent(w, cfg, consumed, st, i, r), i + 1) && w.uuid(i) !in consumed
  {
    hide Preflight, AllRefused;
  }

  /** Ending in the same round, with the same log entry. */
  lemma FinishSame(cfg: Config, stP: State, stA: State, s: Step, completed: bool, reason: Reason, final: Option<Response>, h: seq<Message>)
    requires SameState(stP, stA) && s.kind != "approval_required"
    ensures SameRun(Finish(cfg, stP.(requests := stP.requests + [h], steps := stP.steps + [s]), completed, reason, final, []),
                    Finish(Approving(cfg), stA.(requests := stA.requests + [h], steps := stA.steps + [s]), completed, reason, final, []))
  {
    AppendStep(stP.steps, s);
    AppendStep(stA.steps, s);
    assert WithoutPauses([]) == [];
    hide WithoutPauses;
  }

  /** Running the last round's calls only appends to history and log. */
  lemma LastRound(w: World, loopId: string, consumed: set<string>, opts: LlmOptions, cfg: Config, defs: seq<ToolDefinition>, allowed: set<string>, stP: State, stA: State, i: nat, r: Response)
    requires SameState(stP, stA) && i + 1 >= cfg.maxSteps
    ensures Further(Finish(cfg, stP.(requests := stP.requests + [stP.history], steps := stP.steps + [LlmStep(i, r)]), false, MaxStepsExceeded, None, r.toolCalls),
                    AutoApprove(w, loopId, consumed, Loop(w, loopId, opts, Approving(cfg), defs, allowed, RanPaused(w, Approving(cfg), allowed, stA, i, r), i + 1)))
  {
    var next := RanPaused(w, Approving(cfg), allowed, stA, i, r);
    RanLog(w, Approving(cfg), allowed, stA, i, r);
    AppendStep(stP.steps, LlmStep(i, r));
    hide RanPaused, WithoutPauses, Resume;
  }

  lemma RanLog(w: World, cfg: Config, allowed: set<string>, st: State, i: nat, r: Response)
    ensures var next := RanPaused(w, cfg, allowed, st, i, r);
            st.history < next.history && WithoutPauses(st.steps) + [LlmStep(i, r)] <= WithoutPauses(next.steps)
  {
    var pause := if AllRefused(Preflight(cfg, r.toolCalls, st.counters, i).outcomes) then [] else [PausedStep(i, r)];
    var g := Group(w, cfg, allowed, r.toolCalls, st.counters, i, false);
    var t := ToolStep(i, r, r.toolCalls, g.outcomes);
    AppendStep(st.steps, LlmStep(i, r));
    WithoutPausesConcat(st.steps + [LlmStep(i, r)], pause + [t]);
    assert st.steps + [LlmStep(i, r)] + pause + [t] == st.steps + [LlmStep(i, r)] + (pause + [t]);
    hide Group, Preflight, WithoutPauses, AllRefused;
  }

  /** Default options: the paused run ends like the plain one, or the plain one ended on its last round and the paused one went further. */
  lemma {:induction false} PausedRound(w: World, loopId: string, consumed: set<string>, cfg: Config, defs: seq<ToolDefinition>, allowed: set<string>, stP: State, stA: State, i: nat)
    requires !cfg.requireApproval && !cfg.stopOnToolError && ToolsUnchanged(w, defs) && SameState(stP, stA) && FreshFrom(w, consumed, i) && i < cfg.maxSteps
    ensures var plain := Loop(w, loopId, DefaultOptions, cfg, defs, allowed, stP, i);
            var paused := AutoApprove(w, loopId, consumed, Loop(w, loopId, DefaultOptions, Approving(cfg), defs, allowed, stA, i));
            if EndsEarly(plain) then SameRun(plain, paused) else Further(plain, paused)
    decreases cfg.maxSteps - i
  {
    hide Ran, RanPaused, Spent, Loop, AutoApprove, FreshFrom, SameRun, Further, SameState, ToolsUnchanged, Preflight;
    var reply := w.llm(DefaultOptions, defs, stP.history);
    assert stA.history == stP.history by { SameHistory(stP, stA); }
    PlainTurn(w, loopId, DefaultOptions, cfg, defs, allowed, stP, i);
    assert w.uuid(i) !in consumed by { FreshHead(w, consumed, i); }
    PausedTurn(w, loopId, consumed, DefaultOptions, Approving(cfg), defs, allowed, stA, i);
    if reply.LlmRaised? {
      FinishSame(cfg, stP, stA, LlmErrorStep(i, reply.errorType, reply.category, w.route(DefaultOptions)), false, LlmFailed, None, stP.history);
    } else if reply.response.toolCalls == [] {
      FinishSame(cfg, stP, stA, LlmStep(i, reply.response), true, Completed, Some(reply.response), stP.history);
    } else {
      var r := reply.response;
      var spent := Spent(w, Approving(cfg), consumed, stA, i, r);
      if i + 1 >= cfg.maxSteps {
        LastRound(w, loopId, spent, DefaultOptions, cfg, defs, allowed, stP, stA, i, r);
      } else {
        RanSame(w, cfg, allowed, stP, stA, i, r);
        FreshNext(w, Approving(cfg), consumed, stA, i, r);
        PausedRound(w, loopId, spent, cfg, defs, allowed, Ran(w, cfg, allowed, stP, i, r), RanPaused(w, Approving(cfg), allowed, stA, i, r), i + 1);
      }
    }
  }

  lemma SameHistory(a: State, b: State)
    requires SameState(a, b)
    ensures a.history == b.history && a.counters == b.counters
  {
  }

  lemma FreshHead(w: World, consumed: set<string>, i: nat)
    requires FreshFrom(w, consumed, i)
    ensures w.uuid(i) !in consumed
  {
  }

  // ----- any options -----------------------------------------------------

  lemma ConflictPrefix(a: seq<Step>, b: seq<Step>, c: seq<Step>)
    requires Conflict(a, b) && b <= c
    ensures a != c
  {
  }

  lemma FurtherDiffers(plain: Run, paused: Run)
    requires Further(plain, paused)
    ensures !SameRun(plain, paused) && !EndsEarly(plain)
  {
  }

  /** After a pause the runs agree exactly when the plain one ends early and its later requests are answered alike. */
  lemma AfterPause(w: World, loopId: string, consumed: set<string>, opts: LlmOptions, cfg: Config, defs: seq<ToolDefinition>, allowed: set<string>, stP: State, stA: State, i: nat)
    requires !cfg.requireApproval && !cfg.stopOnToolError && ToolsUnchanged(w, defs) && SameState(stP, stA) && FreshFrom(w, consumed, i) && i < cfg.maxSteps
    requires NoPauses(stP.steps)
    ensures var plain := Loop(w, loopId, opts, cfg, defs, allowed, stP, i);
            var paused := AutoApprove(w, loopId, consumed, Loop(w, loopId, DefaultOptions, Approving(cfg), defs, allowed, stA, i));
            SameRun(plain, paused) <==> EndsEarly(plain) && AllAlike(w, opts, cfg, defs, allowed, stP, i)
  {
    hide *;
    var plain := Loop(w, loopId, opts, cfg, defs, allowed, stP, i);
    var byDefault := Loop(w, loopId, DefaultOptions, cfg, defs, allowed, stP, i);
    var paused := AutoApprove(w, loopId, consumed, Loop(w, loopId, DefaultOptions, Approving(cfg), defs, allowed, stA, i));
    PausedRound(w, loopId, consumed, cfg, defs, allowed, stP, stA, i);
    if AllAlike(w, opts, cfg, defs, allowed, stP, i) {
      AlikeSame(w, loopId, opts, cfg, defs, allowed, stP, i);
      if !EndsEarly(plain) { FurtherDiffers(plain, paused); }
    } else {
      UnlikeConflicts(w, loopId, opts, cfg, defs, allowed, stP, i);
      PlainLog(w, loopId, opts, cfg, defs, allowed, stP, i);
      PlainLog(w, loopId, DefaultOptions, cfg, defs, allowed, stP, i);
      NoPausesKept(plain.state.steps);
      NoPausesKept(byDefault.state.steps);
      LogHeld(byDefault, paused);
      ConflictPrefix(plain.state.steps, byDefault.state.steps, WithoutPauses(paused.state.steps));
      LogsDiffer(plain, paused);
    }
  }

  lemma LogHeld(plain: Run, paused: Run)
    requires SameRun(plain, paused) || Further(plain, paused)
    ensures WithoutPauses(plain.state.steps) <= WithoutPauses(paused.state.steps)
  {
    hide WithoutPauses;
  }

  lemma LogsDiffer(plain: Run, paused: Run)
    requires WithoutPauses(plain.state.steps) != WithoutPauses(paused.state.steps)
    ensures !SameRun(plain, paused)
  {
    hide WithoutPauses;
  }

  lemma {:induction false} TransparentFrom(w: World, loopId: string, consumed: set<string>, opts: LlmOptions, cfg: Config, defs: seq<ToolDefinition>, allowed: set<string>, stP: State, stA: State, i: nat)
    requires !cfg.requireApproval && !cfg.stopOnToolError && ToolsUnchanged(w, defs) && SameState(stP, stA) && FreshFrom(w, consumed, i) && i < cfg.maxSteps
    requires NoPauses(stP.steps)
    ensures var plain := Loop(w, loopId, opts, cfg, defs, allowed, stP, i);
            var paused := AutoApprove(w, loopId, consumed, Loop(w, loopId, opts, Approving(cfg), defs, allowed, stA, i));
            SameRun(plain, paused) <==> EndsEarly(plain) && LaterAlike(w, opts, cfg, defs, allowed, stP, i)
    decreases cfg.maxSteps - i
  {
    hide Ran, RanPaused, Spent, Loop, AutoApprove, FreshFrom, SameRun, Further, SameState, ToolsUnchanged, Preflight, AllAlike, NoPauses;
    var reply := w.llm(opts, defs, stP.history);
    assert stA.history == stP.history && stA.counters == stP.counters by { SameHistory(stP, stA); }
    PlainTurn(w, loopId, opts, cfg, defs, allowed, stP, i);
    assert w.uuid(i) !in consumed by { FreshHead(w, consumed, i); }
    PausedTurn(w, loopId, consumed, opts, Approving(cfg), defs, allowed, stA, i);
    if reply.LlmRaised? {
      FinishSame(cfg, stP, stA, LlmErrorStep(i, reply.errorType, reply.category, w.route(opts)), false, LlmFailed, None, stP.history);
    } else if reply.response.toolCalls == [] {
      FinishSame(cfg, stP, stA, LlmStep(i, reply.response), true, Completed, Some(reply.response), stP.history);
    } else {
      var r := reply.response;
      var spent := Spent(w, Approving(cfg), consumed, stA, i, r);
      RanSame(w, cfg, allowed, stP, stA, i, r);
      var refused := AllRefused(Preflight(cfg, r.toolCalls, stP.counters, i).outcomes);
      if i + 1 >= cfg.maxSteps {
        LastRound(w, loopId, spent, if refused then opts else DefaultOptions, cfg, defs, allowed, stP, stA, i, r);
        FurtherDiffers(Loop(w, loopId, opts, cfg, defs, allowed, stP, i), AutoApprove(w, loopId, consumed, Loop(w, loopId, opts, Approving(cfg), defs, allowed, stA, i)));
      } else {
        FreshNext(w, Approving(cfg), consumed, stA, i, r);
        NoPausesRan(w, cfg, allowed, stP, i, r);
        var nextP, nextA := Ran(w, cfg, allowed, stP, i, r), RanPaused(w, Approving(cfg), allowed, stA, i, r);
        if refused {
          TransparentFrom(w, loopId, spent, opts, cfg, defs, allowed, nextP, nextA, i + 1);
        } else {
          AfterPause(w, loopId, spent, opts, cfg, defs, allowed, nextP, nextA, i + 1);
        }
      }
    }
  }

  /**
   Pausing is transparent, exactly. When tool errors do not stop the loop and the
   offered tools stay registered, a run that pauses every round and gets every
   call approved has the same reason, final response, tool results, history,
   counters, LLM requests, executed calls and (without approval steps) log as the
   run without approval, if and only if the latter ends "completed" or "llm_error"
   and its requests after the first pause are answered alike under the default
   options, which is what `resume` uses.
   */
  lemma PausingIsTransparent(w: World, loopId: string, consumed: set<string>, opts: LlmOptions, cfg: Config, defs: seq<ToolDefinition>, allowed: set<string>, messages: seq<Message>)
    requires !cfg.requireApproval && !cfg.stopOnToolError && ToolsUnchanged(w, defs) && FreshFrom(w, consumed, 0) && cfg.maxSteps >= 1
    ensures var plain := Loop(w, loopId, opts, cfg, defs, allowed, Start(messages), 0);
            var paused := AutoApprove(w, loopId, consumed, Loop(w, loopId, opts, Approving(cfg), defs, allowed, Start(messages), 0));
            && (SameRun(plain, paused) <==> EndsEarly(plain) && LaterAlike(w, opts, cfg, defs, allowed, Start(messages), 0))
            && (opts == DefaultOptions ==> LaterAlike(w, opts, cfg, defs, allowed, Start(messages), 0))
  {
    TransparentFrom(w, loopId, consumed, opts, cfg, defs, allowed, Start(messages), Start(messages), 0);
    DefaultAlike(w, cfg, defs, allowed, Start(messages), 0);
    hide Loop, AutoApprove, LaterAlike, AllAlike, SameRun;
  }

  /**
   Why the last round is excluded: a plain run that is cut off by `max_steps`
   leaves its last response unanswered, the approved run answers it and so holds a
   strictly longer history, and both report the same reason.
   */
  lemma LastRoundDiffers(w: World, loopId: string, consumed: set<string>, cfg: Config, defs: seq<ToolDefinition>, allowed: set<string>, messages: seq<Message>)
    requires !cfg.requireApproval && !cfg.stopOnToolError && ToolsUnchanged(w, defs) && FreshFrom(w, consumed, 0) && cfg.maxSteps >= 1
    ensures var plain := Loop(w, loopId, DefaultOptions, cfg, defs, allowed, Start(messages), 0);
            var paused := AutoApprove(w, loopId, consumed, Loop(w, loopId, DefaultOptions, Approving(cfg), defs, allowed, Start(messages), 0));
            Further(plain, paused) <==> !EndsEarly(plain)
  {
    PausedRound(w, loopId, consumed, cfg, defs, allowed, Start(messages), Start(messages), 0);
    hide Loop, AutoApprove, SameRun;
  }

  // ----- dropped options -------------------------------------------------

  function Says(content: string, calls: seq<ToolCall>): Response {
    Response(content, "m", "p", None, EmptyMeta, calls)
  }

  /** An LLM that asks for a tool first and then says whether it still sees the options it was started with. */
  function Attentive(opts: LlmOptions, call: ToolCall): World {
    World((o, defs, h) => if |h| == 0 then Reply(Says("", [call])) else Reply(Says(if o == opts then "kept" else "dropped", [])),
          c => ToolFinished(true, "", None, None, None), map[], o => Route(None, None),
          (k: nat) => seq(k, _ => 'x'), k => "")
  }

  /**
   Whatever options a caller chose, if not the default ones, some LLM notices:
   the unpaused run completes with its answer, the paused and resumed one does not.
   */
  lemma OptionsAreDropped(loopId: string, opts: LlmOptions, cfg: Config, call: ToolCall)
    requires opts != DefaultOptions && !cfg.requireApproval && !cfg.stopOnToolError && cfg.maxSteps >= 2 && cfg.policy.None? && cfg.limits.None?
    ensures var w := Attentive(opts, call);
            var plain := Loop(w, loopId, opts, cfg, [], {}, Start([]), 0);
            var paused := AutoApprove(w, loopId, {}, Loop(w, loopId, opts, Approving(cfg), [], {}, Start([]), 0));
            EndsEarly(plain) && !SameRun(plain, paused)
  {
    hide Ran, Preflight, Loop, AutoApprove, SameRun, AllRefused;
    var w, st, r := Attentive(opts, call), Start([]), Says("", [call]);
    forall k: nat, j: nat | j != k ensures w.uuid(j) != w.uuid(k) { assert |w.uuid(j)| == j && |w.uuid(k)| == k; }
    PausingIsTransparent(w, loopId, {}, opts, cfg, [], {}, []);
    PlainTurn(w, loopId, opts, cfg, [], {}, st, 0);
    var next := Ran(w, cfg, {}, st, 0, r);
    AsksFirst(w, cfg, st, r, call);
    PlainTurn(w, loopId, opts, cfg, [], {}, next, 1);
    assert !SameAnswer(w, opts, [], next.history) by { assert "kept" != "dropped" by { assert |"kept"| == 4 && |"dropped"| == 7; } }
    hide SameAnswer;
    assert !AllAlike(w, opts, cfg, [], {}, next, 1);
    assert !LaterAlike(w, opts, cfg, [], {}, st, 0);
  }

  lemma AsksFirst(w: World, cfg: Config, st: State, r: Response, call: ToolCall)
    requires cfg.policy.None? && cfg.limits.None? && r.toolCalls == [call]
    ensures Ran(w, cfg, {}, st, 0, r).history != [] && !AllRefused(Preflight(cfg, [call], st.counters, 0).outcomes)
  {
    assert Preflight(cfg, [call], st.counters, 0).outcomes[0].None?;
    hide Group;
  }
}
