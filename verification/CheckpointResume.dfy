/** What resuming a saved and reloaded checkpoint keeps, and what it loses. */
module CheckpointResume {
  import opened Prelude
  import opened LlmTypes
  import opened ToolLoop
  import opened ToolLoopProofs
  import opened CheckpointCodec

  // ----- every pause with good ids can be saved --------------------------

  predicate FromCall(calls: seq<ToolCall>, from: nat, x: (nat, ToolCall)) {
    from <= x.0 < |calls| && x.1 == calls[x.0]
  }

  predicate InOrder(calls: seq<ToolCall>, from: nat, xs: seq<(nat, ToolCall)>) {
    (forall x | x in xs :: FromCall(calls, from, x)) && forall i, j | 0 <= i < j < |xs| :: xs[i].0 < xs[j].0
  }

  lemma OneMore(calls: seq<ToolCall>, from: nat, rest: seq<(nat, ToolCall)>)
    requires from < |calls| && InOrder(calls, from + 1, rest)
    ensures InOrder(calls, from, rest) && InOrder(calls, from, [(from, calls[from])] + rest)
  {
    var all := [(from, calls[from])] + rest;
    forall x | x in rest ensures FromCall(calls, from, x) { assert FromCall(calls, from + 1, x); }
    forall i, j | 0 <= i < j < |all| ensures all[i].0 < all[j].0 {
      assert all[j] == rest[j - 1] && rest[j - 1] in rest && FromCall(calls, from + 1, rest[j - 1]);
      if i > 0 { assert all[i] == rest[i - 1]; }
    }
  }

  lemma {:induction false} ApprovableIds(calls: seq<ToolCall>, pre: seq<Option<Outcome>>, from: nat)
    requires |calls| == |pre| && from <= |calls|
    ensures InOrder(calls, from, Approvable(calls, pre, from))
    decreases |calls| - from
  {
    if from < |calls| {
      ApprovableIds(calls, pre, from + 1);
      OneMore(calls, from, Approvable(calls, pre, from + 1));
      hide InOrder;
      assert [] + Approvable(calls, pre, from + 1) == Approvable(calls, pre, from + 1);
    }
  }

  /** A pause over distinct, well-formed call ids passes the load-time state checks. */
  lemma PauseIsValid(w: World, loopId: string, cfg: Config, defs: seq<ToolDefinition>, allowed: set<string>, st: State, i: nat, r: Response, p: PreflightRun)
    requires |r.toolCalls| == |p.outcomes| && !AllRefused(p.outcomes) && WellFormedId(w.uuid(i))
    requires forall a, b | 0 <= a < b < |r.toolCalls| :: r.toolCalls[a].id != r.toolCalls[b].id
    requires forall c | c in r.toolCalls :: WellFormedId(c.id)
    ensures ValidState(MakeCheckpoint(w, loopId, cfg, defs, allowed, st, i, r, p))
  {
    var c := MakeCheckpoint(w, loopId, cfg, defs, allowed, st, i, r, p);
    var xs := Approvable(r.toolCalls, p.outcomes, 0);
    ApprovableIds(r.toolCalls, p.outcomes, 0);
    hide MakeCheckpoint, WellFormedId, Approvable;
    PausedFields(w, loopId, cfg, defs, allowed, st, i, r, p);
    var ids := PendingList(c);
    forall k | 0 <= k < |ids| ensures xs[k].0 < |r.toolCalls| && ids[k] == r.toolCalls[xs[k].0].id && ids[k] in CallIds(c) {
      assert FromCall(r.toolCalls, 0, xs[k]);
      assert CallIds(c)[xs[k].0] == ids[k];
    }
    var n :| 0 <= n < |p.outcomes| && p.outcomes[n].None?;
    ApprovableHas(r.toolCalls, p.outcomes, 0, n);
  }

  lemma PausedFields(w: World, loopId: string, cfg: Config, defs: seq<ToolDefinition>, allowed: set<string>, st: State, i: nat, r: Response, p: PreflightRun)
    requires |r.toolCalls| == |p.outcomes|
    ensures var c, xs := MakeCheckpoint(w, loopId, cfg, defs, allowed, st, i, r, p), Approvable(r.toolCalls, p.outcomes, 0);
            && c.id == w.uuid(i) && c.response == r && c.preflight == p.outcomes && |c.pending| == |xs|
            && forall k | 0 <= k < |xs| :: c.pending[k].callId == xs[k].1.id
  {
  }

  // ----- the paused round runs alike -------------------------------------

  function EraseRun(ex: seq<Executed>): (r: seq<Executed>)
    ensures |r| == |ex|
  {
    seq(|ex|, i requires 0 <= i < |ex| => Executed(ex[i].round, EraseCall(ex[i].call)))
  }

  lemma ApprovedUnfolds(w: World, limits: Option<Limits>, allowed: set<string>, calls: seq<ToolCall>, pre: seq<Option<Outcome>>,
                        ds: map<string, bool>, round: nat, stop: bool, stopped: bool)
    requires |calls| == |pre| > 0 && forall i | 0 <= i < |calls| :: pre[i].None? ==> calls[i].id in ds
    ensures var runs := pre[0].None? && ds[calls[0].id] && !stopped;
            var o := if pre[0].Some? then pre[0] else if !ds[calls[0].id] then Some(ApprovalDenied(calls[0]))
                     else if stopped then None else Some(Execute(w, limits, allowed, calls[0]));
            var rest := Approved(w, limits, allowed, calls[1..], pre[1..], ds, round, stop, stopped || (runs && stop && !o.value.success));
            Approved(w, limits, allowed, calls, pre, ds, round, stop, stopped) ==
              ApprovedRun([o] + rest.outcomes, (if runs then [Executed(round, calls[0])] else []) + rest.executed)
  {
    hide Execute, ApprovalDenied;
  }

  lemma EraseRunConcat(a: seq<Executed>, b: seq<Executed>)
    ensures EraseRun(a + b) == EraseRun(a) + EraseRun(b)
  {
  }

  lemma CallErased(w: World, limits: Option<Limits>, allowed: set<string>, c: ToolCall)
    requires w.runTool(EraseCall(c)) == w.runTool(c)
    ensures Execute(w, limits, allowed, EraseCall(c)) == Execute(w, limits, allowed, c) && ApprovalDenied(EraseCall(c)) == ApprovalDenied(c)
  {
    hide ApprovalMessage;
  }

  lemma {:induction false} ApprovedErased(w: World, limits: Option<Limits>, allowed: set<string>, calls: seq<ToolCall>, pre: seq<Option<Outcome>>,
                                          ds: map<string, bool>, round: nat, stop: bool, stopped: bool)
    requires |calls| == |pre| && forall i | 0 <= i < |calls| :: pre[i].None? ==> calls[i].id in ds
    requires forall c | c in calls :: w.runTool(EraseCall(c)) == w.runTool(c)
    ensures |EraseCalls(calls)| == |calls| && forall i | 0 <= i < |calls| :: EraseCalls(calls)[i].id == calls[i].id
    ensures var a, b := Approved(w, limits, allowed, calls, pre, ds, round, stop, stopped),
                        Approved(w, limits, allowed, EraseCalls(calls), pre, ds, round, stop, stopped);
            b.outcomes == a.outcomes && b.executed == EraseRun(a.executed)
    decreases |calls|
  {
    if calls != [] {
      var es := EraseCalls(calls);
      assert es[1..] == EraseCalls(calls[1..]) && es[0] == EraseCall(calls[0]);
      assert calls[0] in calls && forall c | c in calls[1..] :: c in calls;
      CallErased(w, limits, allowed, calls[0]);
      hide Execute, ApprovalDenied, Approved, EraseRun, EraseCalls;
      ApprovedUnfolds(w, limits, allowed, calls, pre, ds, round, stop, stopped);
      ApprovedUnfolds(w, limits, allowed, es, pre, ds, round, stop, stopped);
      var runs := pre[0].None? && ds[calls[0].id] && !stopped;
      var stopped' := stopped || (runs && stop && !Execute(w, limits, allowed, calls[0]).success);
      ApprovedErased(w, limits, allowed, calls[1..], pre[1..], ds, round, stop, stopped');
      var rest := Approved(w, limits, allowed, calls[1..], pre[1..], ds, round, stop, stopped').executed;
      EraseRunConcat(if runs then [Executed(round, calls[0])] else [], rest);
      OneErased(round, calls[0]);
    }
  }

  lemma OneErased(round: nat, c: ToolCall)
    ensures EraseRun([Executed(round, c)]) == [Executed(round, EraseCall(c))] && EraseRun([]) == []
  {
  }

  /**
   When tools see a call's id, name and arguments only, resuming the reloaded
   checkpoint runs the same calls with the same outcomes under the same counters
   in the paused round.
   */
  lemma ResumesAlike(w: World, c: Checkpoint, created: string, ds: map<string, bool>)
    requires Consistent(c) && ds.Keys == PendingIds(c) && forall x | x in c.response.toolCalls :: w.runTool(EraseCall(x)) == w.runTool(x)
    ensures var e := Erase(c, created);
            var stop := c.config.stopOnToolError && c.effective == Sequential;
            && Consistent(e) && PendingIds(e) == PendingIds(c) && e.counters == c.counters && e.round == c.round && e.config == c.config
            && var a := Approved(w, c.config.limits, c.allowedNames, c.response.toolCalls, c.preflight, ds, c.round, stop, false);
               var b := Approved(w, e.config.limits, e.allowedNames, e.response.toolCalls, e.preflight, ds, e.round, stop, false);
               b.outcomes == a.outcomes && b.executed == EraseRun(a.executed)
  {
    ApprovedErased(w, c.config.limits, c.allowedNames, c.response.toolCalls, c.preflight, ds, c.round,
                   c.config.stopOnToolError && c.effective == Sequential, false);
    hide Approved, Execute;
  }

  // ----- what is lost ----------------------------------------------------

  /** Without metadata a history is settled exactly when it holds no tool message at all. */
  lemma {:induction false} ErasedHistorySettled(h: seq<Message>)
    ensures Settled(MapAll(h, EraseMessage)) <==> forall m | m in h :: m.role != "tool"
    decreases |h|
  {
    var f: Message -> Message := EraseMessage;
    var e := MapAll(h, f);
    if h != [] {
      assert e[0] == f(h[0]) == EraseMessage(h[0]);
      assert e[1..] == MapAll(h[1..], f);
      ErasedHistorySettled(h[1..]);
      assert h == [h[0]] + h[1..];
      assert e[0].meta == NoMeta && e[0].role == h[0].role;
      assert Block(e) == if h[0].role != "tool" then 1 else 0;
    }
  }

  lemma {:induction false} StrayToolMessage(h: seq<Message>, i: nat)
    requires i < |h| && h[i].role == "tool" && forall m | m in h :: !m.meta.CallsMeta?
    ensures !Settled(h)
    decreases |h|
  {
    assert h[0] in h;
    if h[0].role != "tool" {
      assert forall m | m in h[1..] :: m in h;
      StrayToolMessage(h[1..], i - 1);
      assert Block(h) == 1;
    }
  }

  /**
   The persisted history has no message metadata, so the history protocol does
   not survive a save: after a resume from disk the first request sent to the LLM
   never answers its calls in the sense of the protocol.
   */
  lemma HistoryNotSettledAfterReload(c: Checkpoint, created: string, os: seq<Outcome>)
    requires os != []
    ensures !Settled(Erase(c, created).history + ResultMessages(os))
  {
    var h := Erase(c, created).history;
    var all := h + ResultMessages(os);
    forall m | m in all ensures !m.meta.CallsMeta? {
      var i :| 0 <= i < |all| && all[i] == m;
      if i < |h| { var f: Message -> Message := EraseMessage; assert h[i] == f(c.history[i]); }
    }
    assert all[|h|] == ResultMessages(os)[0];
    StrayToolMessage(all, |h|);
  }
}
