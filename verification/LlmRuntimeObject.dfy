/**
 The LLM runtime as the program runs it: retry loops inside fallback loops, and
 a usage ledger that is replaced after every response.
 */
module LlmRuntimeObject {
  import opened Prelude
  import opened LlmTypes
  import S = LlmStreaming
  import B = LlmBudget

  lemma Regroup(before: seq<string>, name: string, rest: seq<string>)
    ensures before + ([name] + rest) == before + [name] + rest
  {
  }

  class LLMRuntime {
    const policy: S.RetryPolicy
    const budget: B.Budget
    const streaming: S.World
    const providers: B.Providers
    var usageLedger: B.Ledger
    /** Provider calls made so far. */
    var made: nat

    constructor (policy: S.RetryPolicy, budget: B.Budget, streaming: S.World, providers: B.Providers)
      requires S.ValidPolicy(policy)
      ensures this.policy == policy && this.budget == budget && this.streaming == streaming && this.providers == providers
      ensures usageLedger == B.Zero && made == 0
    {
      this.policy, this.budget, this.streaming, this.providers, usageLedger, made := policy, budget, streaming, providers, B.Zero, 0;
    }

    /** Streams from one provider, retrying while nothing was yielded. */
    method StreamProviderWithRetries(provider: string) returns (calls: seq<S.Call>, outcome: S.Outcome)
      requires S.ValidPolicy(policy)
      modifies `made
      ensures S.StreamRun(calls, outcome) == S.StreamProvider(streaming, policy, provider, old(made))
      ensures made == old(made) + |calls|
    {
      hide S.Retries, S.Interrupted;
      calls := [];
      if !streaming.streams(provider) { return [], S.Failed(S.Failure("unsupported", true)); }
      var attempt := 1;
      ghost var n := made;
      while true
        invariant 1 <= attempt <= policy.maxAttempts && made == n + |calls|
        invariant S.Retries(streaming, policy, provider, 1, n) == Prefixed(calls, S.Retries(streaming, policy, provider, attempt, made))
        decreases policy.maxAttempts - attempt
      {
        S.RetriesTurn(streaming, policy, provider, attempt, made);
        var script := streaming.script(provider, made);
        var out := S.StampAll(S.Sent(script), provider, streaming.model);
        var number := made;
        made := made + 1;
        if script.failure.None? { return calls + [S.Call(provider, number, out, 0.0)], S.Finished; }
        if out != [] { return calls + [S.Call(provider, number, out, 0.0)], S.Failed(S.Failure(S.Interrupted(), true)); }
        var category := script.failure.value.category;
        if !S.Retryable(policy, category) || attempt >= policy.maxAttempts {
          return calls + [S.Call(provider, number, [], 0.0)], S.Failed(script.failure.value);
        }
        ghost var before := calls;
        calls := calls + [S.Call(provider, number, [], S.RetryBackoff(policy, attempt))];
        attempt := attempt + 1;
        ghost var rest := S.Retries(streaming, policy, provider, attempt, made);
        assert before + ([calls[|before|]] + rest.calls) == calls + rest.calls;
      }
    }

    /** The fallback loop of a stream. */
    method StreamWithRouting(names: seq<string>) returns (calls: seq<S.Call>, outcome: S.Outcome)
      requires S.ValidPolicy(policy) && names != []
      modifies `made
      ensures S.StreamRun(calls, outcome) == S.Routing(streaming, policy, names, old(made)) && made == old(made) + |calls|
    {
      hide S.StreamProvider, S.FallsBack, S.Routing;
      calls := [];
      ghost var n := made;
      var i := 0;
      assert names[0..] == names;
      while true
        invariant i < |names| && made == n + |calls|
        invariant S.Routing(streaming, policy, names, n) == Prefixed(calls, S.Routing(streaming, policy, names[i..], made))
        decreases |names| - i
      {
        S.RoutingTurn(streaming, policy, names[i..], made);
        assert names[i..][0] == names[i] && names[i..][1..] == names[i + 1..];
        ghost var before := calls;
        var here;
        here, outcome := StreamProviderWithRetries(names[i]);
        calls := calls + here;
        if outcome.Finished? || i + 1 >= |names| || !S.FallsBack(policy, outcome.failure) {
          outcome := S.Surfaced(outcome);
          return;
        }
        i := i + 1;
        ghost var rest := S.Routing(streaming, policy, names[i..], made);
        assert before + (here + rest.calls) == calls + rest.calls;
      }
    }

    /** The usage the last final chunk carried. */
    static method LastUsage(chunks: seq<S.Chunk>) returns (usage: Option<Usage>)
      ensures usage == S.FinalUsage(chunks)
    {
      usage := None;
      for i := 0 to |chunks|
        invariant usage == S.FinalUsage(chunks[..i])
      {
        assert chunks[..i + 1][..i] == chunks[..i];
        if chunks[i].done && chunks[i].usage.Some? { usage := chunks[i].usage; }
      }
      assert chunks[..|chunks|] == chunks;
    }

    /** Checks the budget, streams, and charges the ledger once the stream has ended; a consumer may close it after `taken` chunks. */
    method StreamChat(req: B.Request, taken: Option<nat>) returns (calls: seq<S.Call>, outcome: B.ChatOutcome)
      requires S.ValidPolicy(policy)
      modifies this
      ensures B.StreamedChat(calls, usageLedger, outcome) == B.StreamChat(streaming, policy, budget, old(usageLedger), req, old(made), taken)
      ensures made == old(made) + |calls|
    {
      hide S.Routing, S.OrderedUnique, S.FinalUsage, B.Exceeded, B.RequestExceeds, B.ApplyUsage;
      var before := B.RequestExceeds(budget, usageLedger, req.maxTokens);
      if before != [] && budget.strict { return [], B.BudgetExceeded(before); }
      assert ([req.selected] + req.fallbacks)[0] == req.selected && req.selected in S.OrderedUnique([req.selected] + req.fallbacks, {});
      if taken == Some(0) { return [], B.LeftEarly; }
      var ended;
      calls, ended := StreamWithRouting(S.OrderedUnique([req.selected] + req.fallbacks, {}));
      if calls != [] && taken.Some? && taken.value <= |calls[|calls| - 1].yielded| { return B.Cut(calls, taken.value), B.LeftEarly; }
      if ended.Failed? { return calls, B.ProviderFailed(ended.failure); }
      if calls != [] {
        var usage := LastUsage(calls[|calls| - 1].yielded);
        usageLedger := B.ApplyUsage(usageLedger, usage);
      }
      var after := B.Exceeded(budget, usageLedger);
      outcome := if after != [] && budget.strict then B.BudgetExceeded(after) else B.Ok;
    }

    method CompleteWithRetries(name: string, req: B.Request) returns (calls: seq<string>, reply: B.Reply)
      requires S.ValidPolicy(policy)
      modifies `made
      ensures B.CompleteRun(calls, reply) == B.Complete(providers, policy, name, req, 1, old(made))
      ensures made == old(made) + |calls|
    {
      hide B.Complete, S.Retryable;
      calls := [];
      var attempt := 1;
      ghost var n := made;
      while true
        invariant 1 <= attempt <= policy.maxAttempts && made == n + |calls|
        invariant var rest := B.Complete(providers, policy, name, req, attempt, made);
                  B.Complete(providers, policy, name, req, 1, n) == B.CompleteRun(calls + rest.calls, rest.reply)
        decreases policy.maxAttempts - attempt
      {
        B.CompleteTurn(providers, policy, name, req, attempt, made);
        reply := providers.reply(name, made, req);
        ghost var before := calls;
        made := made + 1;
        calls := calls + [name];
        if reply.Answer? || !S.Retryable(policy, reply.failure.category) || attempt >= policy.maxAttempts { return; }
        attempt := attempt + 1;
        ghost var rest := B.Complete(providers, policy, name, req, attempt, made);
        Regroup(before, name, rest.calls);
      }
    }

    method RouteCompletion(names: seq<string>, req: B.Request) returns (calls: seq<string>, reply: B.Reply)
      requires S.ValidPolicy(policy) && names != []
      modifies `made
      ensures B.CompleteRun(calls, reply) == B.Route(providers, policy, names, req, old(made)) && made == old(made) + |calls|
    {
      hide B.Complete, B.Route, B.GoesOn;
      calls := [];
      ghost var n := made;
      var i := 0;
      assert names[0..] == names;
      while true
        invariant i < |names| && made == n + |calls|
        invariant var rest := B.Route(providers, policy, names[i..], req, made);
                  B.Route(providers, policy, names, req, n) == B.CompleteRun(calls + rest.calls, rest.reply)
        decreases |names| - i
      {
        B.RouteTurn(providers, policy, names[i..], req, made);
        assert names[i..][0] == names[i] && names[i..][1..] == names[i + 1..];
        ghost var before := calls;
        var here;
        here, reply := CompleteWithRetries(names[i], req);
        calls := calls + here;
        if reply.Answer? { return; }
        if !B.GoesOn(policy, reply.failure) {
          reply := B.Refused(S.Failure(reply.failure.category, true));
          return;
        }
        if i + 1 >= |names| {
          reply := B.Refused(B.Exhausted);
          return;
        }
        i := i + 1;
        ghost var rest := B.Route(providers, policy, names[i..], req, made);
        assert before + (here + rest.calls) == calls + rest.calls;
      }
    }

    /** Checks the budget, calls the providers in order, charges the ledger, checks again. */
    method ChatWithRouting(req: B.Request) returns (calls: seq<string>, outcome: B.ChatOutcome)
      requires S.ValidPolicy(policy)
      modifies this
      ensures B.ChatRun(calls, usageLedger, outcome) == B.Chat(providers, policy, budget, old(usageLedger), req, old(made))
      ensures made == old(made) + |calls|
    {
      hide B.Route, B.Exceeded, B.RequestExceeds, S.OrderedUnique;
      var before := B.RequestExceeds(budget, usageLedger, req.maxTokens);
      if before != [] && budget.strict { return [], B.BudgetExceeded(before); }
      var reply;
      assert ([req.selected] + req.fallbacks)[0] == req.selected && req.selected in S.OrderedUnique([req.selected] + req.fallbacks, {});
      calls, reply := RouteCompletion(S.OrderedUnique([req.selected] + req.fallbacks, {}), req);
      if reply.Refused? { return calls, B.ProviderFailed(reply.failure); }
      usageLedger := B.ApplyUsage(usageLedger, reply.usage);
      var after := B.Exceeded(budget, usageLedger);
      outcome := if after != [] && budget.strict then B.BudgetExceeded(after) else B.Ok;
    }
  }

  /** A run that continues after some calls. */
  function Prefixed(calls: seq<S.Call>, rest: S.StreamRun): S.StreamRun {
    S.StreamRun(calls + rest.calls, rest.outcome)
  }
}
